/** The spend ledger: usage rows, the sum that drops gateway estimates superseded by an
    authoritative import, and the budgets measured with it. Money is a real number. */
module Ledger {
  import opened Text
  import opened Ids
  import opened Calendar

  /** A usage record joined with its provider and, if it has one, its instance. `raw`
      holds the string fields of the record's JSON. */
  datatype Row = Row(
    provider: string, providerId: Id, instance: Option<Id>,
    owner: Option<string>, workspace: Option<string>, tenant: Option<Id>,
    start: Instant, end: Instant,
    metric: string, quantity: real, cost: real,
    raw: map<string, string>)

  /** The columns UpdateAIUsageRecordCost sets. */
  function Restated(r: Row, spend: real, now: Instant): Row {
    r.(cost := spend, quantity := spend, start := now, end := now)
  }

  datatype Budget = Budget(tenant: Option<Id>, scope: string, scopeRef: string, limit: real,
                           period: string, softPct: int, hardPct: int)

  datatype BudgetStatus = Ok | Warning | HardLimit

  datatype Summary = Summary(budget: Budget, actual: real, remaining: real, usagePct: real, status: BudgetStatus)

  function RawField(raw: map<string, string>, key: string): string {
    if key in raw then Trim(raw[key]) else ""
  }

  function Source(r: Row): string {
    Lower(RawField(r.raw, "source"))
  }

  predicate IsAuthoritative(r: Row) {
    Source(r) in {"openai_costs_api", "anthropic_cost_report", "litellm_spend"}
  }

  predicate IsEstimate(r: Row) {
    Source(r) == "opord_gateway_lite"
  }

  // --------------------------------------------------------------------- sums

  function Sum(rows: seq<Row>, f: Row -> real): real {
    if rows == [] then 0.0 else f(rows[0]) + Sum(rows[1..], f)
  }

  lemma {:induction false} SumConcat(a: seq<Row>, b: seq<Row>, f: Row -> real)
    ensures Sum(a + b, f) == Sum(a, f) + Sum(b, f)
  {
    if a == [] {
      assert a + b == b;
    } else {
      assert (a + b)[1..] == a[1..] + b;
      SumConcat(a[1..], b, f);
    }
  }

  lemma {:induction false} SumRemove(rows: seq<Row>, k: nat, f: Row -> real)
    requires k < |rows|
    ensures Sum(rows, f) == f(rows[k]) + Sum(rows[..k] + rows[k + 1..], f)
  {
    assert rows == rows[..k] + ([rows[k]] + rows[k + 1..]);
    SumConcat(rows[..k], [rows[k]] + rows[k + 1..], f);
    SumConcat([rows[k]], rows[k + 1..], f);
    SumConcat(rows[..k], rows[k + 1..], f);
    assert [rows[k]][1..] == [];
    assert Sum([rows[k]], f) == f(rows[k]);
  }

  lemma MultisetWithout<T>(rows: seq<T>, k: nat)
    requires k < |rows|
    ensures multiset(rows[..k] + rows[k + 1..]) == multiset(rows) - multiset{rows[k]}
  {
    assert rows == rows[..k] + [rows[k]] + rows[k + 1..];
  }

  lemma SumHead(rows: seq<Row>, f: Row -> real)
    requires rows != []
    ensures Sum(rows, f) == f(rows[0]) + Sum(rows[1..], f)
  {
  }

  /** A sum does not depend on the order of the rows. */
  lemma {:induction false} SumPermutes(a: seq<Row>, b: seq<Row>, f: Row -> real)
    requires multiset(a) == multiset(b)
    ensures Sum(a, f) == Sum(b, f)
    decreases |a|
  {
    if a == [] {
      assert |multiset(b)| == |b|;
    } else {
      hide Sum;
      SumHead(a, f);
      assert a[0] in multiset(b);
      var k :| 0 <= k < |b| && b[k] == a[0];
      var b' := b[..k] + b[k + 1..];
      MultisetWithout(b, k);
      MultisetWithout(a, 0);
      assert a[..0] + a[1..] == a[1..];
      SumPermutes(a[1..], b', f);
      SumRemove(b, k, f);
    }
  }

  lemma {:induction false} SumCongruent(rows: seq<Row>, f: Row -> real, g: Row -> real)
    requires forall r :: r in rows ==> f(r) == g(r)
    ensures Sum(rows, f) == Sum(rows, g)
  {
    if rows != [] {
      assert rows[0] in rows;
      SumCongruent(rows[1..], f, g);
    }
  }

  lemma {:induction false} SumAdds(rows: seq<Row>, f: Row -> real, g: Row -> real, h: Row -> real)
    requires forall r :: r in rows ==> h(r) == f(r) + g(r)
    ensures Sum(rows, h) == Sum(rows, f) + Sum(rows, g)
  {
    if rows != [] {
      assert rows[0] in rows;
      SumAdds(rows[1..], f, g, h);
    }
  }

  lemma {:induction false} SumAtMost(rows: seq<Row>, f: Row -> real, g: Row -> real)
    requires forall r :: r in rows ==> f(r) <= g(r)
    ensures Sum(rows, f) <= Sum(rows, g)
  {
    if rows != [] {
      assert rows[0] in rows;
      SumAtMost(rows[1..], f, g);
    }
  }

  /** Replacing one row changes a sum by what the two rows contribute. */
  lemma SumReplace(rows: seq<Row>, k: nat, r: Row, f: Row -> real)
    requires k < |rows|
    ensures Sum(rows[k := r], f) == Sum(rows, f) - f(rows[k]) + f(r)
  {
    SumRemove(rows, k, f);
    SumRemove(rows[k := r], k, f);
    assert rows[k := r][..k] + rows[k := r][k + 1..] == rows[..k] + rows[k + 1..];
  }

  // ------------------------------------------------------------- supersession

  predicate InWindow(r: Row, start: Instant, inScope: Row -> bool) {
    r.start >= start && inScope(r)
  }

  /** Folded names of the providers with an authoritative row in window and scope. */
  function Settled(rows: seq<Row>, start: Instant, inScope: Row -> bool): set<string> {
    set r | r in rows && InWindow(r, start, inScope) && IsAuthoritative(r) :: Lower(r.provider)
  }

  /** What a row contributes once the providers in `settled` have real figures. */
  function Contribution(r: Row, start: Instant, inScope: Row -> bool, settled: set<string>): real {
    if !InWindow(r, start, inScope) then 0.0
    else if IsEstimate(r) && Lower(r.provider) in settled then 0.0
    else r.cost
  }

  function CostUsd(rows: seq<Row>, start: Instant, inScope: Row -> bool): real {
    var settled := Settled(rows, start, inScope);
    Sum(rows, r => Contribution(r, start, inScope, settled))
  }

  method AiCostUsd(usage: seq<Row>, start: Instant, inScope: Row -> bool) returns (total: real)
    ensures total == CostUsd(usage, start, inScope)
  {
    var authoritative: set<string> := {};
    for i := 0 to |usage|
      invariant authoritative == Settled(usage[..i], start, inScope)
    {
      var u := usage[i];
      assert usage[..i + 1] == usage[..i] + [u];
      if u.start < start || !inScope(u) {
        continue;
      }
      if IsAuthoritative(u) {
        authoritative := authoritative + {Lower(u.provider)};
      }
    }
    assert usage[..|usage|] == usage;
    ghost var f := r => Contribution(r, start, inScope, authoritative);
    total := 0.0;
    for i := 0 to |usage|
      invariant total + Sum(usage[i..], f) == Sum(usage, f)
    {
      var u := usage[i];
      assert usage[i..][0] == u && usage[i..][1..] == usage[i + 1..];
      if u.start < start || !inScope(u) {
        continue;
      }
      if IsEstimate(u) && Lower(u.provider) in authoritative {
        continue;
      }
      total := total + u.cost;
    }
    SumCongruent(usage, f, r => Contribution(r, start, inScope, Settled(usage, start, inScope)));
  }

  function PlainCost(r: Row, start: Instant, inScope: Row -> bool): real {
    if InWindow(r, start, inScope) then r.cost else 0.0
  }

  /** The estimates that an authoritative row of the same provider supersedes. */
  ghost predicate Superseded(r: Row, rows: seq<Row>, start: Instant, inScope: Row -> bool) {
    && InWindow(r, start, inScope) && IsEstimate(r)
    && exists a :: a in rows && InWindow(a, start, inScope) && IsAuthoritative(a)
                && EqualFold(a.provider, r.provider)
  }

  ghost function SupersededCost(rows: seq<Row>, start: Instant, inScope: Row -> bool): real {
    Sum(rows, r => if Superseded(r, rows, start, inScope) then r.cost else 0.0)
  }

  lemma SupersededIffSettled(r: Row, rows: seq<Row>, start: Instant, inScope: Row -> bool)
    ensures Superseded(r, rows, start, inScope)
       <==> InWindow(r, start, inScope) && IsEstimate(r) && Lower(r.provider) in Settled(rows, start, inScope)
  {
  }

  /** The two-pass sum is the plain sum in window and scope less exactly the superseded
      estimates: nothing is counted twice and nothing else is left out. */
  lemma CostIsSumWithoutSuperseded(rows: seq<Row>, start: Instant, inScope: Row -> bool)
    ensures CostUsd(rows, start, inScope)
         == Sum(rows, r => PlainCost(r, start, inScope)) - SupersededCost(rows, start, inScope)
  {
    var settled := Settled(rows, start, inScope);
    var f := r => Contribution(r, start, inScope, settled);
    var g := r => if Superseded(r, rows, start, inScope) then r.cost else 0.0;
    var h := r => PlainCost(r, start, inScope);
    forall r | r in rows ensures h(r) == f(r) + g(r) {
      SupersededIffSettled(r, rows, start, inScope);
    }
    SumAdds(rows, f, g, h);
  }

  /** The figure does not depend on the order in which rows are listed. */
  lemma CostPermutes(a: seq<Row>, b: seq<Row>, start: Instant, inScope: Row -> bool)
    requires multiset(a) == multiset(b)
    ensures CostUsd(a, start, inScope) == CostUsd(b, start, inScope)
  {
    var sa, sb := Settled(a, start, inScope), Settled(b, start, inScope);
    forall r ensures r in a <==> r in b {
      assert r in a <==> r in multiset(a);
      assert r in b <==> r in multiset(b);
    }
    assert sa == sb;
    SumPermutes(a, b, r => Contribution(r, start, inScope, sa));
  }

  // ------------------------------------------------------- how far a figure can grow

  ghost predicate NonNegative(rows: seq<Row>) {
    forall r :: r in rows ==> r.cost >= 0.0
  }

  function RowCost(r: Row): real { r.cost }

  /** Settling more providers only lowers what a row contributes. */
  lemma SettlingLowers(r: Row, start: Instant, inScope: Row -> bool, few: set<string>, more: set<string>)
    requires few <= more && r.cost >= 0.0
    ensures 0.0 <= Contribution(r, start, inScope, more) <= Contribution(r, start, inScope, few) <= r.cost
  {
  }

  lemma {:induction false} SumNonNegative(rows: seq<Row>, f: Row -> real)
    requires forall r :: r in rows ==> f(r) >= 0.0
    ensures Sum(rows, f) >= 0.0
  {
    if rows != [] {
      assert rows[0] in rows;
      SumNonNegative(rows[1..], f);
    }
  }

  /** New rows raise a figure by at most their cost, whatever they settle. */
  lemma CostGrowsAtMost(rows: seq<Row>, more: seq<Row>, start: Instant, inScope: Row -> bool)
    requires NonNegative(rows) && NonNegative(more)
    ensures CostUsd(rows + more, start, inScope) <= CostUsd(rows, start, inScope) + Sum(more, RowCost)
  {
    var before, after := Settled(rows, start, inScope), Settled(rows + more, start, inScope);
    var f, g := r => Contribution(r, start, inScope, after), r => Contribution(r, start, inScope, before);
    assert before <= after;
    forall r: Row | r.cost >= 0.0 ensures f(r) <= g(r) && f(r) <= RowCost(r) {
      SettlingLowers(r, start, inScope, before, after);
    }
    SumConcat(rows, more, f);
    SumAtMost(rows, f, g);
    SumAtMost(more, f, RowCost);
  }

  /** So does restating an authoritative row, at a later time, with a new cost. */
  lemma CostRestatedAtMost(rows: seq<Row>, k: nat, r: Row, start: Instant, inScope: Row -> bool)
    requires k < |rows| && NonNegative(rows) && r.cost >= 0.0
    requires IsAuthoritative(r) && r.provider == rows[k].provider && r.start >= rows[k].start
    requires inScope(rows[k]) ==> inScope(r)
    ensures CostUsd(rows[k := r], start, inScope) <= CostUsd(rows, start, inScope) + r.cost
  {
    var before, after := Settled(rows, start, inScope), Settled(rows[k := r], start, inScope);
    RestatingUnsettlesNothing(rows, k, r, start, inScope);
    var f, g := q => Contribution(q, start, inScope, after), q => Contribution(q, start, inScope, before);
    forall q: Row | q.cost >= 0.0 ensures 0.0 <= f(q) <= g(q) && f(q) <= RowCost(q) {
      SettlingLowers(q, start, inScope, before, after);
    }
    SumReplace(rows, k, r, f);
    assert rows[k] in rows;
    SumAtMost(rows, f, g);
  }

  lemma RestatingUnsettlesNothing(rows: seq<Row>, k: nat, r: Row, start: Instant, inScope: Row -> bool)
    requires k < |rows| && IsAuthoritative(r) && r.provider == rows[k].provider && r.start >= rows[k].start
    requires inScope(rows[k]) ==> inScope(r)
    ensures Settled(rows, start, inScope) <= Settled(rows[k := r], start, inScope)
  {
    var next := rows[k := r];
    forall n | n in Settled(rows, start, inScope) ensures n in Settled(next, start, inScope) {
      var q :| q in rows && InWindow(q, start, inScope) && IsAuthoritative(q) && Lower(q.provider) == n;
      var i :| 0 <= i < |rows| && rows[i] == q;
      assert next[i] in next && InWindow(next[i], start, inScope) && IsAuthoritative(next[i]);
    }
  }

  /** Nothing in the window, nothing spent. */
  lemma NothingInWindow(rows: seq<Row>, start: Instant, inScope: Row -> bool)
    requires forall r :: r in rows ==> r.start < start
    ensures CostUsd(rows, start, inScope) == 0.0
  {
    var settled := Settled(rows, start, inScope);
    SumZero(rows, r => Contribution(r, start, inScope, settled));
  }

  lemma {:induction false} SumZero(rows: seq<Row>, f: Row -> real)
    requires forall r :: r in rows ==> f(r) == 0.0
    ensures Sum(rows, f) == 0.0
  {
    if rows != [] {
      assert rows[0] in rows;
      SumZero(rows[1..], f);
    }
  }

  // -------------------------------------------------------- scopes and budgets

  predicate ScopeMatches(b: Budget, u: Row) {
    var ref := Trim(b.scopeRef);
    var scope := Lower(Trim(b.scope));
    if scope == "" || scope == "global" then true
    else if scope == "provider" then
      ref == "" || EqualFold(u.provider, ref) || IdText(u.providerId) == ref
    else if scope == "owner" then
      (u.owner.Some? && EqualFold(u.owner.value, ref)) || EqualFold(RawField(u.raw, "owner"), ref)
    else if scope == "workspace" then
      || (u.workspace.Some? && EqualFold(u.workspace.value, ref))
      || EqualFold(RawField(u.raw, "workspace"), ref)
      || EqualFold(RawField(u.raw, "workspace_id"), ref)
    else if scope == "tenant" then
      if ref == "" then u.tenant.None?
      else u.tenant.Some? && IdText(u.tenant.value) == ref
    else false
  }

  function ScopeOf(b: Budget): Row -> bool {
    u => ScopeMatches(b, u)
  }

  function ActualUsd(z: Zone, b: Budget, usage: seq<Row>, now: Instant): real {
    CostUsd(usage, PeriodStart(z, b.period, now), ScopeOf(b))
  }

  function Summarize(z: Zone, b: Budget, usage: seq<Row>, now: Instant): Summary {
    var actual := ActualUsd(z, b, usage, now);
    var pct := if b.limit > 0.0 then actual / b.limit * 100.0 else 0.0;
    Summary(b, actual, b.limit - actual, pct,
            if pct >= b.hardPct as real then HardLimit
            else if pct >= b.softPct as real then Warning
            else Ok)
  }

  /** A tenant-scoped caller sees rows of that tenant only; others see everything. */
  predicate Visible(caller: Option<Id>, tenant: Option<Id>) {
    caller.None? || tenant == caller
  }

  /** The rows of a table the caller may see, in order. */
  function Own<T>(caller: Option<Id>, rows: seq<T>, tenantOf: T -> Option<Id>): seq<T> {
    if rows == [] then []
    else
      var rest := Own(caller, rows[1..], tenantOf);
      if Visible(caller, tenantOf(rows[0])) then [rows[0]] + rest else rest
  }

  function RowTenant(r: Row): Option<Id> { r.tenant }

  function Summaries(z: Zone, caller: Option<Id>, budgets: seq<Budget>, usage: seq<Row>, now: Instant): seq<Summary> {
    if budgets == [] then []
    else
      var rest := Summaries(z, caller, budgets[1..], usage, now);
      if Visible(caller, budgets[0].tenant)
      then [Summarize(z, budgets[0], Own(caller, usage, RowTenant), now)] + rest
      else rest
  }

  lemma {:induction false} OwnMembers<T>(caller: Option<Id>, rows: seq<T>, tenantOf: T -> Option<Id>)
    ensures forall r :: r in Own(caller, rows, tenantOf) <==> r in rows && Visible(caller, tenantOf(r))
  {
    if rows != [] {
      OwnMembers(caller, rows[1..], tenantOf);
      assert rows == [rows[0]] + rows[1..];
    }
  }

  /** The tenant filter shared by the list operations: exactly the visible rows, in order. */
  method ListOwn<T(==)>(caller: Option<Id>, rows: seq<T>, tenantOf: T -> Option<Id>) returns (out: seq<T>)
    ensures out == Own(caller, rows, tenantOf)
    ensures forall r :: r in out <==> r in rows && (caller == None || tenantOf(r) == caller)
  {
    OwnMembers(caller, rows, tenantOf);
    if caller.None? {
      UnscopedSeesAll(rows, tenantOf);
      return rows;
    }
    out := [];
    for i := 0 to |rows|
      invariant out + Own(caller, rows[i..], tenantOf) == Own(caller, rows, tenantOf)
    {
      assert rows[i..][0] == rows[i] && rows[i..][1..] == rows[i + 1..];
      if Visible(caller, tenantOf(rows[i])) {
        out := out + [rows[i]];
      }
    }
  }

  lemma {:induction false} UnscopedSeesAll<T>(rows: seq<T>, tenantOf: T -> Option<Id>)
    ensures Own(None, rows, tenantOf) == rows
  {
    if rows != [] {
      UnscopedSeesAll(rows[1..], tenantOf);
    }
  }

  method SummarizeBudget(z: Zone, b: Budget, usage: seq<Row>, now: Instant) returns (s: Summary)
    ensures s == Summarize(z, b, usage, now)
  {
    var actual := AiCostUsd(usage, PeriodStart(z, b.period, now), ScopeOf(b));
    var remaining := b.limit - actual;
    var pct := 0.0;
    if b.limit > 0.0 {
      pct := actual / b.limit * 100.0;
    }
    var status := Ok;
    if pct >= b.hardPct as real {
      status := HardLimit;
    } else if pct >= b.softPct as real {
      status := Warning;
    }
    s := Summary(b, actual, remaining, pct, status);
  }

  method ListAiBudgetSummaries(z: Zone, caller: Option<Id>, budgets: seq<Budget>, rows: seq<Row>, now: Instant)
    returns (out: seq<Summary>)
    ensures out == Summaries(z, caller, budgets, rows, now)
  {
    hide Summarize, Own;
    var usage := ListOwn(caller, rows, RowTenant);
    out := [];
    for i := 0 to |budgets|
      invariant out + Summaries(z, caller, budgets[i..], rows, now) == Summaries(z, caller, budgets, rows, now)
    {
      var b := budgets[i];
      assert budgets[i..][0] == b && budgets[i..][1..] == budgets[i + 1..];
      if !Visible(caller, b.tenant) {
        continue;
      }
      var s := SummarizeBudget(z, b, usage, now);
      out := out + [s];
    }
  }

  // ------------------------------------------- the global figure, by provider

  /** A scope that takes either all or none of a provider's rows. */
  ghost predicate ByProvider(rows: seq<Row>, scope: Row -> bool) {
    forall r, q :: r in rows && q in rows && EqualFold(r.provider, q.provider) ==> scope(r) == scope(q)
  }

  /** Scopes made of whole providers can be added up. */
  lemma CostAddsOverProviders(rows: seq<Row>, start: Instant, a: Row -> bool, b: Row -> bool, both: Row -> bool)
    requires ByProvider(rows, a) && ByProvider(rows, b)
    requires forall r :: r in rows ==> !(a(r) && b(r)) && (both(r) <==> a(r) || b(r))
    ensures CostUsd(rows, start, both) == CostUsd(rows, start, a) + CostUsd(rows, start, b)
  {
    var sa, sb, sc := Settled(rows, start, a), Settled(rows, start, b), Settled(rows, start, both);
    forall r | r in rows
      ensures Contribution(r, start, both, sc) == Contribution(r, start, a, sa) + Contribution(r, start, b, sb)
    {
      if a(r) {
        SettledWithinScope(rows, start, a, both, r);
      } else if b(r) {
        SettledWithinScope(rows, start, b, both, r);
      }
    }
    SumAdds(rows, r => Contribution(r, start, a, sa), r => Contribution(r, start, b, sb),
            r => Contribution(r, start, both, sc));
  }

  lemma SettledWithinScope(rows: seq<Row>, start: Instant, part: Row -> bool, whole: Row -> bool, r: Row)
    requires ByProvider(rows, part) && r in rows && part(r)
    requires forall q :: q in rows && part(q) ==> whole(q)
    ensures Lower(r.provider) in Settled(rows, start, part) <==> Lower(r.provider) in Settled(rows, start, whole)
  {
    if Lower(r.provider) in Settled(rows, start, whole) {
      var q :| q in rows && InWindow(q, start, whole) && IsAuthoritative(q) && Lower(q.provider) == Lower(r.provider);
      assert EqualFold(q.provider, r.provider);
      assert part(q);
      assert InWindow(q, start, part);
    }
    if Lower(r.provider) in Settled(rows, start, part) {
      var q :| q in rows && InWindow(q, start, part) && IsAuthoritative(q) && Lower(q.provider) == Lower(r.provider);
      assert InWindow(q, start, whole);
    }
  }

  function ProviderBudget(name: string, period: string): Budget {
    Budget(None, "provider", name, 1.0, period, 80, 100)
  }

  function GlobalBudget(period: string): Budget {
    Budget(None, "global", "", 1.0, period, 80, 100)
  }

  /** Names under which provider budgets cover the ledger: trimmed, not empty, pairwise
      different when folded, covering every row, and no name the id text of another
      provider. */
  ghost predicate NamesProviders(names: seq<string>, rows: seq<Row>) {
    && (forall n :: n in names ==> Trim(n) == n != "")
    && (forall i, j :: 0 <= i < j < |names| ==> !EqualFold(names[i], names[j]))
    && (forall r :: r in rows ==> exists n :: n in names && EqualFold(r.provider, n))
    && (forall r, n :: r in rows && n in names && IdText(r.providerId) == n ==> EqualFold(r.provider, n))
  }

  function ProviderTotal(z: Zone, names: seq<string>, period: string, rows: seq<Row>, now: Instant): real {
    if names == [] then 0.0
    else
      var first := ActualUsd(z, ProviderBudget(names[0], period), rows, now);
      first + ProviderTotal(z, names[1..], period, rows, now)
  }

  predicate NamedBy(names: seq<string>, u: Row) {
    exists n :: n in names && EqualFold(u.provider, n)
  }

  lemma ProviderScope(name: string, period: string, u: Row)
    requires Trim(name) == name != ""
    ensures ScopeMatches(ProviderBudget(name, period), u)
       <==> EqualFold(u.provider, name) || IdText(u.providerId) == name
    ensures ScopeMatches(GlobalBudget(period), u)
  {
    assert Lower(Trim("provider")) == "provider" by { assert Trim("provider") == "provider"; }
    assert Trim("global") == "global";
    assert Lower("global") == "global";
  }

  lemma CostScopeCongruent(rows: seq<Row>, start: Instant, a: Row -> bool, b: Row -> bool)
    requires forall r :: r in rows ==> a(r) == b(r)
    ensures CostUsd(rows, start, a) == CostUsd(rows, start, b)
  {
    assert Settled(rows, start, a) == Settled(rows, start, b);
    SumCongruent(rows, r => Contribution(r, start, a, Settled(rows, start, a)),
                 r => Contribution(r, start, b, Settled(rows, start, b)));
  }

  lemma {:induction false} NamedTotal(z: Zone, names: seq<string>, period: string, rows: seq<Row>, now: Instant)
    requires forall n :: n in names ==> Trim(n) == n != ""
    requires forall i, j :: 0 <= i < j < |names| ==> !EqualFold(names[i], names[j])
    requires forall r, n :: r in rows && n in names && IdText(r.providerId) == n ==> EqualFold(r.provider, n)
    ensures ProviderTotal(z, names, period, rows, now)
         == CostUsd(rows, PeriodStart(z, period, now), u => NamedBy(names, u))
  {
    hide CostUsd, ScopeMatches, EqualFold;
    var start := PeriodStart(z, period, now);
    if names == [] {
      NoScopeNoCost(rows, start, u => NamedBy(names, u));
    } else {
      var n := names[0];
      assert n in names;
      forall m | m in names[1..] ensures m in names && !EqualFold(n, m) {
        var j :| 0 <= j < |names[1..]| && names[1..][j] == m;
        assert names[j + 1] == m;
      }
      forall i, j | 0 <= i < j < |names[1..]| ensures !EqualFold(names[1..][i], names[1..][j]) {
        assert names[1..][i] == names[i + 1] && names[1..][j] == names[j + 1];
      }
      NamedTotal(z, names[1..], period, rows, now);
      var b := ProviderBudget(n, period);
      forall r | r in rows ensures ScopeOf(b)(r) == EqualFold(r.provider, n) {
        ProviderScope(n, period, r);
      }
      CostScopeCongruent(rows, start, ScopeOf(b), (u: Row) => EqualFold(u.provider, n));
      SplitOffName(names, rows, start);
    }
  }

  lemma NoScopeNoCost(rows: seq<Row>, start: Instant, scope: Row -> bool)
    requires forall r :: r in rows ==> !scope(r)
    ensures CostUsd(rows, start, scope) == 0.0
  {
    CostAddsOverProviders(rows, start, scope, scope, scope);
  }

  lemma SplitOffName(names: seq<string>, rows: seq<Row>, start: Instant)
    requires names != []
    requires forall m :: m in names[1..] ==> !EqualFold(names[0], m)
    ensures CostUsd(rows, start, u => NamedBy(names, u))
         == CostUsd(rows, start, (u: Row) => EqualFold(u.provider, names[0]))
            + CostUsd(rows, start, u => NamedBy(names[1..], u))
  {
    hide CostUsd;
    var a, c := (u: Row) => EqualFold(u.provider, names[0]), (u: Row) => NamedBy(names, u);
    var b := (u: Row) => NamedBy(names[1..], u);
    assert names == [names[0]] + names[1..];
    CostAddsOverProviders(rows, start, a, b, c);
  }

  /** The global figure is the sum of the providers' figures. */
  lemma GlobalIsSumOfProviders(z: Zone, names: seq<string>, period: string, rows: seq<Row>, now: Instant)
    requires NamesProviders(names, rows)
    ensures ActualUsd(z, GlobalBudget(period), rows, now) == ProviderTotal(z, names, period, rows, now)
  {
    hide CostUsd, ScopeMatches;
    NamedTotal(z, names, period, rows, now);
    forall r | r in rows ensures ScopeOf(GlobalBudget(period))(r) == NamedBy(names, r) {
      var n :| n in names && EqualFold(r.provider, n);
      ProviderScope(n, period, r);
    }
    CostScopeCongruent(rows, PeriodStart(z, period, now), ScopeOf(GlobalBudget(period)), u => NamedBy(names, u));
  }
}
