/** The request-time verdict: deny policies, seat quotas and budgets are turned into a
    list of hard reasons (the request is blocked) and soft ones (it is only reported). */
module Governance {
  import opened Text
  import opened Ids
  import opened Calendar
  import opened Ledger

  datatype RequestContext = RequestContext(
    serviceId: Id, serviceSlug: string, serviceCategory: string,
    providerName: string, providerType: string,
    owner: string, workspace: string, tenant: Option<Id>)

  datatype Rule = Rule(effect: string, providers: seq<string>, categories: seq<string>,
                       services: seq<string>, ownerDomains: seq<string>)

  /** The rule is None when the stored JSON does not decode. */
  datatype Policy = Policy(name: string, tenant: Option<Id>, rule: Option<Rule>, status: string)

  datatype Quota = Quota(id: Id, serviceId: Option<Id>, tenant: Option<Id>, metric: string,
                         limit: real, period: string, enforcement: string)

  /** An access instance as the seat count sees it. */
  datatype Seat = Seat(serviceId: Id, active: bool, tenant: Option<Id>)

  /** The tables a verdict is computed from. */
  datatype Tables = Tables(policies: seq<Policy>, quotas: seq<Quota>, seats: seq<Seat>,
                           budgets: seq<Budget>, usage: seq<Row>)

  datatype Reason =
    | PolicyDenies(name: string)
    | QuotaReached(active: nat, limit: real, metric: string)
    | BudgetExhausted(budget: Budget, actual: real)
    | BudgetNearLimit(budget: Budget, usagePct: real)

  function PolicyTenant(p: Policy): Option<Id> { p.tenant }
  function QuotaTenant(q: Quota): Option<Id> { q.tenant }
  function SeatTenant(s: Seat): Option<Id> { s.tenant }

  // ----------------------------------------------------------- policy matching

  predicate IsDeny(r: Rule) {
    !EqualFold(Trim(r.effect), "allow")
  }

  predicate HasSelector(r: Rule) {
    exists v :: v in r.providers + r.categories + r.services + r.ownerDomains && !Blank(v)
  }

  predicate MatchAny(patterns: seq<string>, candidates: seq<string>) {
    || patterns == []
    || exists p :: p in patterns
         && (Blank(p) || exists c :: c in candidates && EqualFold(Trim(p), Trim(c)))
  }

  function LastAt(s: string): (k: int)
    ensures -1 <= k < |s|
    ensures k >= 0 ==> s[k] == '@' && '@' !in s[k + 1..]
    ensures k < 0 ==> '@' !in s
  {
    if s == "" then -1
    else if s[|s| - 1] == '@' then |s| - 1
    else LastAt(s[..|s| - 1])
  }

  /** The lowercased domain of an owner's address, empty if there is none. */
  function EmailDomain(owner: string): string {
    var at := LastAt(owner);
    if at < 0 || at == |owner| - 1 then "" else Lower(Trim(owner[at + 1..]))
  }

  predicate RuleMatches(r: Rule, rc: RequestContext) {
    && MatchAny(r.providers, [rc.providerName, rc.providerType])
    && MatchAny(r.categories, [rc.serviceCategory])
    && MatchAny(r.services, [rc.serviceSlug])
    && MatchAny(r.ownerDomains, [EmailDomain(rc.owner)])
  }

  predicate Denies(p: Policy, rc: RequestContext) {
    && p.status == "active" && p.rule.Some?
    && IsDeny(p.rule.value) && HasSelector(p.rule.value) && RuleMatches(p.rule.value, rc)
  }

  // ------------------------------------------------------------- quotas, budgets

  predicate IsSeatQuota(q: Quota) {
    Lower(Trim(q.metric)) in {"instances", "seats"}
  }

  predicate Concerns(q: Quota, serviceId: Id) {
    q.serviceId.None? || q.serviceId.value == serviceId
  }

  predicate Counts(q: Quota, s: Seat) {
    s.active && (q.serviceId.None? || q.serviceId.value == s.serviceId)
  }

  function ActiveSeats(q: Quota, seats: seq<Seat>): nat {
    if seats == [] then 0 else (if Counts(q, seats[0]) then 1 else 0) + ActiveSeats(q, seats[1..])
  }

  predicate Reached(q: Quota, seats: seq<Seat>, rc: RequestContext) {
    IsSeatQuota(q) && Concerns(q, rc.serviceId) && ActiveSeats(q, seats) as real >= q.limit
  }

  predicate BudgetApplies(b: Budget, rc: RequestContext) {
    var ref := Trim(b.scopeRef);
    var scope := Lower(Trim(b.scope));
    if scope == "" || scope == "global" then true
    else if scope == "provider" then ref == "" || EqualFold(rc.providerName, ref)
    else if scope == "owner" then EqualFold(rc.owner, ref)
    else if scope == "workspace" then ref == "" || EqualFold(rc.workspace, ref)
    else if scope == "tenant" then
      if ref == "" then rc.tenant.None? else rc.tenant.Some? && IdText(rc.tenant.value) == ref
    else false
  }

  // ------------------------------------------------------------------ the verdict

  function PolicyReasons(caller: Option<Id>, policies: seq<Policy>, rc: RequestContext): seq<Reason> {
    if policies == [] then []
    else
      var p, rest := policies[0], PolicyReasons(caller, policies[1..], rc);
      if Visible(caller, p.tenant) && Denies(p, rc) then [PolicyDenies(p.name)] + rest else rest
  }

  function QuotaReasons(caller: Option<Id>, quotas: seq<Quota>, seats: seq<Seat>, rc: RequestContext,
                        block: bool): seq<Reason> {
    if quotas == [] then []
    else
      var q, rest := quotas[0], QuotaReasons(caller, quotas[1..], seats, rc, block);
      if Visible(caller, q.tenant) && Reached(q, seats, rc) && (q.enforcement == "block") == block
      then [QuotaReached(ActiveSeats(q, seats), q.limit, Lower(Trim(q.metric)))] + rest
      else rest
  }

  function BudgetReasons(summaries: seq<Summary>, rc: RequestContext, hard: bool): seq<Reason> {
    if summaries == [] then []
    else
      var s, rest := summaries[0], BudgetReasons(summaries[1..], rc, hard);
      if !BudgetApplies(s.budget, rc) then rest
      else if hard && s.status == HardLimit then [BudgetExhausted(s.budget, s.actual)] + rest
      else if !hard && s.status == Warning then [BudgetNearLimit(s.budget, s.usagePct)] + rest
      else rest
  }

  function HardReasons(z: Zone, caller: Option<Id>, t: Tables, rc: RequestContext, now: Instant): seq<Reason> {
    PolicyReasons(caller, t.policies, rc)
    + QuotaReasons(caller, t.quotas, Own(caller, t.seats, SeatTenant), rc, true)
    + BudgetReasons(Summaries(z, caller, t.budgets, t.usage, now), rc, true)
  }

  function SoftReasons(z: Zone, caller: Option<Id>, t: Tables, rc: RequestContext, now: Instant): seq<Reason> {
    QuotaReasons(caller, t.quotas, Own(caller, t.seats, SeatTenant), rc, false)
    + BudgetReasons(Summaries(z, caller, t.budgets, t.usage, now), rc, false)
  }

  method DenyReasons(policies: seq<Policy>, rc: RequestContext) returns (hard: seq<Reason>)
    ensures hard == PolicyReasons(None, policies, rc)
  {
    hide Denies;
    hard := [];
    for i := 0 to |policies|
      invariant hard + PolicyReasons(None, policies[i..], rc) == PolicyReasons(None, policies, rc)
    {
      var p := policies[i];
      assert policies[i..][0] == p && policies[i..][1..] == policies[i + 1..];
      if Denies(p, rc) {
        hard := hard + [PolicyDenies(p.name)];
      }
    }
  }

  method EvaluatePolicies(caller: Option<Id>, policies: seq<Policy>, rc: RequestContext) returns (hard: seq<Reason>)
    ensures hard == PolicyReasons(caller, policies, rc)
  {
    hide PolicyReasons, Own;
    var own := ListOwn(caller, policies, PolicyTenant);
    OwnPolicyReasons(caller, policies, rc);
    hard := DenyReasons(own, rc);
  }

  lemma NoQuotas(seats: seq<Seat>, rc: RequestContext)
    ensures QuotaReasons(None, [], seats, rc, true) == QuotaReasons(None, [], seats, rc, false) == []
  {
  }

  lemma QuotaStep(quotas: seq<Quota>, seats: seq<Seat>, rc: RequestContext, block: bool)
    requires quotas != []
    ensures Reached(quotas[0], seats, rc) && (quotas[0].enforcement == "block") == block ==>
              QuotaReasons(None, quotas, seats, rc, block)
              == [QuotaReached(ActiveSeats(quotas[0], seats), quotas[0].limit, Lower(Trim(quotas[0].metric)))]
                 + QuotaReasons(None, quotas[1..], seats, rc, block)
    ensures !(Reached(quotas[0], seats, rc) && (quotas[0].enforcement == "block") == block) ==>
              QuotaReasons(None, quotas, seats, rc, block) == QuotaReasons(None, quotas[1..], seats, rc, block)
  {
  }

  /** The quota loop; the instance list is fetched once, when the first quota that needs
      it comes up. */
  method EvaluateQuotas(caller: Option<Id>, quotas: seq<Quota>, seats: seq<Seat>, rc: RequestContext)
    returns (hard: seq<Reason>, soft: seq<Reason>)
    ensures hard == QuotaReasons(caller, quotas, Own(caller, seats, SeatTenant), rc, true)
    ensures soft == QuotaReasons(caller, quotas, Own(caller, seats, SeatTenant), rc, false)
  {
    var own := ListOwn(caller, quotas, QuotaTenant);
    ghost var visible := Own(caller, seats, SeatTenant);
    OwnQuotaReasons(caller, quotas, visible, rc, true);
    OwnQuotaReasons(caller, quotas, visible, rc, false);
    hide Own, ActiveSeats, Lower, Trim, QuotaReasons;
    assert QuotaReasons(None, [], visible, rc, true) == QuotaReasons(None, [], visible, rc, false) == [] by {
      NoQuotas(visible, rc);
    }
    hard, soft := [], [];
    var instances: seq<Seat> := [];
    var loaded := false;
    for i := 0 to |own|
      invariant loaded ==> instances == visible
      invariant hard + QuotaReasons(None, own[i..], visible, rc, true) == QuotaReasons(None, own, visible, rc, true)
      invariant soft + QuotaReasons(None, own[i..], visible, rc, false) == QuotaReasons(None, own, visible, rc, false)
    {
      var q := own[i];
      assert own[i..][0] == q && own[i..][1..] == own[i + 1..];
      QuotaStep(own[i..], visible, rc, true);
      QuotaStep(own[i..], visible, rc, false);
      var metric := Lower(Trim(q.metric));
      if metric != "instances" && metric != "seats" {
        continue;
      }
      if q.serviceId.Some? && q.serviceId.value != rc.serviceId {
        continue;
      }
      if !loaded {
        instances := ListOwn(caller, seats, SeatTenant);
        loaded := true;
      }
      var active := CountActive(q, instances);
      if active as real < q.limit {
        continue;
      }
      var reason := QuotaReached(active, q.limit, metric);
      if q.enforcement == "block" {
        hard := hard + [reason];
      } else {
        soft := soft + [reason];
      }
    }
  }

  method CountActive(q: Quota, instances: seq<Seat>) returns (active: nat)
    ensures active == ActiveSeats(q, instances)
  {
    active := 0;
    for i := 0 to |instances|
      invariant active + ActiveSeats(q, instances[i..]) == ActiveSeats(q, instances)
    {
      var s := instances[i];
      assert instances[i..][0] == s && instances[i..][1..] == instances[i + 1..];
      if !s.active {
        continue;
      }
      if q.serviceId.Some? && s.serviceId != q.serviceId.value {
        continue;
      }
      active := active + 1;
    }
  }

  method EvaluateBudgets(summaries: seq<Summary>, rc: RequestContext) returns (hard: seq<Reason>, soft: seq<Reason>)
    ensures hard == BudgetReasons(summaries, rc, true)
    ensures soft == BudgetReasons(summaries, rc, false)
  {
    hide BudgetApplies;
    hard, soft := [], [];
    for i := 0 to |summaries|
      invariant hard + BudgetReasons(summaries[i..], rc, true) == BudgetReasons(summaries, rc, true)
      invariant soft + BudgetReasons(summaries[i..], rc, false) == BudgetReasons(summaries, rc, false)
    {
      var s := summaries[i];
      assert summaries[i..][0] == s && summaries[i..][1..] == summaries[i + 1..];
      if !BudgetApplies(s.budget, rc) {
        continue;
      }
      if s.status == HardLimit {
        hard := hard + [BudgetExhausted(s.budget, s.actual)];
      } else if s.status == Warning {
        soft := soft + [BudgetNearLimit(s.budget, s.usagePct)];
      }
    }
  }

  method EvaluateAiGovernance(z: Zone, caller: Option<Id>, t: Tables, rc: RequestContext, now: Instant)
    returns (hard: seq<Reason>, soft: seq<Reason>)
    ensures hard == HardReasons(z, caller, t, rc, now)
    ensures soft == SoftReasons(z, caller, t, rc, now)
    ensures hard != [] <==> Blocks(z, caller, t, rc, now)
  {
    hard := EvaluatePolicies(caller, t.policies, rc);
    var quotaHard, quotaSoft := EvaluateQuotas(caller, t.quotas, t.seats, rc);
    var summaries := ListAiBudgetSummaries(z, caller, t.budgets, t.usage, now);
    var budgetHard, budgetSoft := EvaluateBudgets(summaries, rc);
    hard := hard + quotaHard + budgetHard;
    soft := quotaSoft + budgetSoft;
    VerdictIsExact(z, caller, t, rc, now);
  }

  // ----------------------------------------------------- when a request is blocked

  ghost predicate DeniedByPolicy(caller: Option<Id>, policies: seq<Policy>, rc: RequestContext) {
    exists p :: p in policies && Visible(caller, p.tenant) && Denies(p, rc)
  }

  ghost predicate OutOfSeats(caller: Option<Id>, quotas: seq<Quota>, seats: seq<Seat>, rc: RequestContext) {
    exists q :: q in quotas && Visible(caller, q.tenant) && q.enforcement == "block" && Reached(q, seats, rc)
  }

  ghost predicate OverBudget(z: Zone, caller: Option<Id>, t: Tables, rc: RequestContext, now: Instant) {
    exists b :: b in t.budgets && Visible(caller, b.tenant) && BudgetApplies(b, rc)
      && Summarize(z, b, Own(caller, t.usage, RowTenant), now).status == HardLimit
  }

  /** The request is forbidden: a deny rule selects it, a block quota on seats is used
      up, or a budget that covers it has reached its hard threshold. */
  ghost predicate Blocks(z: Zone, caller: Option<Id>, t: Tables, rc: RequestContext, now: Instant) {
    || DeniedByPolicy(caller, t.policies, rc)
    || OutOfSeats(caller, t.quotas, Own(caller, t.seats, SeatTenant), rc)
    || OverBudget(z, caller, t, rc, now)
  }

  lemma {:induction false} PolicyReasonsExact(caller: Option<Id>, policies: seq<Policy>, rc: RequestContext)
    ensures PolicyReasons(caller, policies, rc) != [] <==> DeniedByPolicy(caller, policies, rc)
  {
    hide Denies;
    if policies != [] {
      PolicyReasonsExact(caller, policies[1..], rc);
      assert policies == [policies[0]] + policies[1..];
    }
  }

  lemma {:induction false} QuotaReasonsExact(caller: Option<Id>, quotas: seq<Quota>, seats: seq<Seat>,
                                             rc: RequestContext)
    ensures QuotaReasons(caller, quotas, seats, rc, true) != [] <==> OutOfSeats(caller, quotas, seats, rc)
  {
    hide Reached;
    if quotas != [] {
      QuotaReasonsExact(caller, quotas[1..], seats, rc);
      assert quotas == [quotas[0]] + quotas[1..];
    }
  }

  lemma {:induction false} BudgetReasonsExact(z: Zone, caller: Option<Id>, budgets: seq<Budget>, usage: seq<Row>,
                                              rc: RequestContext, now: Instant)
    ensures BudgetReasons(Summaries(z, caller, budgets, usage, now), rc, true) != []
       <==> exists b :: b in budgets && Visible(caller, b.tenant) && BudgetApplies(b, rc)
              && Summarize(z, b, Own(caller, usage, RowTenant), now).status == HardLimit
  {
    hide BudgetApplies, Own, ActualUsd;
    if budgets != [] {
      BudgetReasonsExact(z, caller, budgets[1..], usage, rc, now);
      assert budgets == [budgets[0]] + budgets[1..];
    }
  }

  lemma VerdictIsExact(z: Zone, caller: Option<Id>, t: Tables, rc: RequestContext, now: Instant)
    ensures HardReasons(z, caller, t, rc, now) != [] <==> Blocks(z, caller, t, rc, now)
  {
    PolicyReasonsExact(caller, t.policies, rc);
    QuotaReasonsExact(caller, t.quotas, Own(caller, t.seats, SeatTenant), rc);
    BudgetReasonsExact(z, caller, t.budgets, t.usage, rc, now);
  }

  // -------------------------------------------------------- order does not matter

  predicate SameRows<T(==)>(a: seq<T>, b: seq<T>) {
    multiset(a) == multiset(b)
  }

  lemma SameMembers<T>(a: seq<T>, b: seq<T>)
    requires SameRows(a, b)
    ensures forall x :: x in a <==> x in b
  {
    forall x ensures x in a <==> x in b {
      assert x in a <==> x in multiset(a);
      assert x in b <==> x in multiset(b);
    }
  }

  lemma {:induction false} SeatsConcat(q: Quota, a: seq<Seat>, b: seq<Seat>)
    ensures ActiveSeats(q, a + b) == ActiveSeats(q, a) + ActiveSeats(q, b)
  {
    if a == [] {
      assert a + b == b;
    } else {
      assert (a + b)[1..] == a[1..] + b;
      SeatsConcat(q, a[1..], b);
    }
  }

  lemma SeatsRemove(q: Quota, seats: seq<Seat>, k: nat)
    requires k < |seats|
    ensures ActiveSeats(q, seats)
         == ActiveSeats(q, seats[..k] + seats[k + 1..]) + (if Counts(q, seats[k]) then 1 else 0)
  {
    assert seats == seats[..k] + ([seats[k]] + seats[k + 1..]);
    SeatsConcat(q, seats[..k], [seats[k]] + seats[k + 1..]);
    SeatsConcat(q, seats[..k], seats[k + 1..]);
    assert ([seats[k]] + seats[k + 1..])[1..] == seats[k + 1..];
  }

  lemma {:induction false} SeatsPermute(q: Quota, a: seq<Seat>, b: seq<Seat>)
    requires SameRows(a, b)
    ensures ActiveSeats(q, a) == ActiveSeats(q, b)
    decreases |a|
  {
    if a == [] {
      assert |multiset(b)| == |b|;
    } else {
      assert a[0] in multiset(b);
      var k :| 0 <= k < |b| && b[k] == a[0];
      MultisetWithout(b, k);
      MultisetWithout(a, 0);
      SeatsRemove(q, a, 0);
      SeatsRemove(q, b, k);
      hide ActiveSeats;
      SeatsPermute(q, a[..0] + a[1..], b[..k] + b[k + 1..]);
    }
  }

  lemma OwnRemove<T>(caller: Option<Id>, rows: seq<T>, k: nat, tenantOf: T -> Option<Id>)
    requires k < |rows|
    ensures multiset(Own(caller, rows, tenantOf))
         == multiset(Own(caller, rows[..k] + rows[k + 1..], tenantOf))
            + (if Visible(caller, tenantOf(rows[k])) then multiset{rows[k]} else multiset{})
  {
    assert rows == rows[..k] + ([rows[k]] + rows[k + 1..]);
    OwnConcat(caller, rows[..k], [rows[k]] + rows[k + 1..], tenantOf);
    OwnConcat(caller, rows[..k], rows[k + 1..], tenantOf);
    assert ([rows[k]] + rows[k + 1..])[1..] == rows[k + 1..];
  }

  lemma {:induction false} OwnPermutes<T>(caller: Option<Id>, a: seq<T>, b: seq<T>, tenantOf: T -> Option<Id>)
    requires SameRows(a, b)
    ensures SameRows(Own(caller, a, tenantOf), Own(caller, b, tenantOf))
    decreases |a|
  {
    hide Own;
    if a == [] {
      assert |multiset(b)| == |b|;
      assert a == b;
    } else {
      assert a[0] in multiset(b);
      var k :| 0 <= k < |b| && b[k] == a[0];
      MultisetWithout(b, k);
      MultisetWithout(a, 0);
      OwnRemove(caller, a, 0, tenantOf);
      OwnRemove(caller, b, k, tenantOf);
      OwnPermutes(caller, a[..0] + a[1..], b[..k] + b[k + 1..], tenantOf);
    }
  }

  lemma {:induction false} OwnConcat<T>(caller: Option<Id>, a: seq<T>, b: seq<T>, tenantOf: T -> Option<Id>)
    ensures Own(caller, a + b, tenantOf) == Own(caller, a, tenantOf) + Own(caller, b, tenantOf)
  {
    if a == [] {
      assert a + b == b;
    } else {
      assert (a + b)[1..] == a[1..] + b;
      OwnConcat(caller, a[1..], b, tenantOf);
    }
  }

  ghost predicate SameTables(s: Tables, t: Tables) {
    && SameRows(s.policies, t.policies) && SameRows(s.quotas, t.quotas) && SameRows(s.seats, t.seats)
    && SameRows(s.budgets, t.budgets) && SameRows(s.usage, t.usage)
  }

  lemma PoliciesIgnoreOrder(caller: Option<Id>, a: seq<Policy>, b: seq<Policy>, rc: RequestContext)
    requires SameRows(a, b)
    ensures DeniedByPolicy(caller, a, rc) <==> DeniedByPolicy(caller, b, rc)
  {
    hide Denies;
    SameMembers(a, b);
  }

  lemma SeatCheckIgnoresOrder(caller: Option<Id>, s: Tables, t: Tables, rc: RequestContext)
    requires SameTables(s, t)
    ensures OutOfSeats(caller, s.quotas, Own(caller, s.seats, SeatTenant), rc)
       <==> OutOfSeats(caller, t.quotas, Own(caller, t.seats, SeatTenant), rc)
  {
    hide Own, ActiveSeats, IsSeatQuota;
    var a, b := Own(caller, s.seats, SeatTenant), Own(caller, t.seats, SeatTenant);
    SameMembers(s.quotas, t.quotas);
    OwnPermutes(caller, s.seats, t.seats, SeatTenant);
    forall q: Quota ensures ActiveSeats(q, a) == ActiveSeats(q, b) {
      SeatsPermute(q, a, b);
    }
    assert forall q: Quota :: Reached(q, a, rc) <==> Reached(q, b, rc);
  }

  lemma BudgetCheckIgnoresOrder(z: Zone, caller: Option<Id>, s: Tables, t: Tables, rc: RequestContext, now: Instant)
    requires SameTables(s, t)
    ensures OverBudget(z, caller, s, rc, now) <==> OverBudget(z, caller, t, rc, now)
  {
    hide Own, CostUsd, BudgetApplies, ScopeMatches, PeriodStart;
    var a, b := Own(caller, s.usage, RowTenant), Own(caller, t.usage, RowTenant);
    SameMembers(s.budgets, t.budgets);
    OwnPermutes(caller, s.usage, t.usage, RowTenant);
    forall x: Budget ensures Summarize(z, x, a, now) == Summarize(z, x, b, now) {
      CostPermutes(a, b, PeriodStart(z, x.period, now), ScopeOf(x));
    }
  }

  /** The verdict does not depend on the order in which any table is listed. */
  lemma VerdictIgnoresOrder(z: Zone, caller: Option<Id>, s: Tables, t: Tables, rc: RequestContext, now: Instant)
    requires SameTables(s, t)
    ensures Blocks(z, caller, s, rc, now) <==> Blocks(z, caller, t, rc, now)
  {
    PoliciesIgnoreOrder(caller, s.policies, t.policies, rc);
    SeatCheckIgnoresOrder(caller, s, t, rc);
    BudgetCheckIgnoresOrder(z, caller, s, t, rc, now);
    hide DeniedByPolicy, OutOfSeats, OverBudget, Own;
  }

  // ------------------------------------------------------------- tenant locality

  lemma {:induction false} OwnPolicyReasons(caller: Option<Id>, policies: seq<Policy>, rc: RequestContext)
    ensures PolicyReasons(caller, policies, rc) == PolicyReasons(None, Own(caller, policies, PolicyTenant), rc)
  {
    hide Denies;
    if policies != [] {
      OwnPolicyReasons(caller, policies[1..], rc);
    }
  }

  lemma {:induction false} OwnQuotaReasons(caller: Option<Id>, quotas: seq<Quota>, seats: seq<Seat>,
                                           rc: RequestContext, block: bool)
    ensures QuotaReasons(caller, quotas, seats, rc, block)
         == QuotaReasons(None, Own(caller, quotas, QuotaTenant), seats, rc, block)
  {
    hide Reached;
    if quotas != [] {
      OwnQuotaReasons(caller, quotas[1..], seats, rc, block);
    }
  }

  function BudgetTenant(b: Budget): Option<Id> { b.tenant }

  lemma {:induction false} OwnSummaries(z: Zone, caller: Option<Id>, budgets: seq<Budget>, usage: seq<Row>,
                                        now: Instant)
    ensures Summaries(z, caller, budgets, usage, now)
         == Summaries(z, None, Own(caller, budgets, BudgetTenant), Own(caller, usage, RowTenant), now)
  {
    hide Summarize;
    UnscopedSeesAll(Own(caller, usage, RowTenant), RowTenant);
    if budgets != [] {
      OwnSummaries(z, caller, budgets[1..], usage, now);
    }
  }

  /** Two databases hold the same rows of one tenant. */
  ghost predicate AgreeOn(tenant: Id, s: Tables, t: Tables) {
    var caller := Some(tenant);
    && Own(caller, s.policies, PolicyTenant) == Own(caller, t.policies, PolicyTenant)
    && Own(caller, s.quotas, QuotaTenant) == Own(caller, t.quotas, QuotaTenant)
    && Own(caller, s.seats, SeatTenant) == Own(caller, t.seats, SeatTenant)
    && Own(caller, s.budgets, BudgetTenant) == Own(caller, t.budgets, BudgetTenant)
    && Own(caller, s.usage, RowTenant) == Own(caller, t.usage, RowTenant)
  }

  /** What other tenants store makes no difference to a tenant's verdicts, to the reasons
      given or to its budget figures. */
  lemma TenantsDoNotInterfere(z: Zone, tenant: Id, s: Tables, t: Tables, rc: RequestContext, now: Instant)
    requires AgreeOn(tenant, s, t)
    ensures HardReasons(z, Some(tenant), s, rc, now) == HardReasons(z, Some(tenant), t, rc, now)
    ensures SoftReasons(z, Some(tenant), s, rc, now) == SoftReasons(z, Some(tenant), t, rc, now)
    ensures Summaries(z, Some(tenant), s.budgets, s.usage, now) == Summaries(z, Some(tenant), t.budgets, t.usage, now)
  {
    var caller := Some(tenant);
    hide PolicyReasons, QuotaReasons, BudgetReasons, Summaries, Own;
    OwnPolicyReasons(caller, s.policies, rc);
    OwnPolicyReasons(caller, t.policies, rc);
    var seats := Own(caller, s.seats, SeatTenant);
    OwnQuotaReasons(caller, s.quotas, seats, rc, true);
    OwnQuotaReasons(caller, t.quotas, seats, rc, true);
    OwnQuotaReasons(caller, s.quotas, seats, rc, false);
    OwnQuotaReasons(caller, t.quotas, seats, rc, false);
    OwnSummaries(z, caller, s.budgets, s.usage, now);
    OwnSummaries(z, caller, t.budgets, t.usage, now);
  }
}
