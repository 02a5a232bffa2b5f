/** Which spend counts towards which budget, when a budget is exhausted, and that the request
    gate and the ledger mean the same people and places. */
module Scopes {
  import opened Text
  import opened Ids
  import opened Calendar
  import opened Ledger
  import opened Governance

  predicate HasScope(b: Budget, scope: string) {
    Lower(Trim(b.scope)) == scope
  }

  /** The row names nobody and no place in its raw fields. */
  predicate NoRawAttribution(u: Row) {
    RawField(u.raw, "owner") == "" && RawField(u.raw, "workspace") == "" && RawField(u.raw, "workspace_id") == ""
  }

  lemma NotEmptyFold(a: string)
    requires a != ""
    ensures !EqualFold("", a)
  {
    assert |Lower("")| == 0 && |Lower(a)| > 0;
  }

  /** Spend of an instance counts towards an owner's budget exactly if it is that owner's,
      wherever it arises; towards a workspace's if it arises there, whoever's it is; towards a
      tenant's if it is the tenant's. */
  lemma InstanceSpendCounts(b: Budget, u: Row, o: string, w: string, t: Option<Id>)
    requires u.owner == Some(o) && u.workspace == Some(w) && u.tenant == t && NoRawAttribution(u) && !Blank(b.scopeRef)
    ensures HasScope(b, "owner") ==> (ScopeMatches(b, u) <==> Lower(o) == Lower(Trim(b.scopeRef)))
    ensures HasScope(b, "workspace") ==> (ScopeMatches(b, u) <==> Lower(w) == Lower(Trim(b.scopeRef)))
    ensures HasScope(b, "tenant") ==> (ScopeMatches(b, u) <==> t.Some? && Decimal(t.value) == Trim(b.scopeRef))
  {
    NotEmptyFold(Trim(b.scopeRef));
  }

  /** So the spend a budget sees is the spend of exactly the requests it can block: a request
      by o in w for t is covered by an owner, workspace or tenant budget if and only if the
      spend of its instance counts towards it. */
  lemma SpendMeetsGate(b: Budget, u: Row, rc: RequestContext)
    requires u.owner == Some(rc.owner) && u.workspace == Some(rc.workspace) && u.tenant == rc.tenant
    requires NoRawAttribution(u) && !Blank(b.scopeRef)
    requires HasScope(b, "owner") || HasScope(b, "workspace") || HasScope(b, "tenant")
    ensures ScopeMatches(b, u) <==> BudgetApplies(b, rc)
  {
    InstanceSpendCounts(b, u, rc.owner, rc.workspace, rc.tenant);
  }

  /** Imported spend, which has no instance, counts by the names in its raw fields. */
  lemma ImportedSpendCounts(b: Budget, u: Row)
    requires u.owner.None? && u.workspace.None? && u.tenant.None?
    ensures HasScope(b, "owner") ==>
              (ScopeMatches(b, u) <==> Lower(RawField(u.raw, "owner")) == Lower(Trim(b.scopeRef)))
    ensures HasScope(b, "workspace") ==>
              (ScopeMatches(b, u) <==> Lower(RawField(u.raw, "workspace")) == Lower(Trim(b.scopeRef))
                                       || Lower(RawField(u.raw, "workspace_id")) == Lower(Trim(b.scopeRef)))
    ensures HasScope(b, "tenant") ==> (ScopeMatches(b, u) <==> Trim(b.scopeRef) == "")
  {
  }

  /** The requests a budget covers, by scope. */
  lemma RequestsCovered(b: Budget, rc: RequestContext)
    ensures HasScope(b, "") || HasScope(b, "global") ==> BudgetApplies(b, rc)
    ensures HasScope(b, "provider") ==>
              (BudgetApplies(b, rc) <==> Trim(b.scopeRef) == "" || Lower(rc.providerName) == Lower(Trim(b.scopeRef)))
    ensures HasScope(b, "owner") ==> (BudgetApplies(b, rc) <==> Lower(rc.owner) == Lower(Trim(b.scopeRef)))
    ensures HasScope(b, "workspace") ==>
              (BudgetApplies(b, rc) <==> Trim(b.scopeRef) == "" || Lower(rc.workspace) == Lower(Trim(b.scopeRef)))
    ensures HasScope(b, "tenant") && rc.tenant.Some? ==>
              (BudgetApplies(b, rc) <==> Decimal(rc.tenant.value) == Trim(b.scopeRef))
    ensures HasScope(b, "tenant") && rc.tenant.None? ==> (BudgetApplies(b, rc) <==> Trim(b.scopeRef) == "")
    ensures BudgetApplies(b, rc) ==> Lower(Trim(b.scope)) in {"", "global", "provider", "owner", "workspace", "tenant"}
  {
    if rc.tenant.Some? {
      hide Trim, EqualFold, Lower;
      assert Decimal(rc.tenant.value) != "";
    }
  }

  // ------------------------------------------------------------------------- figures

  /** A row with other attributes but the same provider, time, source and cost. */
  predicate SameSpend(a: Row, b: Row) {
    a.provider == b.provider && a.start == b.start && a.raw == b.raw && a.cost == b.cost
  }

  /** Replacing a row by one with the same spend changes no figure whose scope does not tell
      them apart. */
  lemma FigureIgnores(rows: seq<Row>, k: nat, r: Row, start: Instant, inScope: Row -> bool)
    requires k < |rows| && SameSpend(rows[k], r) && inScope(rows[k]) == inScope(r)
    ensures CostUsd(rows[k := r], start, inScope) == CostUsd(rows, start, inScope)
  {
    var next := rows[k := r];
    SettlesAsMuch(rows, k, r, start, inScope);
    assert next[k := rows[k]] == rows;
    SettlesAsMuch(next, k, rows[k], start, inScope);
    var f := q => Contribution(q, start, inScope, Settled(rows, start, inScope));
    assert f(rows[k]) == f(r);
    SumReplace(rows, k, r, f);
    SumCongruent(next, f, q => Contribution(q, start, inScope, Settled(next, start, inScope)));
  }

  lemma SettlesAsMuch(rows: seq<Row>, k: nat, r: Row, start: Instant, inScope: Row -> bool)
    requires k < |rows| && SameSpend(rows[k], r) && inScope(rows[k]) == inScope(r)
    ensures Settled(rows, start, inScope) <= Settled(rows[k := r], start, inScope)
  {
    var next := rows[k := r];
    forall n | n in Settled(rows, start, inScope) ensures n in Settled(next, start, inScope) {
      var q :| q in rows && InWindow(q, start, inScope) && IsAuthoritative(q) && Lower(q.provider) == n;
      var i :| 0 <= i < |rows| && rows[i] == q;
      assert next[i] in next && InWindow(next[i], start, inScope) && IsAuthoritative(next[i]);
    }
  }

  /** Moving spend to another workspace or tenant changes no owner budget, moving it to
      another owner or tenant no workspace budget, to another owner or workspace no tenant
      budget. */
  lemma BudgetsIgnoreOthers(z: Zone, b: Budget, usage: seq<Row>, k: nat, o: Option<string>, w: Option<string>,
                            t: Option<Id>, now: Instant)
    requires k < |usage|
    ensures HasScope(b, "owner") ==>
              ActualUsd(z, b, usage[k := usage[k].(workspace := w, tenant := t)], now) == ActualUsd(z, b, usage, now)
    ensures HasScope(b, "workspace") ==>
              ActualUsd(z, b, usage[k := usage[k].(owner := o, tenant := t)], now) == ActualUsd(z, b, usage, now)
    ensures HasScope(b, "tenant") ==>
              ActualUsd(z, b, usage[k := usage[k].(owner := o, workspace := w)], now) == ActualUsd(z, b, usage, now)
  {
    hide CostUsd, PeriodStart, Trim, EqualFold;
    var u, start := usage[k], PeriodStart(z, b.period, now);
    if HasScope(b, "owner") {
      FigureIgnores(usage, k, u.(workspace := w, tenant := t), start, ScopeOf(b));
    }
    if HasScope(b, "workspace") {
      FigureIgnores(usage, k, u.(owner := o, tenant := t), start, ScopeOf(b));
    }
    if HasScope(b, "tenant") {
      FigureIgnores(usage, k, u.(owner := o, workspace := w), start, ScopeOf(b));
    }
  }

  /** A scope the ledger does not know costs nothing and covers nothing. */
  lemma UnknownScopeCostsNothing(z: Zone, b: Budget, usage: seq<Row>, rc: RequestContext, now: Instant)
    requires Lower(Trim(b.scope)) !in {"", "global", "provider", "owner", "workspace", "tenant"}
    ensures ActualUsd(z, b, usage, now) == 0.0 && !BudgetApplies(b, rc)
  {
    hide CostUsd, Trim;
    NoScopeNoCost(usage, PeriodStart(z, b.period, now), ScopeOf(b));
  }

  /** What a summary says: the remainder, and the status by the thresholds as percentages of
      the limit, the hard one first. Without a positive limit the percentage is zero. */
  lemma SummaryExact(z: Zone, b: Budget, usage: seq<Row>, now: Instant)
    ensures var s := Summarize(z, b, usage, now);
            && s.budget == b && s.actual == ActualUsd(z, b, usage, now) && s.remaining + s.actual == b.limit
            && (b.limit > 0.0 ==>
                 && s.usagePct * b.limit == s.actual * 100.0
                 && (s.status == HardLimit <==> s.actual * 100.0 >= b.hardPct as real * b.limit)
                 && (s.status == Warning <==>
                       b.softPct as real * b.limit <= s.actual * 100.0 < b.hardPct as real * b.limit))
            && (b.limit <= 0.0 ==>
                 && s.usagePct == 0.0
                 && (s.status == HardLimit <==> b.hardPct <= 0)
                 && (s.status == Warning <==> b.softPct <= 0 < b.hardPct))
  {
    hide ActualUsd;
    var actual := ActualUsd(z, b, usage, now);
    if b.limit > 0.0 {
      Percentage(actual, b.limit, b.hardPct as real);
      Percentage(actual, b.limit, b.softPct as real);
    }
  }

  lemma Percentage(a: real, limit: real, p: real)
    requires limit > 0.0
    ensures a / limit * 100.0 * limit == a * 100.0
    ensures a / limit * 100.0 >= p <==> a * 100.0 >= p * limit
  {
    var pct := a / limit * 100.0;
    assert a / limit * limit == a;
    assert pct * limit == a * 100.0;
    OrderTimes(p, pct, limit);
  }

  lemma OrderTimes(a: real, b: real, c: real)
    requires c > 0.0
    ensures a <= b <==> a * c <= b * c
  {
    if a > b {
      Positive(a - b, c);
    } else if a < b {
      Positive(b - a, c);
    }
  }

  lemma Positive(a: real, c: real)
    requires a > 0.0 && c > 0.0
    ensures a * c > 0.0
  {
  }

  /** The window a period stands for, whatever case and space it is written in. */
  lemma PeriodsByName(z: Zone, period: string, now: Instant)
    ensures Lower(Trim(period)) == "daily" ==> PeriodStart(z, period, now) == z.dayStart(now)
    ensures Lower(Trim(period)) in {"yearly", "annual"} ==> PeriodStart(z, period, now) == z.yearStart(now)
    ensures Lower(Trim(period)) !in {"daily", "yearly", "annual"} ==> PeriodStart(z, period, now) == z.monthStart(now)
  {
  }

  // ------------------------------------------------------------------------- selectors

  /** The domain of an owner is what stands behind the last @, trimmed and in lower case, and
      nothing if there is no @ or nothing behind it. */
  lemma OwnerDomain(local: string, domain: string)
    requires '@' !in domain
    ensures EmailDomain(local + "@" + domain) == Lower(Trim(domain))
    ensures EmailDomain(domain) == ""
  {
    var owner := local + "@" + domain;
    assert owner[|local|] == '@' && owner[|local| + 1..] == domain;
    LastAtIs(owner, |local|);
    assert LastAt(domain) < 0;
    assert Trim("") == "" && Lower("") == "";
  }

  lemma LastAtIs(s: string, k: nat)
    requires k < |s| && s[k] == '@' && '@' !in s[k + 1..]
    ensures LastAt(s) == k
  {
    var at := LastAt(s);
    assert s[k] in s;
    assert forall i :: k < i < |s| ==> s[i] == s[k + 1..][i - k - 1];
    assert forall i :: at < i < |s| ==> s[i] == s[at + 1..][i - at - 1];
  }

  /** The list is empty, or one of its items is blank or names a or b, case and outer space
      aside. */
  ghost predicate Selects(list: seq<string>, a: string, b: string) {
    list == [] || exists s :: s in list && (Blank(s) || Lower(Trim(s)) in {Lower(Trim(a)), Lower(Trim(b))})
  }

  lemma NamesOneOf(s: string, candidates: seq<string>, a: string, b: string)
    requires candidates == [a, b] || (candidates == [a] && a == b)
    ensures (exists c :: c in candidates && EqualFold(Trim(s), Trim(c)))
       <==> Lower(Trim(s)) in {Lower(Trim(a)), Lower(Trim(b))}
  {
    hide Trim, Lower;
    assert a in candidates && b in candidates;
  }

  lemma MatchSelects(list: seq<string>, candidates: seq<string>, a: string, b: string)
    requires candidates == [a, b] || (candidates == [a] && a == b)
    ensures MatchAny(list, candidates) <==> Selects(list, a, b)
  {
    forall s | s in list
      ensures (exists c :: c in candidates && EqualFold(Trim(s), Trim(c)))
         <==> Lower(Trim(s)) in {Lower(Trim(a)), Lower(Trim(b))}
    {
      NamesOneOf(s, candidates, a, b);
    }
    hide Trim, Lower, Blank, EqualFold;
  }

  ghost predicate HasSelector(r: Rule) {
    exists s ::
      (s in r.providers || s in r.categories || s in r.services || s in r.ownerDomains) && !Blank(s)
  }

  /** A policy denies a request exactly if it is active, its rule does not allow and has a
      selector that is not blank, and every kind of selector it uses names the request. */
  lemma DeniesExactly(p: Policy, rc: RequestContext)
    ensures Denies(p, rc) <==>
              && p.status == "active" && p.rule.Some?
              && var r := p.rule.value;
                 && Lower(Trim(r.effect)) != "allow"
                 && HasSelector(r)
                 && Selects(r.providers, rc.providerName, rc.providerType)
                 && Selects(r.categories, rc.serviceCategory, rc.serviceCategory)
                 && Selects(r.services, rc.serviceSlug, rc.serviceSlug)
                 && Selects(r.ownerDomains, EmailDomain(rc.owner), EmailDomain(rc.owner))
  {
    assert Lower("allow") == "allow";
    if p.rule.Some? {
      var r := p.rule.value;
      MatchSelects(r.providers, [rc.providerName, rc.providerType], rc.providerName, rc.providerType);
      MatchSelects(r.categories, [rc.serviceCategory], rc.serviceCategory, rc.serviceCategory);
      MatchSelects(r.services, [rc.serviceSlug], rc.serviceSlug, rc.serviceSlug);
      MatchSelects(r.ownerDomains, [EmailDomain(rc.owner)], EmailDomain(rc.owner), EmailDomain(rc.owner));
      hide MatchAny, Selects, EmailDomain, Trim, Lower;
      assert forall s :: s in r.providers + r.categories + r.services + r.ownerDomains <==>
        s in r.providers || s in r.categories || s in r.services || s in r.ownerDomains;
    }
  }

  lemma {:induction false} TrimmedEnds(s: string)
    ensures TrimLeft(s) != "" ==> !IsSpace(TrimLeft(s)[0])
    ensures TrimRight(s) != "" ==> !IsSpace(TrimRight(s)[|TrimRight(s)| - 1])
    ensures TrimRight(s) <= s
    decreases |s|
  {
    if s != [] {
      TrimmedEnds(s[1..]);
      TrimmedEnds(s[..|s| - 1]);
    }
  }

  /** Trimming and folding once is enough. */
  lemma FoldOnce(s: string)
    ensures Trim(Lower(Trim(s))) == Lower(Trim(s)) && Lower(Lower(Trim(s))) == Lower(Trim(s))
  {
    TrimmedEnds(s);
    TrimmedEnds(TrimLeft(s));
    var t := Trim(s);
    assert t != "" ==> t[0] == TrimLeft(s)[0];
    assert forall i :: 0 <= i < |t| ==> IsSpace(Lower(t)[i]) == IsSpace(t[i]);
    assert Lower(Lower(t)) == Lower(t);
  }

  /** An active rule that denies by owner domain alone blocks the owners of that domain and
      nobody else. */
  lemma DomainRuleBlocks(name: string, domain: string, rc: RequestContext, local: string, at: string)
    requires !Blank(domain) && rc.owner == local + "@" + at && '@' !in at
    ensures Denies(Policy(name, None, Some(Rule("deny", [], [], [], [domain])), "active"), rc)
       <==> Lower(Trim(at)) == Lower(Trim(domain))
  {
    var rule := Rule("deny", [], [], [], [domain]);
    assert Trim("deny") == "deny" && |Lower("deny")| != |"allow"|;
    DeniesExactly(Policy(name, None, Some(rule), "active"), rc);
    OwnerDomain(local, at);
    FoldOnce(at);
    hide Denies, Trim, Lower, EmailDomain;
    assert domain in [domain];
  }

  // ----------------------------------------------------------------------------- seats

  predicate Held(q: Quota, s: Seat) {
    s.active && (q.serviceId == None || q.serviceId == Some(s.serviceId))
  }

  /** The seats a quota is held against are the active ones, of its service if it has one. */
  lemma {:induction false} SeatsCounted(q: Quota, seats: seq<Seat>)
    ensures ActiveSeats(q, seats) == |set k | 0 <= k < |seats| && Held(q, seats[k])|
  {
    var counted := set k | 0 <= k < |seats| && Held(q, seats[k]);
    if seats == [] {
      assert counted == {};
    } else {
      var n := |seats| - 1;
      var front := seats[..n];
      assert seats == front + [seats[n]];
      SeatsCounted(q, front);
      SeatsConcat(q, front, [seats[n]]);
      OneSeat(q, seats[n]);
      hide ActiveSeats, Held, Counts;
      OneMoreHeld(q, front, seats[n]);
    }
  }

  lemma OneMoreHeld(q: Quota, front: seq<Seat>, s: Seat)
    ensures |set k | 0 <= k < |front + [s]| && Held(q, (front + [s])[k])|
         == |set k | 0 <= k < |front| && Held(q, front[k])| + if Held(q, s) then 1 else 0
  {
    hide Held;
    var before := set k | 0 <= k < |front| && Held(q, front[k]);
    assert (set k | 0 <= k < |front + [s]| && Held(q, (front + [s])[k]))
        == before + if Held(q, s) then {|front|} else {};
  }

  lemma OneSeat(q: Quota, s: Seat)
    ensures ActiveSeats(q, [s]) == if Held(q, s) then 1 else 0
  {
    assert [s][1..] == [];
  }

  // ----------------------------------------------------------------- the reasons given

  function SeatsHeld(q: Quota, seats: seq<Seat>): nat {
    |set k | 0 <= k < |seats| && Held(q, seats[k])|
  }

  /** A quota on seats that concerns the request's service and is used up. */
  ghost predicate UsedUp(q: Quota, seats: seq<Seat>, rc: RequestContext) {
    && (Lower(Trim(q.metric)) == "instances" || Lower(Trim(q.metric)) == "seats")
    && (q.serviceId == None || q.serviceId == Some(rc.serviceId))
    && SeatsHeld(q, seats) as real >= q.limit
  }

  ghost predicate NamesPolicy(r: Reason, caller: Option<Id>, policies: seq<Policy>, rc: RequestContext) {
    exists p :: p in policies && Visible(caller, p.tenant) && Denies(p, rc) && r == PolicyDenies(p.name)
  }

  ghost predicate NamesQuota(r: Reason, caller: Option<Id>, quotas: seq<Quota>, seats: seq<Seat>, rc: RequestContext,
                             block: bool) {
    exists q ::
      && q in quotas && Visible(caller, q.tenant) && UsedUp(q, seats, rc) && ((q.enforcement == "block") == block)
      && r == QuotaReached(SeatsHeld(q, seats), q.limit, Lower(Trim(q.metric)))
  }

  ghost predicate NamesBudget(r: Reason, z: Zone, caller: Option<Id>, budgets: seq<Budget>, usage: seq<Row>,
                              rc: RequestContext, now: Instant, status: BudgetStatus) {
    exists b ::
      && b in budgets && Visible(caller, b.tenant) && BudgetApplies(b, rc)
      && var s := Summarize(z, b, Own(caller, usage, RowTenant), now);
         && s.status == status
         && r == if status == HardLimit then BudgetExhausted(b, s.actual) else BudgetNearLimit(b, s.usagePct)
  }

  lemma {:induction false} PolicyListed(r: Reason, caller: Option<Id>, policies: seq<Policy>, rc: RequestContext)
    ensures r in PolicyReasons(caller, policies, rc) <==> NamesPolicy(r, caller, policies, rc)
  {
    hide Denies, Visible;
    if policies != [] {
      PolicyListed(r, caller, policies[1..], rc);
      assert policies == [policies[0]] + policies[1..];
    }
  }

  lemma {:induction false} QuotaListed(r: Reason, caller: Option<Id>, quotas: seq<Quota>, seats: seq<Seat>,
                                       rc: RequestContext, block: bool)
    ensures r in QuotaReasons(caller, quotas, seats, rc, block) <==> NamesQuota(r, caller, quotas, seats, rc, block)
  {
    if quotas != [] {
      SeatsCounted(quotas[0], seats);
      assert Reached(quotas[0], seats, rc) <==> UsedUp(quotas[0], seats, rc);
      hide Reached, UsedUp, Visible, SeatsHeld, ActiveSeats, Lower, Trim;
      QuotaListed(r, caller, quotas[1..], seats, rc, block);
      assert quotas == [quotas[0]] + quotas[1..];
    }
  }

  lemma {:induction false} BudgetListed(r: Reason, z: Zone, caller: Option<Id>, budgets: seq<Budget>, usage: seq<Row>,
                                        rc: RequestContext, now: Instant, hard: bool)
    ensures r in BudgetReasons(Summaries(z, caller, budgets, usage, now), rc, hard)
       <==> NamesBudget(r, z, caller, budgets, usage, rc, now, if hard then HardLimit else Warning)
  {
    if budgets != [] {
      BudgetListed(r, z, caller, budgets[1..], usage, rc, now, hard);
      SummaryExact(z, budgets[0], Own(caller, usage, RowTenant), now);
      hide Summarize, BudgetApplies, Visible, Own;
      assert budgets == [budgets[0]] + budgets[1..];
    }
  }

  /** What a verdict lists. It blocks for each active deny rule that selects the request, each
      used-up block quota on seats and each exhausted budget that covers the request; it warns
      for each other used-up quota and each such budget that is near its limit. */
  lemma ReasonsExact(z: Zone, caller: Option<Id>, t: Tables, rc: RequestContext, now: Instant, r: Reason)
    ensures var seats := Own(caller, t.seats, SeatTenant);
            && (r in HardReasons(z, caller, t, rc, now) <==>
                  || NamesPolicy(r, caller, t.policies, rc)
                  || NamesQuota(r, caller, t.quotas, seats, rc, true)
                  || NamesBudget(r, z, caller, t.budgets, t.usage, rc, now, HardLimit))
            && (r in SoftReasons(z, caller, t, rc, now) <==>
                  || NamesQuota(r, caller, t.quotas, seats, rc, false)
                  || NamesBudget(r, z, caller, t.budgets, t.usage, rc, now, Warning))
  {
    var seats := Own(caller, t.seats, SeatTenant);
    PolicyListed(r, caller, t.policies, rc);
    QuotaListed(r, caller, t.quotas, seats, rc, true);
    QuotaListed(r, caller, t.quotas, seats, rc, false);
    BudgetListed(r, z, caller, t.budgets, t.usage, rc, now, true);
    BudgetListed(r, z, caller, t.budgets, t.usage, rc, now, false);
    hide NamesPolicy, NamesQuota, NamesBudget, PolicyReasons, QuotaReasons, BudgetReasons, Own, Summaries;
  }
}
