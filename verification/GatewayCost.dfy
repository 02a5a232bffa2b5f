/** What a blocking quota on cost promises: the spend in its window can be overshot by the
    calls in flight, and by no more, whatever the imports settle or restate. */
module GatewayCost {
  import opened Text
  import opened Calendar
  import opened Ledger
  import opened Governance
  import opened Gateway

  /** A blocking cost quota with a positive limit. */
  predicate IsCostQuota(q: Quota) {
    Lower(Trim(q.metric)) in {"cost_usd", "cost"} && EqualFold(q.enforcement, "block") && q.limit > 0.0
  }

  /** Spend in the quota's window, superseded estimates left out. */
  function Spent(z: Zone, q: Quota, s: State): real {
    QuotaUsage(z, Lower(Trim(q.metric)), q.period, s.tables.usage, s.now)
  }

  /** What is assumed of an event: a call costs at most c, no cost is negative, and no new
      row is dated in the future. */
  ghost predicate Affordable(s: State, e: Event, c: real) {
    match e
    case Respond(_, _, _, price) => 0.0 <= price <= c
    case Import(rows) => NonNegative(rows) && forall r :: r in rows ==> r.start <= s.now
    case Restate(_, spend) => spend >= 0.0
    case Seed(row) => row.cost >= 0.0 && row.start <= s.now
    case _ => true
  }

  ghost predicate Thrifty(z: Zone, s: State, events: seq<Event>, k: nat, c: real) {
    events == [] ||
    var before := events[..|events| - 1];
    && Thrifty(z, s, before, k, c)
    && Affordable(Run(z, s, before), events[|events| - 1], c)
    && |Run(z, s, events).inFlight| <= k
  }

  /** Cost that an event brings into the ledger other than by a gateway call. */
  function Brought(e: Event): real {
    match e
    case Import(rows) => Sum(rows, RowCost)
    case Restate(_, spend) => spend
    case Seed(row) => row.cost
    case _ => 0.0
  }

  function AllBrought(events: seq<Event>): real {
    if events == [] then 0.0 else AllBrought(events[..|events| - 1]) + Brought(events[|events| - 1])
  }

  /** Costs are not negative and rows not from the future. */
  ghost predicate Sound(s: State) {
    NonNegative(s.tables.usage) && forall r :: r in s.tables.usage ==> r.start <= s.now
  }

  ghost predicate Within(z: Zone, q: Quota, s: State, k: nat, c: real, brought: real) {
    && Sound(s) && q in s.tables.quotas && |s.inFlight| <= k && brought >= 0.0
    && Spent(z, q, s) + AtMost(|s.inFlight|, c) < q.limit + AtMost(k, c) + brought
  }

  lemma SpentIsCost(z: Zone, q: Quota, s: State)
    requires IsCostQuota(q)
    ensures Spent(z, q, s) == CostUsd(s.tables.usage, PeriodStart(z, q.period, s.now), Anything)
  {
    CostScopeCongruent(s.tables.usage, PeriodStart(z, q.period, s.now), _ => true, Anything);
  }

  predicate Anything(r: Row) { true }

  lemma MoreRows(z: Zone, q: Quota, s: State, rows: seq<Row>)
    requires IsCostQuota(q) && Sound(s) && NonNegative(rows) && forall r :: r in rows ==> r.start <= s.now
    ensures var next := s.(tables := s.tables.(usage := s.tables.usage + rows));
            Sound(next) && Spent(z, q, next) <= Spent(z, q, s) + Sum(rows, RowCost)
  {
    var next := s.(tables := s.tables.(usage := s.tables.usage + rows));
    hide IsCostQuota, Spent, CostUsd, PeriodStart, Sum;
    SpentIsCost(z, q, s);
    SpentIsCost(z, q, next);
    CostGrowsAtMost(s.tables.usage, rows, PeriodStart(z, q.period, s.now), Anything);
  }

  lemma OneRow(r: Row)
    ensures Sum([r], RowCost) == r.cost
  {
    assert [r][1..] == [];
  }

  lemma CallsKeepWithin(z: Zone, q: Quota, s: State, e: Event, k: nat, c: real, brought: real)
    requires IsCostQuota(q) && c >= 0.0 && Within(z, q, s, k, c, brought)
    requires e.Respond? || e.Fail?
    requires Affordable(s, e, c)
    ensures Within(z, q, Next(z, s, e), k, c, brought)
  {
    hide IsCostQuota, QuotaUsage, AtMost, ReportedTokens;
    if e.call < |s.inFlight| {
      var done := s.(inFlight := Without(s.inFlight, e.call));
      OneCallMore(|done.inFlight|, c);
      assert Spent(z, q, done) == Spent(z, q, s);
      if e.Respond? && e.body.Some? && ReportedTokens(e.body.value) != 0.0 {
        var row := GatewayRow(s.inFlight[e.call], e.providerId, e.body.value, e.price, s.now);
        MoreRows(z, q, done, [row]);
        OneRow(row);
      }
    }
  }

  lemma AdmitKeepsWithin(z: Zone, q: Quota, s: State, p: string, k: nat, c: real, brought: real)
    requires IsCostQuota(q) && c >= 0.0 && Within(z, q, s, k, c, brought)
    requires |Next(z, s, Admit(p)).inFlight| <= k
    ensures Within(z, q, Next(z, s, Admit(p)), k, c, brought)
  {
    if !Refused(z, s.tables, p, s.now) {
      assert !QuotaStops(z, q, s.tables.usage, s.now);
      hide QuotaUsage, Refused, AtMost;
      MoreCallsMoreTokens(|s.inFlight| + 1, k, c);
    }
  }

  lemma RestateKeepsWithin(z: Zone, q: Quota, s: State, e: Event, k: nat, c: real, brought: real)
    requires IsCostQuota(q) && e.Restate? && Affordable(s, e, c) && Within(z, q, s, k, c, brought)
    ensures Within(z, q, Next(z, s, e), k, c, brought + e.spend)
  {
    hide Spent, CostUsd, PeriodStart, AtMost, IsCostQuota, IsAuthoritative;
    var usage := s.tables.usage;
    if e.row < |usage| && IsSpendRow(usage[e.row]) {
      var r := Restated(usage[e.row], e.spend, s.now);
      var next := Next(z, s, e);
      assert usage[e.row] in usage;
      assert IsAuthoritative(r) by { RestatedIsAuthoritative(usage[e.row], e.spend, s.now); }
      CostRestatedAtMost(usage, e.row, r, PeriodStart(z, q.period, s.now), Anything);
      SpentIsCost(z, q, s);
      SpentIsCost(z, q, next);
    }
  }

  lemma RestatedIsAuthoritative(r: Row, spend: real, now: Instant)
    ensures IsAuthoritative(Restated(r, spend, now)) == IsAuthoritative(r)
  {
  }

  lemma TickKeepsWithin(z: Zone, q: Quota, s: State, to: Instant, k: nat, c: real, brought: real)
    requires Lawful(z) && IsCostQuota(q) && c >= 0.0 && Within(z, q, s, k, c, brought)
    ensures Within(z, q, Next(z, s, Tick(to)), k, c, brought)
  {
    hide Spent, CostUsd, PeriodStart, AtMost, IsCostQuota, Lawful;
    if to >= s.now {
      var next := Next(z, s, Tick(to));
      WindowMovesPast(z, q.period, s.now, to);
      SpentIsCost(z, q, s);
      SpentIsCost(z, q, next);
      if PeriodStart(z, q.period, to) > s.now {
        NothingInWindow(s.tables.usage, PeriodStart(z, q.period, to), Anything);
        MoreCallsMoreTokens(|s.inFlight|, k, c);
        PositiveLimit(q);
      }
    }
  }

  lemma PositiveLimit(q: Quota)
    requires IsCostQuota(q)
    ensures q.limit > 0.0
  {
  }

  lemma StepKeepsWithin(z: Zone, q: Quota, s: State, e: Event, k: nat, c: real, brought: real)
    requires Lawful(z) && IsCostQuota(q) && c >= 0.0 && Within(z, q, s, k, c, brought)
    requires Affordable(s, e, c) && |Next(z, s, e).inFlight| <= k
    ensures Within(z, q, Next(z, s, e), k, c, brought + Brought(e))
  {
    match e
    case Admit(p) => hide Within; AdmitKeepsWithin(z, q, s, p, k, c, brought);
    case Respond(_, _, _, _) => hide Within; CallsKeepWithin(z, q, s, e, k, c, brought);
    case Fail(_) => hide Within; CallsKeepWithin(z, q, s, e, k, c, brought);
    case Restate(_, _) => hide Within; RestateKeepsWithin(z, q, s, e, k, c, brought);
    case Tick(to) => hide Within; TickKeepsWithin(z, q, s, to, k, c, brought);
    case Import(rows) =>
      hide IsCostQuota, Spent, AtMost, Sum;
      MoreRows(z, q, s, rows);
      SumNonNegative(rows, RowCost);
    case Seed(row) =>
      hide IsCostQuota, Spent, AtMost, Sum;
      MoreRows(z, q, s, [row]);
      OneRow(row);
  }

  lemma {:induction false} RunKeepsWithin(z: Zone, q: Quota, s: State, events: seq<Event>, k: nat, c: real)
    requires Lawful(z) && IsCostQuota(q) && c >= 0.0
    requires Sound(s) && q in s.tables.quotas && s.inFlight == [] && Spent(z, q, s) < q.limit
    requires Thrifty(z, s, events, k, c)
    ensures Within(z, q, Run(z, s, events), k, c, AllBrought(events))
    decreases |events|
  {
    hide IsCostQuota, Lawful, Spent, Affordable, Next, AtMost;
    if events == [] {
      MoreCallsMoreTokens(0, k, c);
      NoCallsNoCost(c);
    } else {
      var before := events[..|events| - 1];
      hide Within;
      RunKeepsWithin(z, q, s, before, k, c);
      StepKeepsWithin(z, q, Run(z, s, before), events[|events| - 1], k, c, AllBrought(before));
    }
  }

  lemma NoCallsNoCost(c: real)
    ensures AtMost(0, c) == 0.0
  {
  }

  /** In every state of every interleaving that starts below the limit, the spend in the
      quota's window plus c for each call still in flight stays below the limit plus k times
      c, give or take the cost that imports and provisioning themselves brought in. */
  lemma CostOvershootIsBounded(z: Zone, q: Quota, s: State, events: seq<Event>, k: nat, c: real)
    requires Lawful(z) && IsCostQuota(q) && c >= 0.0
    requires Sound(s) && q in s.tables.quotas && s.inFlight == [] && Spent(z, q, s) < q.limit
    requires Thrifty(z, s, events, k, c)
    ensures Spent(z, q, Run(z, s, events)) + AtMost(|Run(z, s, events).inFlight|, c)
          < q.limit + AtMost(k, c) + AllBrought(events)
  {
    RunKeepsWithin(z, q, s, events, k, c);
  }
}
