/** The AI gateway: a call is admitted against the ledger, goes upstream, and is recorded
    when its response arrives. Calls in flight are not in the ledger, so a limit can be
    overshot; this module bounds by how much. */
module Gateway {
  import opened Text
  import opened Ids
  import opened Calendar
  import opened Ledger
  import opened Governance

  // ------------------------------------------------------------------ usage and gate

  function TokensOf(r: Row, start: Instant, metric: string): real {
    if r.start >= start && EqualFold(Trim(r.metric), metric) then r.quantity else 0.0
  }

  predicate IsCostMetric(metric: string) {
    metric == "cost_usd" || metric == "cost"
  }

  /** Usage counted against a quota in its current window. */
  function QuotaUsage(z: Zone, metric: string, period: string, usage: seq<Row>, now: Instant): real {
    var start := PeriodStart(z, period, now);
    if IsCostMetric(metric) then CostUsd(usage, start, _ => true)
    else Sum(usage, r => TokensOf(r, start, metric))
  }

  method AiQuotaUsage(z: Zone, metric: string, period: string, usage: seq<Row>, now: Instant) returns (total: real)
    ensures total == QuotaUsage(z, metric, period, usage, now)
  {
    var start := PeriodStart(z, period, now);
    if metric == "cost_usd" || metric == "cost" {
      total := AiCostUsd(usage, start, _ => true);
      CostScopeCongruent(usage, start, _ => true, _ => true);
      return;
    }
    total := 0.0;
    ghost var f := (r: Row) => TokensOf(r, start, metric);
    for i := 0 to |usage|
      invariant total + Sum(usage[i..], f) == Sum(usage, f)
    {
      var u := usage[i];
      assert usage[i..][0] == u && usage[i..][1..] == usage[i + 1..];
      if u.start < start {
        continue;
      }
      if EqualFold(Trim(u.metric), metric) {
        total := total + u.quantity;
      }
    }
    SumCongruent(usage, f, r => TokensOf(r, start, metric));
  }

  /** Budgets the gateway looks at: global and provider ones. */
  predicate IsGatewayBudget(b: Budget) {
    Lower(Trim(b.scope)) in {"", "global", "provider"}
  }

  predicate BudgetStops(s: Summary, rc: RequestContext) {
    IsGatewayBudget(s.budget) && s.status == HardLimit && BudgetApplies(s.budget, rc)
  }

  predicate IsGatewayQuota(q: Quota) {
    Lower(Trim(q.metric)) in {"tokens", "cost_usd", "cost"} && EqualFold(q.enforcement, "block")
  }

  predicate QuotaStops(z: Zone, q: Quota, usage: seq<Row>, now: Instant) {
    IsGatewayQuota(q) && QuotaUsage(z, Lower(Trim(q.metric)), q.period, usage, now) >= q.limit
  }

  function CallContext(provider: string): RequestContext {
    RequestContext(0, "", "", provider, "", "", "", None)
  }

  /** A call is refused: some budget that covers it, or some block quota, is used up. */
  predicate Refused(z: Zone, t: Tables, provider: string, now: Instant) {
    || (exists s :: s in Summaries(z, None, t.budgets, t.usage, now) && BudgetStops(s, CallContext(provider)))
    || (exists q :: q in t.quotas && QuotaStops(z, q, t.usage, now))
  }

  method EvaluateGatewayBudget(z: Zone, t: Tables, provider: string, now: Instant) returns (refused: bool)
    ensures refused <==> Refused(z, t, provider, now)
  {
    hide BudgetApplies, Summaries, QuotaUsage;
    var summaries := ListAiBudgetSummaries(z, None, t.budgets, t.usage, now);
    var rc := CallContext(provider);
    for i := 0 to |summaries|
      invariant forall k :: 0 <= k < i ==> !BudgetStops(summaries[k], rc)
    {
      var b := summaries[i];
      var scope := Lower(Trim(b.budget.scope));
      if scope != "" && scope != "global" && scope != "provider" {
        continue;
      }
      if b.status == HardLimit && BudgetApplies(b.budget, rc) {
        assert BudgetStops(b, rc);
        return true;
      }
    }
    for i := 0 to |t.quotas|
      invariant forall k :: 0 <= k < i ==> !QuotaStops(z, t.quotas[k], t.usage, now)
    {
      var q := t.quotas[i];
      var metric := Lower(Trim(q.metric));
      if metric != "tokens" && metric != "cost_usd" && metric != "cost" {
        continue;
      }
      if !EqualFold(q.enforcement, "block") {
        continue;
      }
      var used := AiQuotaUsage(z, metric, q.period, t.usage, now);
      if used >= q.limit {
        assert QuotaStops(z, q, t.usage, now);
        return true;
      }
    }
    refused := false;
  }

  // ------------------------------------------------------------------- the response

  /** The usage block of a response body; missing fields decode as zero. */
  datatype Response = Response(model: string, input: real, output: real, total: real, prompt: real, completion: real)

  function InputTokens(r: Response): real { if r.input == 0.0 then r.prompt else r.input }
  function OutputTokens(r: Response): real { if r.output == 0.0 then r.completion else r.output }

  function ReportedTokens(r: Response): real {
    if r.total == 0.0 then InputTokens(r) + OutputTokens(r) else r.total
  }

  /** The row a successful call leaves; `price` is the cost estimate of the price table. */
  function GatewayRow(provider: string, providerId: Id, r: Response, price: real, now: Instant): Row {
    Row(provider, providerId, None, None, None, None, now, now, "tokens", ReportedTokens(r), price,
        map["source" := "opord_gateway_lite", "model" := r.model, "cost_basis" := "estimated"])
  }

  // ------------------------------------------------------------------- the protocol

  /** A state of the gateway: the tables, the calls admitted and not yet answered (by
      provider), and the clock. */
  datatype State = State(tables: Tables, inFlight: seq<string>, now: Instant)

  /** Everything that can happen. Seed is the usage a provider reports when access is
      provisioned; Import is any import of new cost rows; Restate is the import that updates
      the spend row of a key in place. */
  datatype Event =
    | Admit(provider: string)
    | Respond(call: nat, providerId: Id, body: Option<Response>, price: real)
    | Fail(call: nat)
    | Import(rows: seq<Row>)
    | Restate(row: nat, spend: real)
    | Seed(seed: Row)
    | Tick(to: Instant)

  function Without(calls: seq<string>, k: nat): (r: seq<string>)
    requires k < |calls|
    ensures |r| == |calls| - 1
  {
    calls[..k] + calls[k + 1..]
  }

  /** A cost row that a spend import may update: a real figure, not an estimate. */
  predicate IsSpendRow(r: Row) {
    r.metric == "cost_usd" && IsAuthoritative(r)
  }

  function Recorded(s: State, r: Row): State {
    s.(tables := s.tables.(usage := s.tables.usage + [r]))
  }

  function Next(z: Zone, s: State, e: Event): State {
    match e
    case Admit(p) =>
      if Refused(z, s.tables, p, s.now) then s else s.(inFlight := s.inFlight + [p])
    case Respond(k, pid, body, price) =>
      if k >= |s.inFlight| then s
      else
        var done := s.(inFlight := Without(s.inFlight, k));
        if body.None? || ReportedTokens(body.value) == 0.0 then done
        else Recorded(done, GatewayRow(s.inFlight[k], pid, body.value, price, s.now))
    case Fail(k) => if k >= |s.inFlight| then s else s.(inFlight := Without(s.inFlight, k))
    case Import(rows) => s.(tables := s.tables.(usage := s.tables.usage + rows))
    case Restate(k, spend) =>
      if k >= |s.tables.usage| || !IsSpendRow(s.tables.usage[k]) then s
      else s.(tables := s.tables.(usage := s.tables.usage[k := Restated(s.tables.usage[k], spend, s.now)]))
    case Seed(row) => Recorded(s, row)
    case Tick(to) => if to < s.now then s else s.(now := to)
  }

  function Run(z: Zone, s: State, events: seq<Event>): State {
    if events == [] then s else Next(z, Run(z, s, events[..|events| - 1]), events[|events| - 1])
  }

  class GatewayService {
    const zone: Zone
    var tables: Tables
    var inFlight: seq<string>
    var now: Instant

    ghost function Abs(): State
      reads this
    {
      State(tables, inFlight, now)
    }

    constructor (z: Zone, t: Tables, clock: Instant)
      ensures zone == z && Abs() == State(t, [], clock)
    {
      zone, tables, inFlight, now := z, t, [], clock;
    }

    /** The first half of a proxied call: the gate, then upstream. */
    method AdmitCall(provider: string) returns (admitted: bool)
      modifies this
      ensures Abs() == Next(zone, old(Abs()), Admit(provider))
      ensures admitted <==> !old(Refused(zone, tables, provider, now))
    {
      hide Refused;
      var refused := EvaluateGatewayBudget(zone, tables, provider, now);
      if refused {
        return false;
      }
      inFlight := inFlight + [provider];
      admitted := true;
    }

    /** The second half of a successful call: the response's usage is recorded, unless its
        body does not decode or reports no tokens. */
    method RecordGatewayUsage(call: nat, providerId: Id, body: Option<Response>, price: real)
      requires call < |inFlight|
      modifies this
      ensures Abs() == Next(zone, old(Abs()), Respond(call, providerId, body, price))
    {
      var provider := inFlight[call];
      inFlight := Without(inFlight, call);
      if body.None? {
        return;
      }
      var input := body.value.input;
      if input == 0.0 {
        input := body.value.prompt;
      }
      var output := body.value.output;
      if output == 0.0 {
        output := body.value.completion;
      }
      var total := body.value.total;
      if total == 0.0 {
        total := input + output;
      }
      if total == 0.0 {
        return;
      }
      var raw := map["source" := "opord_gateway_lite", "model" := body.value.model, "cost_basis" := "estimated"];
      var row := Row(provider, providerId, None, None, None, None, now, now, "tokens", total, price, raw);
      tables := tables.(usage := tables.usage + [row]);
    }
  }

  // ---------------------------------------------------------------- overshoot bound

  /** A blocking token quota with a positive limit. */
  predicate IsTokenQuota(q: Quota) {
    Lower(Trim(q.metric)) == "tokens" && EqualFold(q.enforcement, "block") && q.limit > 0.0
  }

  predicate IsTokenRow(r: Row) {
    EqualFold(Trim(r.metric), "tokens")
  }

  /** Tokens recorded in the quota's window. */
  function Windowed(z: Zone, q: Quota, s: State): real {
    QuotaUsage(z, "tokens", q.period, s.tables.usage, s.now)
  }

  /** What is assumed of an event: a call uses at most m tokens, cost imports carry no
      token rows, and seeded usage is not negative and not dated in the future. */
  predicate Modest(s: State, e: Event, m: real) {
    match e
    case Respond(_, _, body, _) => body.Some? ==> ReportedTokens(body.value) <= m
    case Import(rows) => forall r :: r in rows ==> !IsTokenRow(r)
    case Seed(row) => row.start <= s.now && row.quantity >= 0.0
    case _ => true
  }

  /** A run in which every event is modest and never more than k calls are in flight. */
  ghost predicate Disciplined(z: Zone, s: State, events: seq<Event>, k: nat, m: real) {
    events == [] ||
    var before := events[..|events| - 1];
    && Disciplined(z, s, before, k, m)
    && Modest(Run(z, s, before), events[|events| - 1], m)
    && |Run(z, s, events).inFlight| <= k
  }

  /** Tokens that provisioning, not the gateway, put into the ledger during a run. */
  function Seeded(events: seq<Event>): real {
    if events == [] then 0.0
    else
      var e := events[|events| - 1];
      Seeded(events[..|events| - 1]) + (if e.Seed? && IsTokenRow(e.seed) then e.seed.quantity else 0.0)
  }

  ghost predicate Bounded(z: Zone, q: Quota, s: State, k: nat, m: real, seeded: real) {
    && (forall r :: r in s.tables.usage && IsTokenRow(r) ==> r.start <= s.now)
    && q in s.tables.quotas
    && |s.inFlight| <= k && seeded >= 0.0
    && Windowed(z, q, s) + AtMost(|s.inFlight|, m) < q.limit + AtMost(k, m) + seeded
  }

  /** The most that n calls of at most m tokens can use. */
  function AtMost(n: nat, m: real): real {
    n as real * m
  }

  lemma MoreCallsMoreTokens(a: nat, b: nat, m: real)
    requires a <= b && m >= 0.0
    ensures AtMost(a, m) <= AtMost(b, m)
  {
  }

  lemma OneCallMore(n: nat, m: real)
    ensures AtMost(n + 1, m) == AtMost(n, m) + m
  {
  }

  lemma WindowedAppends(z: Zone, q: Quota, s: State, rows: seq<Row>)
    ensures Windowed(z, q, s.(tables := s.tables.(usage := s.tables.usage + rows)))
         == Windowed(z, q, s) + QuotaUsage(z, "tokens", q.period, rows, s.now)
  {
    var start := PeriodStart(z, q.period, s.now);
    SumConcat(s.tables.usage, rows, r => TokensOf(r, start, "tokens"));
  }

  lemma {:induction false} NoTokensNoUsage(rows: seq<Row>, start: Instant)
    requires forall r :: r in rows && IsTokenRow(r) ==> r.start < start
    ensures Sum(rows, r => TokensOf(r, start, "tokens")) == 0.0
  {
    if rows != [] {
      assert rows[0] in rows;
      NoTokensNoUsage(rows[1..], start);
      var f := (r: Row) => TokensOf(r, start, "tokens");
      SumCongruent(rows[1..], f, r => TokensOf(r, start, "tokens"));
    }
  }

  lemma OneRowUsage(z: Zone, q: Quota, r: Row, now: Instant)
    ensures QuotaUsage(z, "tokens", q.period, [r], now) == TokensOf(r, PeriodStart(z, q.period, now), "tokens")
  {
    var f := (x: Row) => TokensOf(x, PeriodStart(z, q.period, now), "tokens");
    assert [r][1..] == [] && Sum([], f) == 0.0;
    assert Sum([r], f) == f(r) + Sum([], f);
    SumCongruent([r], f, x => TokensOf(x, PeriodStart(z, q.period, now), "tokens"));
  }

  /** A call is admitted only below the limit. */
  lemma AdmittedBelowLimit(z: Zone, q: Quota, s: State, p: string)
    requires IsTokenQuota(q) && q in s.tables.quotas && !Refused(z, s.tables, p, s.now)
    ensures Windowed(z, q, s) < q.limit
  {
    assert !QuotaStops(z, q, s.tables.usage, s.now);
  }

  lemma AdmitKeepsBound(z: Zone, q: Quota, s: State, p: string, k: nat, m: real, seeded: real)
    requires IsTokenQuota(q) && m >= 0.0 && Bounded(z, q, s, k, m, seeded)
    requires |Next(z, s, Admit(p)).inFlight| <= k
    ensures Bounded(z, q, Next(z, s, Admit(p)), k, m, seeded)
  {
    hide QuotaUsage, Refused, AtMost;
    if !Refused(z, s.tables, p, s.now) {
      AdmittedBelowLimit(z, q, s, p);
      MoreCallsMoreTokens(|s.inFlight| + 1, k, m);
    }
  }

  /** Taking an answered call out of flight frees a slot worth m tokens. */
  lemma {:induction false} SlotFreed(z: Zone, q: Quota, s: State, call: nat, k: nat, m: real, seeded: real)
    requires m >= 0.0 && Bounded(z, q, s, k, m, seeded) && call < |s.inFlight|
    ensures var done := s.(inFlight := Without(s.inFlight, call));
            && Bounded(z, q, done, k, m, seeded)
            && Windowed(z, q, done) + AtMost(|done.inFlight|, m) + m < q.limit + AtMost(k, m) + seeded
  {
    hide QuotaUsage, AtMost, IsTokenRow;
    OneCallMore(|s.inFlight| - 1, m);
  }

  /** Answering a call frees a slot worth m tokens and records at most m. */
  lemma RespondKeepsBound(z: Zone, q: Quota, s: State, e: Event, k: nat, m: real, seeded: real)
    requires Lawful(z) && m >= 0.0 && Bounded(z, q, s, k, m, seeded)
    requires (e.Respond? && Modest(s, e, m)) || e.Fail?
    ensures Bounded(z, q, Next(z, s, e), k, m, seeded)
  {
    hide QuotaUsage, AtMost, PeriodStart, TokensOf, IsTokenRow, ReportedTokens;
    if e.call < |s.inFlight| {
      SlotFreed(z, q, s, e.call, k, m, seeded);
      if e.Respond? && e.body.Some? && ReportedTokens(e.body.value) != 0.0 {
        var done := s.(inFlight := Without(s.inFlight, e.call));
        var row := GatewayRow(s.inFlight[e.call], e.providerId, e.body.value, e.price, s.now);
        RecordKeepsBound(z, q, done, row, k, m, seeded);
      }
    }
  }

  lemma RecordKeepsBound(z: Zone, q: Quota, s: State, row: Row, k: nat, m: real, seeded: real)
    requires Lawful(z) && Bounded(z, q, s, k, m, seeded)
    requires Windowed(z, q, s) + AtMost(|s.inFlight|, m) + m < q.limit + AtMost(k, m) + seeded
    requires row.metric == "tokens" && row.start == s.now && row.quantity <= m
    ensures Bounded(z, q, Recorded(s, row), k, m, seeded)
  {
    hide QuotaUsage, AtMost, PeriodStart, TokensOf, IsTokenRow;
    WindowedAppends(z, q, s, [row]);
    OneRowUsage(z, q, row, s.now);
    GatewayRowCounts(z, q, row, s.now);
  }

  lemma GatewayRowCounts(z: Zone, q: Quota, row: Row, now: Instant)
    requires Lawful(z) && row.metric == "tokens" && row.start == now
    ensures TokensOf(row, PeriodStart(z, q.period, now), "tokens") == row.quantity
    ensures IsTokenRow(row)
  {
    WindowMovesPast(z, q.period, now, now);
    assert Trim("tokens") == "tokens";
  }

  lemma ImportKeepsBound(z: Zone, q: Quota, s: State, rows: seq<Row>, k: nat, m: real, seeded: real)
    requires Bounded(z, q, s, k, m, seeded) && Modest(s, Import(rows), m)
    ensures Bounded(z, q, Next(z, s, Import(rows)), k, m, seeded)
  {
    WindowedAppends(z, q, s, rows);
    NoTokensNoUsage(rows, PeriodStart(z, q.period, s.now));
  }

  lemma RestateKeepsBound(z: Zone, q: Quota, s: State, e: Event, k: nat, m: real, seeded: real)
    requires Bounded(z, q, s, k, m, seeded) && e.Restate?
    ensures Bounded(z, q, Next(z, s, e), k, m, seeded)
  {
    if e.row < |s.tables.usage| && IsSpendRow(s.tables.usage[e.row]) {
      var r := s.tables.usage[e.row];
      var start := PeriodStart(z, q.period, s.now);
      SpendRowHasNoTokens(r);
      SpendRowHasNoTokens(Restated(r, e.spend, s.now));
      hide Sum, AtMost, IsTokenRow, PeriodStart;
      SumReplace(s.tables.usage, e.row, Restated(r, e.spend, s.now), x => TokensOf(x, start, "tokens"));
    }
  }

  lemma SpendRowHasNoTokens(r: Row)
    requires r.metric == "cost_usd"
    ensures !IsTokenRow(r)
    ensures forall start :: TokensOf(r, start, "tokens") == 0.0
  {
    assert Trim("cost_usd") == "cost_usd" && |Lower("cost_usd")| != |Lower("tokens")|;
  }

  lemma SeedKeepsBound(z: Zone, q: Quota, s: State, row: Row, k: nat, m: real, seeded: real)
    requires Bounded(z, q, s, k, m, seeded) && Modest(s, Seed(row), m)
    ensures Bounded(z, q, Next(z, s, Seed(row)), k, m, seeded + (if IsTokenRow(row) then row.quantity else 0.0))
  {
    hide QuotaUsage;
    WindowedAppends(z, q, s, [row]);
    OneRowUsage(z, q, row, s.now);
  }

  /** When the clock leaves a window, everything recorded so far falls out of it. */
  lemma TickKeepsBound(z: Zone, q: Quota, s: State, to: Instant, k: nat, m: real, seeded: real)
    requires Lawful(z) && IsTokenQuota(q) && m >= 0.0 && Bounded(z, q, s, k, m, seeded)
    ensures Bounded(z, q, Next(z, s, Tick(to)), k, m, seeded)
  {
    hide Sum, AtMost, TokensOf, PeriodStart;
    if to >= s.now {
      WindowMovesPast(z, q.period, s.now, to);
      if PeriodStart(z, q.period, to) > s.now {
        NoTokensNoUsage(s.tables.usage, PeriodStart(z, q.period, to));
        MoreCallsMoreTokens(|s.inFlight|, k, m);
      }
    }
  }

  lemma StepKeepsBound(z: Zone, q: Quota, s: State, e: Event, k: nat, m: real, seeded: real)
    requires Lawful(z) && IsTokenQuota(q) && m >= 0.0 && Bounded(z, q, s, k, m, seeded)
    requires Modest(s, e, m) && |Next(z, s, e).inFlight| <= k
    ensures Bounded(z, q, Next(z, s, e), k, m,
                    seeded + (if e.Seed? && IsTokenRow(e.seed) then e.seed.quantity else 0.0))
  {
    hide Bounded;
    match e
    case Admit(p) => AdmitKeepsBound(z, q, s, p, k, m, seeded);
    case Respond(_, _, _, _) => RespondKeepsBound(z, q, s, e, k, m, seeded);
    case Fail(_) => RespondKeepsBound(z, q, s, e, k, m, seeded);
    case Import(rows) => ImportKeepsBound(z, q, s, rows, k, m, seeded);
    case Restate(_, _) => RestateKeepsBound(z, q, s, e, k, m, seeded);
    case Seed(row) => SeedKeepsBound(z, q, s, row, k, m, seeded);
    case Tick(to) => TickKeepsBound(z, q, s, to, k, m, seeded);
  }

  lemma {:induction false} RunKeepsBound(z: Zone, q: Quota, s: State, events: seq<Event>, k: nat, m: real)
    requires Lawful(z) && IsTokenQuota(q) && m >= 0.0
    requires q in s.tables.quotas && s.inFlight == []
    requires forall r :: r in s.tables.usage ==> !IsTokenRow(r)
    requires Disciplined(z, s, events, k, m)
    ensures Bounded(z, q, Run(z, s, events), k, m, Seeded(events))
    decreases |events|
  {
    if events == [] {
      hide AtMost, Sum, PeriodStart;
      NoTokensNoUsage(s.tables.usage, PeriodStart(z, q.period, s.now));
      MoreCallsMoreTokens(0, k, m);
    } else {
      var before := events[..|events| - 1];
      hide Bounded;
      RunKeepsBound(z, q, s, before, k, m);
      StepKeepsBound(z, q, Run(z, s, before), events[|events| - 1], k, m, Seeded(before));
    }
  }

  /** In every state of every interleaving, the tokens recorded in the quota's window plus
      m for each call still in flight stay below the limit plus k times m, give or take
      what provisioning itself added. */
  lemma GatewayOvershootIsBounded(z: Zone, q: Quota, s: State, events: seq<Event>, k: nat, m: real)
    requires Lawful(z) && IsTokenQuota(q) && m >= 0.0
    requires q in s.tables.quotas && s.inFlight == []
    requires forall r :: r in s.tables.usage ==> !IsTokenRow(r)
    requires Disciplined(z, s, events, k, m)
    ensures Windowed(z, q, Run(z, s, events)) + AtMost(|Run(z, s, events).inFlight|, m)
          < q.limit + AtMost(k, m) + Seeded(events)
  {
    RunKeepsBound(z, q, s, events, k, m);
  }

  // -------------------------------------------------------------- the bound is sharp

  function CallsTo(provider: string, n: nat): (r: seq<string>)
    ensures |r| == n
  {
    seq(n, _ => provider)
  }

  function Admits(n: nat): seq<Event> {
    if n == 0 then [] else Admits(n - 1) + [Admit("p")]
  }

  function Answer(m: real): Event {
    Respond(0, 0, Some(Response("", 0.0, 0.0, m, 0.0, 0.0)), 0.0)
  }

  function Answers(n: nat, m: real): seq<Event> {
    if n == 0 then [] else Answers(n - 1, m) + [Answer(m)]
  }

  function BlockQuota(limit: real, period: string): Quota {
    Quota(0, None, None, "tokens", limit, period, "block")
  }

  function Fresh(q: Quota, now: Instant): State {
    State(Tables([], [q], [], [], []), [], now)
  }

  lemma NothingUsedNothingRefused(z: Zone, limit: real, period: string, now: Instant, s: State)
    requires limit > 0.0 && s.tables == Fresh(BlockQuota(limit, period), now).tables
    ensures !Refused(z, s.tables, "p", s.now)
  {
    assert Lower(Trim("tokens")) == "tokens" by { assert Trim("tokens") == "tokens"; }
  }

  lemma OneMoreEvent(z: Zone, s: State, before: seq<Event>, e: Event, k: nat, m: real)
    ensures Run(z, s, before + [e]) == Next(z, Run(z, s, before), e)
    ensures Disciplined(z, s, before + [e], k, m)
         == (Disciplined(z, s, before, k, m) && Modest(Run(z, s, before), e, m)
             && |Next(z, Run(z, s, before), e).inFlight| <= k)
  {
    hide Next, Modest;
    assert (before + [e])[..|before|] == before;
  }

  lemma {:induction false} AllAdmitted(z: Zone, limit: real, period: string, now: Instant, n: nat, k: nat, m: real)
    requires limit > 0.0 && n <= k
    ensures var s := Fresh(BlockQuota(limit, period), now);
            Run(z, s, Admits(n)) == s.(inFlight := CallsTo("p", n)) && Disciplined(z, s, Admits(n), k, m)
  {
    hide Refused;
    var s := Fresh(BlockQuota(limit, period), now);
    if n == 0 {
      assert CallsTo("p", 0) == [];
    } else {
      AllAdmitted(z, limit, period, now, n - 1, k, m);
      hide Run, Disciplined;
      OneMoreEvent(z, s, Admits(n - 1), Admit("p"), k, m);
      NothingUsedNothingRefused(z, limit, period, now, Run(z, s, Admits(n - 1)));
      assert CallsTo("p", n - 1) + ["p"] == CallsTo("p", n);
    }
  }

  lemma {:induction false} AllAnswered(z: Zone, limit: real, period: string, now: Instant, n: nat, j: nat, m: real)
    requires Lawful(z) && limit > 0.0 && m > 0.0 && j <= n
    ensures var q := BlockQuota(limit, period);
            var s := Fresh(q, now);
            var events := Admits(n) + Answers(j, m);
            var last := Run(z, s, events);
            && Disciplined(z, s, events, n, m) && last.inFlight == CallsTo("p", n - j) && last.now == now
            && Windowed(z, q, last) == AtMost(j, m)
  {
    hide QuotaUsage, TokensOf, PeriodStart, AtMost, Run, Disciplined, Next, Windowed, Lawful;
    var q := BlockQuota(limit, period);
    var s := Fresh(q, now);
    var events := Admits(n) + Answers(j, m);
    if j == 0 {
      AllAdmitted(z, limit, period, now, n, n, m);
      assert events == Admits(n);
      NothingUsed(z, q, Run(z, s, events), m);
    } else {
      AllAnswered(z, limit, period, now, n, j - 1, m);
      assert events == (Admits(n) + Answers(j - 1, m)) + [Answer(m)];
      OneMoreEvent(z, s, Admits(n) + Answers(j - 1, m), Answer(m), n, m);
      var before := Run(z, s, Admits(n) + Answers(j - 1, m));
      assert Without(before.inFlight, 0) == CallsTo("p", n - j);
      AnswerAddsItsTokens(z, q, before, m);
      OneCallMore(j - 1, m);
    }
  }

  lemma NothingUsed(z: Zone, q: Quota, s: State, m: real)
    requires s.tables.usage == []
    ensures Windowed(z, q, s) == 0.0 == AtMost(0, m)
  {
  }

  lemma AnswerAddsItsTokens(z: Zone, q: Quota, s: State, m: real)
    requires Lawful(z) && m > 0.0 && s.inFlight != []
    ensures var next := Next(z, s, Answer(m));
            && Windowed(z, q, next) == Windowed(z, q, s) + m
            && next.inFlight == Without(s.inFlight, 0) && next.now == s.now
  {
    hide QuotaUsage, TokensOf, PeriodStart, IsTokenRow;
    var body := Response("", 0.0, 0.0, m, 0.0, 0.0);
    var done := s.(inFlight := Without(s.inFlight, 0));
    var row := GatewayRow(s.inFlight[0], 0, body, 0.0, s.now);
    WindowedAppends(z, q, done, [row]);
    OneRowUsage(z, q, row, s.now);
    GatewayRowCounts(z, q, row, s.now);
  }

  lemma BlockQuotaCounts(limit: real, period: string)
    requires limit > 0.0
    ensures IsTokenQuota(BlockQuota(limit, period))
  {
    assert Trim("tokens") == "tokens";
  }

  /** The overshoot is real: however small the limit, n calls admitted before the first
      answer record n times m tokens, within the discipline the bound assumes. */
  lemma OvershootIsReached(z: Zone, limit: real, period: string, now: Instant, n: nat, m: real)
    requires Lawful(z) && limit > 0.0 && m > 0.0
    ensures var q := BlockQuota(limit, period);
            var s := Fresh(q, now);
            var events := Admits(n) + Answers(n, m);
            && IsTokenQuota(q) && Disciplined(z, s, events, n, m)
            && Windowed(z, q, Run(z, s, events)) == AtMost(n, m)
  {
    AllAnswered(z, limit, period, now, n, n, m);
    hide Run, Disciplined, Windowed, Lawful, AtMost, Admits, Answers, IsTokenQuota;
    BlockQuotaCounts(limit, period);
  }
}
