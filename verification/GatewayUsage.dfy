/** What one gateway call leaves in the ledger, in terms of the body that came back, and which
    calls are refused, in terms of the budgets and quotas on file. */
module GatewayUsage {
  import opened Text
  import opened Ids
  import opened Calendar
  import opened Ledger
  import opened Governance
  import opened Gateway

  /** From before to after one call was answered: it left flight, and one estimate of so many
      tokens at this price was recorded for its provider, dated now, without an instance. */
  ghost predicate RecordsTokens(before: State, after: State, call: nat, providerId: Id, tokens: real, price: real)
    requires call < |before.inFlight|
  {
    && after.inFlight == before.inFlight[..call] + before.inFlight[call + 1..]
    && after.now == before.now
    && after.tables == before.tables.(usage := after.tables.usage)
    && |after.tables.usage| == |before.tables.usage| + 1
    && after.tables.usage[..|before.tables.usage|] == before.tables.usage
    && var r := after.tables.usage[|before.tables.usage|];
       && r.provider == before.inFlight[call] && r.providerId == providerId
       && r.instance.None? && r.owner.None? && r.workspace.None? && r.tenant.None?
       && r.start == before.now && r.end == before.now
       && r.metric == "tokens" && r.quantity == tokens && r.cost == price
       && "source" in r.raw && r.raw["source"] == "opord_gateway_lite"
  }

  /** The tokens of the call also arrive in the window of every token quota. */
  lemma RecordedCounts(z: Zone, q: Quota, before: State, after: State, call: nat, providerId: Id, tokens: real,
                       price: real)
    requires Lawful(z) && call < |before.inFlight| && RecordsTokens(before, after, call, providerId, tokens, price)
    ensures Windowed(z, q, after) == Windowed(z, q, before) + tokens
  {
    var n := |before.tables.usage|;
    var r := after.tables.usage[n];
    assert after.tables.usage == before.tables.usage + [r];
    hide QuotaUsage, PeriodStart, TokensOf;
    var done := before.(inFlight := after.inFlight);
    assert after == done.(tables := done.tables.(usage := done.tables.usage + [r]));
    assert Windowed(z, q, done) == Windowed(z, q, before);
    WindowedAppends(z, q, done, [r]);
    OneRowUsage(z, q, r, before.now);
    GatewayRowCounts(z, q, r, before.now);
  }

  /** A body that reports only input and output tokens is charged their sum. */
  lemma PartsAreAdded(z: Zone, q: Quota, s: State, call: nat, providerId: Id, model: string, i: real, o: real,
                      price: real)
    requires Lawful(z) && call < |s.inFlight| && i + o > 0.0
    ensures var after := Next(z, s, Respond(call, providerId, Some(Response(model, i, o, 0.0, 0.0, 0.0)), price));
            RecordsTokens(s, after, call, providerId, i + o, price)
            && Windowed(z, q, after) == Windowed(z, q, s) + i + o
  {
    hide Windowed;
    var after := Next(z, s, Respond(call, providerId, Some(Response(model, i, o, 0.0, 0.0, 0.0)), price));
    RecordedCounts(z, q, s, after, call, providerId, i + o, price);
  }

  /** So is one that reports only prompt and completion tokens. */
  lemma OlderPartsAreAdded(z: Zone, q: Quota, s: State, call: nat, providerId: Id, model: string, p: real, c: real,
                           price: real)
    requires Lawful(z) && call < |s.inFlight| && p + c > 0.0
    ensures var after := Next(z, s, Respond(call, providerId, Some(Response(model, 0.0, 0.0, 0.0, p, c)), price));
            RecordsTokens(s, after, call, providerId, p + c, price)
            && Windowed(z, q, after) == Windowed(z, q, s) + p + c
  {
    hide Windowed;
    var after := Next(z, s, Respond(call, providerId, Some(Response(model, 0.0, 0.0, 0.0, p, c)), price));
    RecordedCounts(z, q, s, after, call, providerId, p + c, price);
  }

  /** A total that is reported is charged as it is, whatever the parts say. */
  lemma TotalIsTaken(z: Zone, q: Quota, s: State, call: nat, providerId: Id, body: Response, price: real)
    requires Lawful(z) && call < |s.inFlight| && body.total != 0.0
    ensures var after := Next(z, s, Respond(call, providerId, Some(body), price));
            RecordsTokens(s, after, call, providerId, body.total, price)
            && Windowed(z, q, after) == Windowed(z, q, s) + body.total
  {
    hide Windowed;
    var after := Next(z, s, Respond(call, providerId, Some(body), price));
    RecordedCounts(z, q, s, after, call, providerId, body.total, price);
  }

  /** Leaving out a total that equals the sum of its parts makes no difference,
      whichever spelling each part has. */
  lemma TotalMayBeLeftOut(z: Zone, s: State, call: nat, providerId: Id, body: Response, price: real)
    requires body.total == 0.0
    ensures var total := (if body.input != 0.0 then body.input else body.prompt)
                         + (if body.output != 0.0 then body.output else body.completion);
            Next(z, s, Respond(call, providerId, Some(body), price))
            == Next(z, s, Respond(call, providerId, Some(body.(total := total)), price))
  {
  }

  /** A body that does not decode or reports nothing leaves the ledger alone. */
  lemma NothingReportedNothingRecorded(z: Zone, s: State, call: nat, providerId: Id, body: Option<Response>,
                                       price: real)
    requires call < |s.inFlight|
    requires body.Some? ==> body.value == Response(body.value.model, 0.0, 0.0, 0.0, 0.0, 0.0)
    ensures var after := Next(z, s, Respond(call, providerId, body, price));
            after == s.(inFlight := s.inFlight[..call] + s.inFlight[call + 1..])
  {
  }

  // -------------------------------------------------------------------- refused calls

  /** A global budget, or one for this provider, by name or for all of them. */
  predicate StandsBefore(b: Budget, provider: string) {
    || Lower(Trim(b.scope)) == "" || Lower(Trim(b.scope)) == "global"
    || (Lower(Trim(b.scope)) == "provider" && (Blank(b.scopeRef) || EqualFold(provider, Trim(b.scopeRef))))
  }

  /** A call is refused exactly if a global budget or one for its provider is at its hard
      limit, or a blocking quota on tokens or cost is used up in its window. Budgets for
      owners, workspaces and tenants, quotas on anything else and quotas that only warn
      never refuse one. */
  lemma RefusedExactly(z: Zone, t: Tables, provider: string, now: Instant)
    ensures Refused(z, t, provider, now) <==>
      || (exists b :: b in t.budgets && StandsBefore(b, provider) && Summarize(z, b, t.usage, now).status == HardLimit)
      || (exists q :: q in t.quotas && Lower(Trim(q.metric)) in {"tokens", "cost_usd", "cost"}
            && Lower(q.enforcement) == "block"
                 && QuotaUsage(z, Lower(Trim(q.metric)), q.period, t.usage, now) >= q.limit)
  {
    hide QuotaUsage, Summarize, Trim;
    UnscopedSeesAll(t.usage, RowTenant);
    hide Own;
    SummariesOf(z, t.budgets, t.usage, now);
    forall b: Budget
      ensures BudgetApplies(b, CallContext(provider)) && IsGatewayBudget(b) <==> StandsBefore(b, provider)
    {
    }
    hide Summaries, BudgetApplies, IsGatewayBudget, StandsBefore;
    assert Lower("block") == "block";
    if exists s :: s in Summaries(z, None, t.budgets, t.usage, now) && BudgetStops(s, CallContext(provider)) {
      var s :| s in Summaries(z, None, t.budgets, t.usage, now) && BudgetStops(s, CallContext(provider));
      var b :| b in t.budgets && s == Summarize(z, b, t.usage, now);
      SummaryOfItsBudget(z, b, t.usage, now);
    }
    forall b | b in t.budgets && StandsBefore(b, provider) && Summarize(z, b, t.usage, now).status == HardLimit
      ensures BudgetStops(Summarize(z, b, t.usage, now), CallContext(provider))
    {
      SummaryOfItsBudget(z, b, t.usage, now);
    }
  }

  lemma SummaryOfItsBudget(z: Zone, b: Budget, usage: seq<Row>, now: Instant)
    ensures Summarize(z, b, usage, now).budget == b
  {
  }

  lemma {:induction false} SummariesOf(z: Zone, budgets: seq<Budget>, usage: seq<Row>, now: Instant)
    ensures forall s :: s in Summaries(z, None, budgets, usage, now) <==>
              exists b :: b in budgets && s == Summarize(z, b, usage, now)
  {
    hide Summarize, Own;
    UnscopedSeesAll(usage, RowTenant);
    if budgets != [] {
      SummariesOf(z, budgets[1..], usage, now);
      assert budgets == [budgets[0]] + budgets[1..];
    }
  }
}
