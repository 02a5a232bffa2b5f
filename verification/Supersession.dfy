/** How the sources of spend meet in a figure: what a gateway call estimates, and what a cost
    report or a spend import puts in its place. */
module Supersession {
  import opened Text
  import opened Ids
  import opened Calendar
  import opened Ledger
  import Gateway
  import opened Imports
  import LiteLlm
  import Scopes

  /** A report that the code imports: tagged as one of the two cost reports. */
  predicate IsReport(o: Origin) {
    o.source == "openai_costs_api" || o.source == "anthropic_cost_report"
  }

  predicate Plain(tag: string) {
    tag != "" && forall c :: c in tag ==> 'a' <= c <= 'z' || c == '_'
  }

  /** A lower-case tag is read back as it was written. */
  lemma PlainTag(tag: string)
    requires Plain(tag)
    ensures Lower(Trim(tag)) == tag
  {
    assert tag[0] in tag && tag[|tag| - 1] in tag;
    assert Trim(tag) == tag;
    assert forall i :: 0 <= i < |tag| ==> tag[i] in tag;
    assert Lower(tag) == tag;
  }

  lemma TagsAreFolded()
    ensures Lower(Trim("openai_costs_api")) == "openai_costs_api"
    ensures Lower(Trim("anthropic_cost_report")) == "anthropic_cost_report"
    ensures Lower(Trim("litellm_spend")) == "litellm_spend"
    ensures Lower(Trim("opord_gateway_lite")) == "opord_gateway_lite"
  {
    hide Trim, Lower;
    PlainTag("openai_costs_api");
    PlainTag("anthropic_cost_report");
    PlainTag("litellm_spend");
    PlainTag("opord_gateway_lite");
  }

  /** The row a line of a report leaves carries its amount and period, belongs to no instance,
      and is a real figure; so is a spend row; what a gateway call leaves is an estimate. */
  lemma ReportRowsAreReal(o: Origin, it: Item)
    requires IsReport(o)
    ensures var r := ItemRow(o, it);
            && IsAuthoritative(r) && !IsEstimate(r)
            && r.provider == o.provider && r.providerId == o.providerId && r.start == it.start && r.end == it.end
            && r.cost == it.amount && r.quantity == it.amount && r.metric == "cost_usd"
            && r.instance.None? && r.owner.None? && r.workspace.None? && r.tenant.None?
  {
    TagsAreFolded();
    hide Trim, Lower;
    assert ItemRow(o, it).raw["source"] == o.source;
  }

  lemma SpendRowsAreReal(k: LiteLlm.Key, providerId: Id, spend: real, now: Instant)
    ensures var r := LiteLlm.SpendRow(k, providerId, spend, now);
            && IsAuthoritative(r) && !IsEstimate(r) && r.provider == k.provider && r.cost == spend && r.start == now
            && r.instance == Some(k.id) && r.owner == Some(k.owner) && r.workspace == Some(k.workspace)
            && r.tenant == k.tenant
  {
    TagsAreFolded();
    hide Trim, Lower;
  }

  lemma GatewayRowsAreEstimates(provider: string, providerId: Id, body: Gateway.Response, price: real, now: Instant)
    ensures var r := Gateway.GatewayRow(provider, providerId, body, price, now);
            && IsEstimate(r) && !IsAuthoritative(r) && r.provider == provider && r.cost == price && r.metric == "tokens"
  {
    TagsAreFolded();
    hide Trim, Lower;
  }

  // --------------------------------------------------------------------- giving way

  lemma {:induction false} NewItemStored(rows: seq<Row>, o: Origin, items: seq<Item>, it: Item)
    requires it in items && !Known(rows, o, it)
    ensures exists other :: other in items && SameKey(other, it) && ItemRow(o, other) in ImportAll(rows, o, items)
    decreases |items|
  {
    var first := items[0];
    var next := ImportItem(rows, o, first);
    ImportExtends(next, o, items[1..]);
    if SameKey(first, it) {
      assert !Known(rows, o, first);
      assert next[|rows|] == ItemRow(o, first);
      assert ImportAll(rows, o, items)[|rows|] == ItemRow(o, first);
    } else {
      assert !Known(next, o, it) by {
        assert forall r :: r in next ==> r in rows || r == ItemRow(o, first);
      }
      NewItemStored(next, o, items[1..], it);
      var other :| other in items[1..] && SameKey(other, it) && ItemRow(o, other) in ImportAll(next, o, items[1..]);
      assert other in items;
    }
  }

  /** Once a cost report with a line in the window is imported, every gateway estimate of that
      provider in the window counts nothing, in every scope that takes the report. */
  lemma ReportSupersedes(rows: seq<Row>, o: Origin, items: seq<Item>, it: Item, start: Instant,
                         inScope: Row -> bool, estimate: Row)
    requires IsReport(o) && it in items && it.start >= start && !Known(rows, o, it)
    requires forall x: Item :: inScope(ItemRow(o, x))
    requires IsEstimate(estimate) && EqualFold(estimate.provider, o.provider) && InWindow(estimate, start, inScope)
    ensures Superseded(estimate, ImportAll(rows, o, items), start, inScope)
    ensures Contribution(estimate, start, inScope, Settled(ImportAll(rows, o, items), start, inScope)) == 0.0
  {
    NewItemStored(rows, o, items, it);
    var after := ImportAll(rows, o, items);
    var other :| other in items && SameKey(other, it) && ItemRow(o, other) in after;
    ReportRowsAreReal(o, other);
    hide IsAuthoritative, IsEstimate, ImportAll, ItemRow;
    assert InWindow(ItemRow(o, other), start, inScope);
    SupersededIffSettled(estimate, after, start, inScope);
  }

  /** Amounts of the lines that start in the window. */
  function AmountsSince(items: seq<Item>, start: Instant): real {
    if items == [] then 0.0
    else (if items[0].start >= start then items[0].amount else 0.0) + AmountsSince(items[1..], start)
  }

  function EstimatesSince(rows: seq<Row>, start: Instant): real {
    if rows == [] then 0.0
    else (if rows[0].start >= start then rows[0].cost else 0.0) + EstimatesSince(rows[1..], start)
  }

  predicate Everything(r: Row) { true }

  /** A provider's ledger of gateway estimates, after its cost report was imported: the figure
      is that of the report alone if any of its lines is in the window, and that of the
      estimates if none is. Nothing is counted twice. */
  lemma ReportReplacesEstimates(rows: seq<Row>, o: Origin, items: seq<Item>, start: Instant)
    requires IsReport(o)
    requires forall r :: r in rows ==> IsEstimate(r) && r.metric == "tokens" && EqualFold(r.provider, o.provider)
    requires forall i, j :: 0 <= i < j < |items| ==> !SameKey(items[i], items[j])
    ensures var figure := CostUsd(ImportAll(rows, o, items), start, Everything);
            if exists it :: it in items && it.start >= start then figure == AmountsSince(items, start)
            else figure == EstimatesSince(rows, start)
  {
    forall it | it in items ensures !Known(rows, o, it) {
    }
    DistinctItemsAllStored(rows, o, items);
    var all := rows + ItemRows(o, items);
    var settled := Settled(all, start, Everything);
    var f := r => Contribution(r, start, Everything, settled);
    hide ImportAll, IsEstimate, IsAuthoritative, ItemRow, Known;
    SumConcat(rows, ItemRows(o, items), f);
    SumOfItems(o, items, start, settled);
    if exists it :: it in items && it.start >= start {
      var it :| it in items && it.start >= start;
      SettledByLine(rows, o, items, it, start);
      SumZero(rows, f);
    } else {
      OnlyEstimates(rows, o, items, start);
      SumOfEstimates(rows, start, settled);
      NoLinesNoAmounts(items, start);
    }
  }

  lemma SettledByLine(rows: seq<Row>, o: Origin, items: seq<Item>, it: Item, start: Instant)
    requires IsReport(o) && it in items && it.start >= start
    ensures Lower(o.provider) in Settled(rows + ItemRows(o, items), start, Everything)
  {
    var all := rows + ItemRows(o, items);
    var k :| 0 <= k < |items| && items[k] == it;
    ReportRowsAreReal(o, it);
    hide IsAuthoritative, ItemRow;
    assert all[|rows| + k] == ItemRow(o, it);
    assert ItemRow(o, it) in all && InWindow(ItemRow(o, it), start, Everything);
  }

  lemma OnlyEstimates(rows: seq<Row>, o: Origin, items: seq<Item>, start: Instant)
    requires IsReport(o) && forall r :: r in rows ==> IsEstimate(r)
    requires forall it :: it in items ==> it.start < start
    ensures Settled(rows + ItemRows(o, items), start, Everything) == {}
  {
    var all := rows + ItemRows(o, items);
    EstimatesAreNotReal(rows);
    forall k | 0 <= k < |items| ensures ItemRows(o, items)[k].start < start {
      assert items[k] in items;
    }
    assert forall q :: q in all ==> q in rows || q in ItemRows(o, items);
  }

  lemma EstimatesAreNotReal(rows: seq<Row>)
    requires forall r :: r in rows ==> IsEstimate(r)
    ensures forall r :: r in rows ==> !IsAuthoritative(r)
  {
  }

  lemma {:induction false} SumOfItems(o: Origin, items: seq<Item>, start: Instant, settled: set<string>)
    requires IsReport(o)
    ensures Sum(ItemRows(o, items), r => Contribution(r, start, Everything, settled)) == AmountsSince(items, start)
  {
    var f := r => Contribution(r, start, Everything, settled);
    if items != [] {
      ReportRowsAreReal(o, items[0]);
      assert ItemRows(o, items)[1..] == ItemRows(o, items[1..]);
      hide IsEstimate, ItemRow;
      SumOfItems(o, items[1..], start, settled);
      SumCongruent(ItemRows(o, items[1..]), f, r => Contribution(r, start, Everything, settled));
    }
  }

  lemma {:induction false} SumOfEstimates(rows: seq<Row>, start: Instant, settled: set<string>)
    requires settled == {}
    ensures Sum(rows, r => Contribution(r, start, Everything, settled)) == EstimatesSince(rows, start)
  {
    var f := r => Contribution(r, start, Everything, settled);
    if rows != [] {
      SumOfEstimates(rows[1..], start, settled);
      SumCongruent(rows[1..], f, r => Contribution(r, start, Everything, settled));
    }
  }

  lemma {:induction false} NoLinesNoAmounts(items: seq<Item>, start: Instant)
    requires forall it :: it in items ==> it.start < start
    ensures AmountsSince(items, start) == 0.0
  {
    if items != [] {
      assert items[0] in items;
      NoLinesNoAmounts(items[1..], start);
    }
  }

  // -------------------------------------------------------------- amounts as reported

  function Values(lines: seq<CostLine>): real {
    if lines == [] then 0.0 else lines[0].value + Values(lines[1..])
  }

  function ReportedValue(data: seq<Bucket>): real {
    if data == [] then 0.0 else Values(data[0].results) + ReportedValue(data[1..])
  }

  lemma {:induction false} TotalConcat(a: seq<Item>, b: seq<Item>)
    ensures Total(a + b) == Total(a) + Total(b)
  {
    if a == [] {
      assert a + b == b;
    } else {
      assert (a + b)[1..] == a[1..] + b;
      TotalConcat(a[1..], b);
    }
  }

  lemma {:induction false} BucketValue(b: Bucket, from: nat)
    requires from <= |b.results|
    ensures Total(BucketItems(b, from)) == Values(b.results[from..])
    decreases |b.results| - from
  {
    if from < |b.results| {
      assert b.results[from..][1..] == b.results[from + 1..];
      BucketValue(b, from + 1);
      TotalConcat([OpenAiItem(b, from)], BucketItems(b, from + 1));
      assert [OpenAiItem(b, from)][1..] == [];
    }
  }

  /** What an OpenAI report brings in is the sum of its amounts, in dollars. */
  lemma {:induction false} ReportTotal(data: seq<Bucket>)
    ensures Total(PayloadItems(data)) == ReportedValue(data)
  {
    if data != [] {
      ReportTotal(data[1..]);
      BucketValue(data[0], 0);
      assert data[0].results[0..] == data[0].results;
      TotalConcat(BucketItems(data[0], 0), PayloadItems(data[1..]));
    }
  }

  /** Cents on the lines whose amount parses. */
  function Cents(lines: seq<ReportLine>): real {
    if lines == [] then 0.0
    else (match lines[0].cents case Some(c) => c case None => 0.0) + Cents(lines[1..])
  }

  function ReportedCents(data: seq<ReportBucket>): real {
    if data == [] then 0.0 else Cents(data[0].results) + ReportedCents(data[1..])
  }

  lemma {:induction false} BucketCents(b: ReportBucket, from: nat, names: map<string, string>)
    requires from <= |b.results|
    ensures Total(ReportItems(b, from, names)) * 100.0 == Cents(b.results[from..])
    decreases |b.results| - from
  {
    if from < |b.results| {
      assert b.results[from..][1..] == b.results[from + 1..];
      BucketCents(b, from + 1, names);
      TotalConcat(LineItems(b, from, names), ReportItems(b, from + 1, names));
      LineTotal(b, from, names);
    }
  }

  lemma LineTotal(b: ReportBucket, idx: nat, names: map<string, string>)
    requires idx < |b.results|
    ensures Total(LineItems(b, idx, names)) * 100.0 == match b.results[idx].cents case Some(c) => c case None => 0.0
  {
    if LineItems(b, idx, names) != [] {
      assert LineItems(b, idx, names)[1..] == [];
    }
  }

  /** What an Anthropic report brings in is a hundredth of its cents. */
  lemma {:induction false} CentsBecomeDollars(data: seq<ReportBucket>, names: map<string, string>)
    ensures Total(DataItems(data, names)) * 100.0 == ReportedCents(data)
  {
    if data != [] {
      CentsBecomeDollars(data[1..], names);
      BucketCents(data[0], 0, names);
      assert data[0].results[0..] == data[0].results;
      TotalConcat(ReportItems(data[0], 0, names), DataItems(data[1..], names));
    }
  }

  // ------------------------------------------------------------- whose spend is imported

  /** A workspace budget counts the lines of a cost report whose workspace it names, by id or
      by the name the workspace has in the listing. */
  lemma WorkspaceBudgetCountsLine(budget: Budget, o: Origin, b: ReportBucket, idx: nat, names: map<string, string>)
    requires idx < |b.results| && Scopes.HasScope(budget, "workspace")
    ensures var id := b.results[idx].workspaceId;
            forall it :: it in LineItems(b, idx, names) ==>
              (ScopeMatches(budget, ItemRow(o, it)) <==>
                || Lower(Trim(id)) == Lower(Trim(budget.scopeRef))
                || (if id in names then Lower(Trim(names[id])) == Lower(Trim(budget.scopeRef))
                    else Trim(budget.scopeRef) == ""))
  {
    hide Trim, Lower, ScopeMatches, Scopes.HasScope, AnthropicKey;
    forall it | it in LineItems(b, idx, names)
      ensures RawField(ItemRow(o, it).raw, "workspace_id") == Trim(b.results[idx].workspaceId)
      ensures RawField(ItemRow(o, it).raw, "workspace") == NameOf(b.results[idx].workspaceId, names)
      ensures ScopeMatches(budget, ItemRow(o, it)) <==>
                || Lower(RawField(ItemRow(o, it).raw, "workspace")) == Lower(Trim(budget.scopeRef))
                || Lower(RawField(ItemRow(o, it).raw, "workspace_id")) == Lower(Trim(budget.scopeRef))
    {
      NothingToTrim();
      Scopes.ImportedSpendCounts(budget, ItemRow(o, it));
    }
    FoldsToNothing(Trim(budget.scopeRef));
  }

  function NameOf(id: string, names: map<string, string>): string {
    if id in names then Trim(names[id]) else ""
  }

  lemma NothingToTrim()
    ensures Trim("") == ""
  {
  }

  lemma FoldsToNothing(s: string)
    ensures Lower("") == Lower(s) <==> s == ""
  {
    assert |Lower(s)| == |s|;
  }

  /** Keys that are not active, not of the provider or do not report are not touched, and do
      not count. */
  lemma {:induction false} OthersNotImported(rows: seq<Row>, keys: seq<LiteLlm.Key>, provider: string, providerId: Id,
                                             usage: map<Id, real>, now: Instant, f: LiteLlm.Faults)
    requires forall k :: k in keys ==> !k.active || k.provider != provider || k.id !in usage
    ensures LiteLlm.ImportSpend(rows, keys, provider, providerId, usage, now, f) == rows
    ensures LiteLlm.ReportedTotal(keys, provider, usage) == (0, 0.0)
    decreases |keys|
  {
    if keys != [] {
      assert keys[0] in keys;
      OthersNotImported(rows, keys[1..], provider, providerId, usage, now, f);
    }
  }

  /** A key that is active, of the provider and reports counts with what it reports. */
  lemma KeyCounts(k: LiteLlm.Key, keys: seq<LiteLlm.Key>, provider: string, usage: map<Id, real>)
    requires k.active && k.provider == provider && k.id in usage
    ensures var (n, total) := LiteLlm.ReportedTotal(keys, provider, usage);
            LiteLlm.ReportedTotal([k] + keys, provider, usage) == (n + 1, total + usage[k.id])
    ensures LiteLlm.Reports(k, provider, usage)
  {
    assert ([k] + keys)[1..] == keys;
  }
}
