/** Cost imports: reports, whole or page by page, deduplicated by a printed key. */
module Imports {
  import opened Text
  import opened Ids
  import opened Calendar
  import opened Ledger

  /** One line of a cost report, as it would be stored. */
  datatype Item = Item(start: Instant, end: Instant, key: string, amount: real, details: map<string, string>)

  /** The provider the report belongs to and the tag its rows carry. */
  datatype Origin = Origin(provider: string, providerId: Id, source: string)

  function ItemRow(o: Origin, it: Item): Row {
    Row(o.provider, o.providerId, None, None, None, None, it.start, it.end,
        "cost_usd", it.amount, it.amount,
        it.details["source" := o.source]["import_key" := it.key])
  }

  /** The columns the deduplicating lookup compares. */
  predicate SameImport(r: Row, pid: Id, start: Instant, end: Instant, key: string) {
    && r.providerId == pid && r.start == start && r.end == end && r.metric == "cost_usd"
    && "import_key" in r.raw && r.raw["import_key"] == key
  }

  predicate Known(rows: seq<Row>, o: Origin, it: Item) {
    exists r :: r in rows && SameImport(r, o.providerId, it.start, it.end, it.key)
  }

  function ImportItem(rows: seq<Row>, o: Origin, it: Item): seq<Row> {
    if Known(rows, o, it) then rows else rows + [ItemRow(o, it)]
  }

  function ImportAll(rows: seq<Row>, o: Origin, items: seq<Item>): seq<Row>
    decreases |items|
  {
    if items == [] then rows
    else ImportAll(ImportItem(rows, o, items[0]), o, items[1..])
  }

  // ----------------------------------------------------------- laws of an import

  lemma {:induction false} ImportExtends(rows: seq<Row>, o: Origin, items: seq<Item>)
    ensures rows <= ImportAll(rows, o, items)
    ensures |ImportAll(rows, o, items)| <= |rows| + |items|
    decreases |items|
  {
    if items != [] {
      ImportExtends(ImportItem(rows, o, items[0]), o, items[1..]);
    }
  }

  lemma {:induction false} ImportConcat(rows: seq<Row>, o: Origin, a: seq<Item>, b: seq<Item>)
    ensures ImportAll(rows, o, a + b) == ImportAll(ImportAll(rows, o, a), o, b)
    decreases |a|
  {
    if a == [] {
      assert a + b == b;
    } else {
      assert (a + b)[1..] == a[1..] + b;
      ImportConcat(ImportItem(rows, o, a[0]), o, a[1..], b);
    }
  }

  lemma {:induction false} ImportedIsKnown(rows: seq<Row>, o: Origin, items: seq<Item>, it: Item)
    requires it in items
    ensures Known(ImportAll(rows, o, items), o, it)
    decreases |items|
  {
    var next := ImportItem(rows, o, items[0]);
    ImportExtends(next, o, items[1..]);
    if it == items[0] {
      assert Known(next, o, it) by {
        assert SameImport(ItemRow(o, it), o.providerId, it.start, it.end, it.key);
        if !Known(rows, o, it) { assert next[|rows|] == ItemRow(o, it); }
      }
      KnownStays(next, ImportAll(rows, o, items), o, it);
    } else {
      ImportedIsKnown(next, o, items[1..], it);
    }
  }

  lemma KnownStays(a: seq<Row>, b: seq<Row>, o: Origin, it: Item)
    requires Known(a, o, it) && a <= b
    ensures Known(b, o, it)
  {
    var r :| r in a && SameImport(r, o.providerId, it.start, it.end, it.key);
    var i :| 0 <= i < |a| && a[i] == r;
    assert b[i] == r;
  }

  lemma {:induction false} KnownItemsChangeNothing(rows: seq<Row>, o: Origin, items: seq<Item>)
    requires forall it :: it in items ==> Known(rows, o, it)
    ensures ImportAll(rows, o, items) == rows
    decreases |items|
  {
    if items != [] {
      assert items[0] in items;
      KnownItemsChangeNothing(rows, o, items[1..]);
    }
  }

  /** Rerunning an import that stopped after k items, whatever the reason, leaves exactly
      the ledger of one uninterrupted run. */
  lemma InterruptedImportResumes(rows: seq<Row>, o: Origin, items: seq<Item>, k: nat)
    requires k <= |items|
    ensures ImportAll(ImportAll(rows, o, items[..k]), o, items) == ImportAll(rows, o, items)
  {
    var once := ImportAll(rows, o, items[..k]);
    assert items == items[..k] + items[k..];
    ImportConcat(once, o, items[..k], items[k..]);
    forall it | it in items[..k] ensures Known(once, o, it) {
      ImportedIsKnown(rows, o, items[..k], it);
    }
    KnownItemsChangeNothing(once, o, items[..k]);
    ImportConcat(rows, o, items[..k], items[k..]);
  }

  /** Importing the same report twice is importing it once. */
  lemma ImportIsIdempotent(rows: seq<Row>, o: Origin, items: seq<Item>)
    ensures ImportAll(ImportAll(rows, o, items), o, items) == ImportAll(rows, o, items)
  {
    assert items[..|items|] == items;
    InterruptedImportResumes(rows, o, items, |items|);
  }

  /** At most one row per (provider, period, metric, import key). */
  ghost predicate OneRowPerKey(rows: seq<Row>) {
    forall i, j :: 0 <= i < j < |rows| && "import_key" in rows[i].raw ==>
      !SameImport(rows[j], rows[i].providerId, rows[i].start, rows[i].end, rows[i].raw["import_key"])
      || rows[i].metric != "cost_usd"
  }

  lemma {:induction false} ImportKeepsOneRowPerKey(rows: seq<Row>, o: Origin, items: seq<Item>)
    requires OneRowPerKey(rows)
    ensures OneRowPerKey(ImportAll(rows, o, items))
    decreases |items|
  {
    if items != [] {
      var it := items[0];
      var next := ImportItem(rows, o, it);
      forall i, j | 0 <= i < j < |next| && "import_key" in next[i].raw
        ensures !SameImport(next[j], next[i].providerId, next[i].start, next[i].end, next[i].raw["import_key"])
             || next[i].metric != "cost_usd"
      {
        if j == |rows| && SameImport(next[j], next[i].providerId, next[i].start, next[i].end, next[i].raw["import_key"])
           && next[i].metric == "cost_usd" {
          assert next[i] in rows;
          assert SameImport(next[i], o.providerId, it.start, it.end, it.key);
        }
      }
      ImportKeepsOneRowPerKey(next, o, items[1..]);
    }
  }

  /** The row stored under a key carries the amount of the first item that had it. */
  lemma {:induction false} FirstAmountIsStored(rows: seq<Row>, o: Origin, items: seq<Item>, i: nat)
    requires i < |items|
    requires forall j :: 0 <= j < i ==> !SameKey(items[j], items[i])
    requires !Known(rows, o, items[i])
    ensures ItemRow(o, items[i]) in ImportAll(rows, o, items)
    decreases |items|
  {
    var next := ImportItem(rows, o, items[0]);
    ImportExtends(next, o, items[1..]);
    if i == 0 {
      assert next[|rows|] == ItemRow(o, items[0]);
      assert ImportAll(rows, o, items)[|rows|] == ItemRow(o, items[0]);
    } else {
      assert !SameKey(items[0], items[i]);
      assert !Known(next, o, items[i]);
      assert items[1..][i - 1] == items[i];
      forall j | 0 <= j < i - 1 ensures !SameKey(items[1..][j], items[1..][i - 1]) {
        assert items[1..][j] == items[j + 1];
      }
      FirstAmountIsStored(next, o, items[1..], i - 1);
    }
  }

  predicate SameKey(a: Item, b: Item) {
    a.start == b.start && a.end == b.end && a.key == b.key
  }

  function ItemRows(o: Origin, items: seq<Item>): (r: seq<Row>)
    ensures |r| == |items| && forall i :: 0 <= i < |items| ==> r[i] == ItemRow(o, items[i])
  {
    seq(|items|, i requires 0 <= i < |items| => ItemRow(o, items[i]))
  }

  /** A report of new items with pairwise different keys is stored completely. */
  lemma {:induction false} DistinctItemsAllStored(rows: seq<Row>, o: Origin, items: seq<Item>)
    requires forall i, j :: 0 <= i < j < |items| ==> !SameKey(items[i], items[j])
    requires forall it :: it in items ==> !Known(rows, o, it)
    ensures ImportAll(rows, o, items) == rows + ItemRows(o, items)
    decreases |items|
  {
    if items == [] {
      assert rows + ItemRows(o, items) == rows;
    } else {
      var next := rows + [ItemRow(o, items[0])];
      assert items[0] in items;
      forall it | it in items[1..] ensures !Known(next, o, it) {
        var j :| 0 <= j < |items[1..]| && items[1..][j] == it;
        assert items[j + 1] == it && it in items;
        assert !SameKey(items[0], items[j + 1]);
      }
      forall i, j | 0 <= i < j < |items[1..]| ensures !SameKey(items[1..][i], items[1..][j]) {
        assert items[1..][i] == items[i + 1] && items[1..][j] == items[j + 1];
      }
      DistinctItemsAllStored(next, o, items[1..]);
      assert next + ItemRows(o, items[1..]) == rows + ItemRows(o, items);
    }
  }

  /** One run of an importer: it handled the first `done` items of its report. */
  datatype Run = Run(origin: Origin, items: seq<Item>, done: nat)

  function AfterRuns(rows: seq<Row>, runs: seq<Run>): seq<Row>
    requires forall r :: r in runs ==> r.done <= |r.items|
    decreases |runs|
  {
    if runs == [] then rows
    else AfterRuns(ImportAll(rows, runs[0].origin, runs[0].items[..runs[0].done]), runs[1..])
  }

  /** Over any sequence of runs, complete or cut short anywhere, the ledger has at most
      one row per key and no stored row is ever changed, moved or dropped. */
  lemma {:induction false} AnyRunsKeepTheLedger(rows: seq<Row>, runs: seq<Run>)
    requires forall r :: r in runs ==> r.done <= |r.items|
    requires OneRowPerKey(rows)
    ensures OneRowPerKey(AfterRuns(rows, runs)) && rows <= AfterRuns(rows, runs)
    decreases |runs|
  {
    if runs != [] {
      var r := runs[0];
      assert r in runs;
      ImportKeepsOneRowPerKey(rows, r.origin, r.items[..r.done]);
      ImportExtends(rows, r.origin, r.items[..r.done]);
      AnyRunsKeepTheLedger(ImportAll(rows, r.origin, r.items[..r.done]), runs[1..]);
    }
  }

  // ----------------------------------------------------------------- import keys

  lemma FirstColonSplits(a: string, x: string, b: string, y: string)
    requires ':' !in a && ':' !in b
    requires a + ":" + x == b + ":" + y
    ensures a == b && x == y
  {
    var s := a + ":" + x;
    assert s[|a|] == ':' && s[|b|] == ':';
    assert forall i :: 0 <= i < |a| ==> s[i] == a[i];
    assert forall i :: 0 <= i < |b| ==> s[i] == b[i];
    assert |a| == |b|;
    assert a == s[..|a|] == b;
    assert x == s[|a| + 1..] == y;
  }

  lemma LastColonSplits(x: string, a: string, y: string, b: string)
    requires ':' !in a && ':' !in b
    requires x + ":" + a == y + ":" + b
    ensures a == b && x == y
  {
    var s := x + ":" + a;
    var n := |s|;
    assert s[|x|] == ':' && s[|y|] == ':';
    assert forall i :: |x| < i < n ==> s[i] == a[i - |x| - 1];
    assert forall i :: |y| < i < n ==> s[i] == b[i - |y| - 1];
    assert |x| == |y|;
    assert a == s[|x| + 1..] == b;
    assert x == s[..|x|] == y;
  }

  lemma PrintHasNoColon(n: int)
    ensures ':' !in Print(n)
  {
  }

  function OpenAiKey(start: int, end: int, project: string, lineItem: string, idx: nat): string {
    "openai-costs:" + Print(start) + ":" + Print(end) + ":" + project + ":" + lineItem + ":" + Decimal(idx)
  }

  /** The printed key determines the bucket and the position in it, whatever colons the
      project and line-item texts contain. */
  lemma OpenAiKeyInjective(s1: int, e1: int, p1: string, l1: string, i1: nat,
                           s2: int, e2: int, p2: string, l2: string, i2: nat)
    requires OpenAiKey(s1, e1, p1, l1, i1) == OpenAiKey(s2, e2, p2, l2, i2)
    ensures s1 == s2 && e1 == e2 && i1 == i2
  {
    hide Print, Decimal, OpenAiKey;
    var m1, m2 := (p1 + ":" + l1) + ":" + Decimal(i1), (p2 + ":" + l2) + ":" + Decimal(i2);
    OpenAiKeyParts(s1, e1, p1, l1, i1);
    OpenAiKeyParts(s2, e2, p2, l2, i2);
    PrintHasNoColon(s1); PrintHasNoColon(s2); PrintHasNoColon(e1); PrintHasNoColon(e2);
    HeadCancels("openai-costs:", Print(s1) + ":" + (Print(e1) + ":" + m1), Print(s2) + ":" + (Print(e2) + ":" + m2));
    FirstColonSplits(Print(s1), Print(e1) + ":" + m1, Print(s2), Print(e2) + ":" + m2);
    FirstColonSplits(Print(e1), m1, Print(e2), m2);
    LastColonSplits(p1 + ":" + l1, Decimal(i1), p2 + ":" + l2, Decimal(i2));
    PrintInjective(s1, s2);
    PrintInjective(e1, e2);
    DecimalInjective(i1, i2);
  }

  lemma OpenAiKeyParts(start: int, end: int, project: string, lineItem: string, idx: nat)
    ensures OpenAiKey(start, end, project, lineItem, idx)
         == "openai-costs:"
            + (Print(start) + ":" + (Print(end) + ":" + ((project + ":" + lineItem) + ":" + Decimal(idx))))
  {
    hide Print, Decimal;
  }

  lemma HeadCancels(head: string, x: string, y: string)
    requires head + x == head + y
    ensures x == y
  {
    assert x == (head + x)[|head|..];
    assert y == (head + y)[|head|..];
  }

  // --------------------------------------------------------- the OpenAI cost report

  datatype CostLine = CostLine(value: real, currency: string, projectId: string, lineItem: string)
  datatype Bucket = Bucket(start: int, end: int, results: seq<CostLine>)

  function OpenAiItem(b: Bucket, idx: nat): Item
    requires idx < |b.results|
  {
    var l := b.results[idx];
    Item(b.start, b.end, OpenAiKey(b.start, b.end, l.projectId, l.lineItem, idx), l.value,
         map["currency" := l.currency, "project_id" := l.projectId, "line_item" := l.lineItem])
  }

  function BucketItems(b: Bucket, from: nat): (r: seq<Item>)
    requires from <= |b.results|
    ensures |r| == |b.results| - from && forall i :: 0 <= i < |r| ==> r[i] == OpenAiItem(b, from + i)
    decreases |b.results| - from
  {
    if from == |b.results| then [] else [OpenAiItem(b, from)] + BucketItems(b, from + 1)
  }

  function PayloadItems(data: seq<Bucket>): seq<Item> {
    if data == [] then [] else BucketItems(data[0], 0) + PayloadItems(data[1..])
  }

  lemma {:induction false} ItemOrigin(data: seq<Bucket>, it: Item) returns (b: nat, idx: nat)
    requires it in PayloadItems(data)
    ensures b < |data| && idx < |data[b].results| && it == OpenAiItem(data[b], idx)
  {
    hide OpenAiItem;
    if it in BucketItems(data[0], 0) {
      b := 0;
      idx :| 0 <= idx < |data[0].results| && BucketItems(data[0], 0)[idx] == it;
    } else {
      b, idx := ItemOrigin(data[1..], it);
      b := b + 1;
    }
  }

  /** Buckets of a report cover different periods. */
  predicate DistinctBuckets(data: seq<Bucket>) {
    forall i, j :: 0 <= i < j < |data| ==> data[i].start != data[j].start || data[i].end != data[j].end
  }

  lemma {:induction false} PayloadKeysDistinct(data: seq<Bucket>)
    requires DistinctBuckets(data)
    ensures forall i, j :: 0 <= i < j < |PayloadItems(data)| ==>
              !SameKey(PayloadItems(data)[i], PayloadItems(data)[j])
  {
    if data != [] {
      hide OpenAiKey;
      var first, rest := BucketItems(data[0], 0), PayloadItems(data[1..]);
      var items := PayloadItems(data);
      forall i, j | 0 <= i < j < |data[1..]|
        ensures data[1..][i].start != data[1..][j].start || data[1..][i].end != data[1..][j].end
      {
        assert data[1..][i] == data[i + 1] && data[1..][j] == data[j + 1];
      }
      PayloadKeysDistinct(data[1..]);
      forall i, j | 0 <= i < j < |items| ensures !SameKey(items[i], items[j]) {
        if j < |first| {
          SameBucketKeysDiffer(data[0], i, j);
        } else if i < |first| {
          assert items[j] == rest[j - |first|];
          var b, _ := ItemOrigin(data[1..], items[j]);
          assert data[1..][b] == data[b + 1];
        } else {
          assert items[i] == rest[i - |first|] && items[j] == rest[j - |first|];
        }
      }
    }
  }

  lemma SameBucketKeysDiffer(b: Bucket, i: nat, j: nat)
    requires i < j < |b.results|
    ensures !SameKey(OpenAiItem(b, i), OpenAiItem(b, j))
  {
    var l, m := b.results[i], b.results[j];
    if OpenAiItem(b, i).key == OpenAiItem(b, j).key {
      OpenAiKeyInjective(b.start, b.end, l.projectId, l.lineItem, i, b.start, b.end, m.projectId, m.lineItem, j);
    }
  }

  function Total(items: seq<Item>): real {
    if items == [] then 0.0 else items[0].amount + Total(items[1..])
  }

  lemma {:induction false} TotalOfItemRows(o: Origin, items: seq<Item>)
    ensures Sum(ItemRows(o, items), (r: Row) => r.cost) == Total(items)
  {
    if items != [] {
      assert ItemRows(o, items)[1..] == ItemRows(o, items[1..]);
      TotalOfItemRows(o, items[1..]);
    }
  }

  /** A report of distinct buckets imported into an empty ledger is stored line by line:
      nothing is taken for a duplicate and the ledger carries the full total. */
  lemma FreshPayloadFullyImported(o: Origin, data: seq<Bucket>)
    requires DistinctBuckets(data)
    ensures ImportAll([], o, PayloadItems(data)) == ItemRows(o, PayloadItems(data))
    ensures Sum(ImportAll([], o, PayloadItems(data)), (r: Row) => r.cost) == Total(PayloadItems(data))
  {
    PayloadKeysDistinct(data);
    DistinctItemsAllStored([], o, PayloadItems(data));
    assert [] + ItemRows(o, PayloadItems(data)) == ItemRows(o, PayloadItems(data));
    TotalOfItemRows(o, PayloadItems(data));
  }

  // ------------------------------------------------------ the Anthropic cost report

  /** The amount is None when the decimal string does not parse; such lines are passed over. */
  datatype ReportLine = ReportLine(cents: Option<real>, currency: string, costType: string, description: string,
                                   model: string, workspaceId: string, tokenType: string)
  datatype ReportBucket = ReportBucket(startingAt: string, start: Instant, end: Instant, results: seq<ReportLine>)
  datatype Page = Page(data: seq<ReportBucket>, hasMore: bool, nextPage: string)

  const MAX_PAGES := 40

  function AnthropicKey(b: ReportBucket, l: ReportLine, idx: nat): string {
    LineTexts(b, l) + ":" + Decimal(idx)
  }

  function LineTexts(b: ReportBucket, l: ReportLine): string {
    "anthropic-cost:" + b.startingAt + ":" + l.workspaceId + ":" + l.description + ":" + l.costType + ":" + l.tokenType
  }

  function LineItems(b: ReportBucket, idx: nat, names: map<string, string>): seq<Item>
    requires idx < |b.results|
  {
    var l := b.results[idx];
    if l.cents.None? then []
    else
      [Item(b.start, b.end, AnthropicKey(b, l, idx), l.cents.value / 100.0,
            map["currency" := l.currency, "workspace_id" := l.workspaceId,
                "workspace" := if l.workspaceId in names then names[l.workspaceId] else "",
                "description" := l.description, "model" := l.model, "cost_type" := l.costType])]
  }

  function ReportItems(b: ReportBucket, from: nat, names: map<string, string>): seq<Item>
    requires from <= |b.results|
    decreases |b.results| - from
  {
    if from == |b.results| then [] else LineItems(b, from, names) + ReportItems(b, from + 1, names)
  }

  function DataItems(data: seq<ReportBucket>, names: map<string, string>): seq<Item> {
    if data == [] then [] else ReportItems(data[0], 0, names) + DataItems(data[1..], names)
  }

  predicate LastPage(p: Page) {
    !p.hasMore || Blank(p.nextPage)
  }

  /** The items on the pages an import follows from a cursor, at most n pages of them. */
  function PagedItems(server: string -> Page, cursor: string, n: nat, names: map<string, string>): seq<Item>
    decreases n
  {
    if n == 0 then []
    else
      var p := server(cursor);
      DataItems(p.data, names) + (if LastPage(p) then [] else PagedItems(server, p.nextPage, n - 1, names))
  }

  /** The buckets of the pages an import follows, in order. */
  function PagedBuckets(server: string -> Page, cursor: string, n: nat): seq<ReportBucket>
    decreases n
  {
    if n == 0 then []
    else
      var p := server(cursor);
      p.data + (if LastPage(p) then [] else PagedBuckets(server, p.nextPage, n - 1))
  }

  lemma {:induction false} DataItemsConcat(a: seq<ReportBucket>, b: seq<ReportBucket>, names: map<string, string>)
    ensures DataItems(a + b, names) == DataItems(a, names) + DataItems(b, names)
  {
    hide ReportItems;
    if a == [] {
      assert a + b == b;
    } else {
      assert (a + b)[1..] == a[1..] + b;
      DataItemsConcat(a[1..], b, names);
    }
  }

  lemma {:induction false} PagesHoldBuckets(server: string -> Page, cursor: string, n: nat, names: map<string, string>)
    ensures PagedItems(server, cursor, n, names) == DataItems(PagedBuckets(server, cursor, n), names)
    decreases n
  {
    hide DataItems;
    NoDataNoItems(names);
    if n > 0 {
      var p := server(cursor);
      var more := if LastPage(p) then [] else PagedBuckets(server, p.nextPage, n - 1);
      if !LastPage(p) {
        PagesHoldBuckets(server, p.nextPage, n - 1, names);
      }
      DataItemsConcat(p.data, more, names);
    }
  }

  lemma NoDataNoItems(names: map<string, string>)
    ensures DataItems([], names) == []
  {
  }

  /** An item of a bucket carries its period and, behind the last colon, its position. */
  predicate FromBucket(b: ReportBucket, it: Item, idx: nat) {
    && it.start == b.start && it.end == b.end && idx < |b.results|
    && it.key == AnthropicKey(b, b.results[idx], idx)
  }

  /** A line yields one item at most, and that one carries the line's position. */
  lemma OneLine(b: ReportBucket, idx: nat, names: map<string, string>)
    requires idx < |b.results|
    ensures |LineItems(b, idx, names)| <= 1
    ensures forall k :: 0 <= k < |LineItems(b, idx, names)| ==> FromBucket(b, LineItems(b, idx, names)[k], idx)
  {
    hide AnthropicKey;
  }

  lemma {:induction false} BucketItemOrigin(b: ReportBucket, from: nat, names: map<string, string>, k: nat)
    returns (idx: nat)
    requires from <= |b.results| && k < |ReportItems(b, from, names)|
    ensures from <= idx && FromBucket(b, ReportItems(b, from, names)[k], idx)
    decreases |b.results| - from
  {
    hide AnthropicKey, LineItems, FromBucket;
    var first := LineItems(b, from, names);
    OneLine(b, from, names);
    if k < |first| {
      idx := from;
    } else {
      idx := BucketItemOrigin(b, from + 1, names, k - |first|);
    }
  }

  lemma {:induction false} BucketKeysDiffer(b: ReportBucket, from: nat, names: map<string, string>, i: nat, j: nat)
    requires from <= |b.results| && i < j < |ReportItems(b, from, names)|
    ensures !SameKey(ReportItems(b, from, names)[i], ReportItems(b, from, names)[j])
    decreases |b.results| - from
  {
    hide AnthropicKey, LineItems;
    var first := LineItems(b, from, names);
    OneLine(b, from, names);
    if i < |first| {
      var idx := BucketItemOrigin(b, from + 1, names, j - |first|);
      PositionsDiffer(b, from, idx);
    } else {
      BucketKeysDiffer(b, from + 1, names, i - |first|, j - |first|);
    }
  }

  lemma PositionsDiffer(b: ReportBucket, i: nat, j: nat)
    requires i < |b.results| && j < |b.results| && i != j
    ensures AnthropicKey(b, b.results[i], i) != AnthropicKey(b, b.results[j], j)
  {
    hide Decimal;
    var l, m := b.results[i], b.results[j];
    if AnthropicKey(b, l, i) == AnthropicKey(b, m, j) {
      DecimalHasNoColon(i); DecimalHasNoColon(j);
      LastColonSplits(LineTexts(b, l), Decimal(i), LineTexts(b, m), Decimal(j));
      DecimalInjective(i, j);
    }
  }

  lemma DecimalHasNoColon(n: nat)
    ensures ':' !in Decimal(n)
  {
  }

  lemma {:induction false} DataItemOrigin(data: seq<ReportBucket>, names: map<string, string>, k: nat)
    returns (b: nat, idx: nat)
    requires k < |DataItems(data, names)|
    ensures b < |data| && FromBucket(data[b], DataItems(data, names)[k], idx)
  {
    hide ReportItems, FromBucket;
    var first := ReportItems(data[0], 0, names);
    if k < |first| {
      b := 0;
      idx := BucketItemOrigin(data[0], 0, names, k);
    } else {
      b, idx := DataItemOrigin(data[1..], names, k - |first|);
      b := b + 1;
    }
  }

  predicate DistinctPeriods(data: seq<ReportBucket>) {
    forall i, j :: 0 <= i < j < |data| ==> data[i].start != data[j].start || data[i].end != data[j].end
  }

  /** The lines of a report of distinct periods have pairwise different keys, whatever its
      texts contain: the lookup compares the period, and the position tells the lines of
      one period apart. */
  lemma {:induction false} ReportKeysDistinct(data: seq<ReportBucket>, names: map<string, string>, i: nat, j: nat)
    requires DistinctPeriods(data) && i < j < |DataItems(data, names)|
    ensures !SameKey(DataItems(data, names)[i], DataItems(data, names)[j])
  {
    hide ReportItems, AnthropicKey;
    var first, rest := ReportItems(data[0], 0, names), data[1..];
    forall p, q | 0 <= p < q < |rest| ensures rest[p].start != rest[q].start || rest[p].end != rest[q].end {
      assert rest[p] == data[p + 1] && rest[q] == data[q + 1];
    }
    if j < |first| {
      BucketKeysDiffer(data[0], 0, names, i, j);
    } else if i < |first| {
      var p := BucketItemOrigin(data[0], 0, names, i);
      var b, q := DataItemOrigin(rest, names, j - |first|);
      assert rest[b] == data[b + 1];
    } else {
      ReportKeysDistinct(rest, names, i - |first|, j - |first|);
    }
  }

  /** A paged report of distinct periods imported into an empty ledger is stored line by
      line: nothing is taken for a duplicate and the ledger carries the full total. */
  lemma FreshReportFullyImported(o: Origin, server: string -> Page, names: map<string, string>)
    requires DistinctPeriods(PagedBuckets(server, "", 40))
    ensures var items := PagedItems(server, "", 40, names);
            && ImportAll([], o, items) == ItemRows(o, items)
            && Sum(ImportAll([], o, items), (r: Row) => r.cost) == Total(items)
  {
    hide PagedItems, PagedBuckets, DataItems, ImportAll, Total;
    var items, data := PagedItems(server, "", MAX_PAGES, names), PagedBuckets(server, "", MAX_PAGES);
    PagesHoldBuckets(server, "", MAX_PAGES, names);
    forall i, j | 0 <= i < j < |items| ensures !SameKey(items[i], items[j]) {
      ReportKeysDistinct(data, names, i, j);
    }
    DistinctItemsAllStored([], o, items);
    assert [] + ItemRows(o, items) == ItemRows(o, items);
    TotalOfItemRows(o, items);
  }

  // -------------------------------------------------------------- the import loops

  datatype Fault = Fine | LookupFails | InsertFails
  datatype ImportError = LookupError | InsertError | FetchError

  /** The usage table and the importers that write it. Which database and network calls
      fail is decided from outside: `faults` by the number of items handled so far,
      `outage` by the number of pages fetched. */
  class UsageStore {
    var rows: seq<Row>
    var imported: nat
    var skipped: nat

    constructor ()
      ensures rows == [] && imported == 0 && skipped == 0
    {
      rows, imported, skipped := [], 0, 0;
    }

    /** One item: skip it if its key is known, otherwise insert it. */
    method ImportOne(o: Origin, it: Item, fault: Fault) returns (err: Option<ImportError>)
      modifies this
      ensures err.None? ==> rows == ImportItem(old(rows), o, it)
      ensures err.None? ==> if Known(old(rows), o, it)
                            then imported == old(imported) && skipped == old(skipped) + 1
                            else imported == old(imported) + 1 && skipped == old(skipped)
      ensures err.Some? ==> rows == old(rows) && imported == old(imported) && skipped == old(skipped)
      ensures err.Some? <==> fault == LookupFails || (fault == InsertFails && !Known(old(rows), o, it))
    {
      if fault == LookupFails {
        return Some(LookupError);
      }
      if exists r :: r in rows && SameImport(r, o.providerId, it.start, it.end, it.key) {
        skipped := skipped + 1;
        return None;
      }
      if fault == InsertFails {
        return Some(InsertError);
      }
      rows := rows + [ItemRow(o, it)];
      imported := imported + 1;
      err := None;
    }

    /** The first `done` items were handled, starting from the rows `start`. */
    ghost predicate Progress(start: seq<Row>, o: Origin, items: seq<Item>, done: nat)
      reads this
    {
      && done <= |items|
      && rows == ImportAll(start, o, items[..done])
      && imported + skipped == done
      && imported == |rows| - |start|
    }

    method HandleItem(o: Origin, it: Item, fault: Fault,
                      ghost start: seq<Row>, ghost items: seq<Item>, ghost done: nat, ghost rest: seq<Item>)
      returns (err: Option<ImportError>)
      requires Progress(start, o, items, done) && items[done..] == [it] + rest
      modifies this
      ensures err.None? ==> Progress(start, o, items, done + 1) && items[done + 1..] == rest
      ensures err.Some? ==> Progress(start, o, items, done)
      ensures fault == Fine ==> err.None?
    {
      assert items[done] == items[done..][0] && items[done + 1..] == items[done..][1..];
      err := ImportOne(o, it, fault);
      NextItemDone(start, o, items, done);
    }

    /** A run handles a prefix of the items, all of them unless it fails; the two counters
        add up to the items handled, and Imported counts the new rows. */
    method ImportOpenAiCosts(o: Origin, data: seq<Bucket>, faults: nat -> Fault)
      returns (err: Option<ImportError>, ghost done: nat)
      modifies this
      ensures Progress(old(rows), o, PayloadItems(data), done)
      ensures err.None? ==> done == |PayloadItems(data)|
      ensures (forall n :: faults(n) == Fine) ==> err.None?
    {
      hide ImportAll, OpenAiItem;
      imported, skipped, done := 0, 0, 0;
      NothingDone(rows, o, PayloadItems(data));
      for b := 0 to |data|
        invariant Progress(old(rows), o, PayloadItems(data), done)
        invariant PayloadItems(data)[done..] == PayloadItems(data[b..])
      {
        var bucket := data[b];
        assert data[b..][0] == bucket && data[b..][1..] == data[b + 1..];
        ghost var after := PayloadItems(data[b + 1..]);
        for idx := 0 to |bucket.results|
          invariant Progress(old(rows), o, PayloadItems(data), done)
          invariant PayloadItems(data)[done..] == BucketItems(bucket, idx) + after
        {
          var it := OpenAiItem(bucket, idx);
          ghost var rest := BucketItems(bucket, idx + 1) + after;
          assert BucketItems(bucket, idx) + after == [it] + rest;
          err := HandleItem(o, it, faults(imported + skipped), old(rows), PayloadItems(data), done, rest);
          if err.Some? {
            return;
          }
          done := done + 1;
        }
        assert BucketItems(bucket, |bucket.results|) + after == after;
      }
      err := None;
    }

    /** The same for a paged report: at most forty pages are followed. */
    method ImportAnthropicCosts(o: Origin, server: string -> Page, names: map<string, string>,
                                outage: nat -> bool, faults: nat -> Fault)
      returns (err: Option<ImportError>, ghost done: nat)
      modifies this
      ensures Progress(old(rows), o, PagedItems(server, "", 40, names), done)
      ensures err.None? ==> done == |PagedItems(server, "", 40, names)|
      ensures (forall n :: faults(n) == Fine && !outage(n)) ==> err.None?
    {
      hide ImportAll, DataItems;
      imported, skipped, done := 0, 0, 0;
      err := None;
      ghost var items := PagedItems(server, "", MAX_PAGES, names);
      NothingDone(rows, o, items);
      var page := "";
      var iter := 0;
      while iter < MAX_PAGES
        invariant 0 <= iter <= MAX_PAGES && err.None?
        invariant Progress(old(rows), o, items, done)
        invariant items[done..] == PagedItems(server, page, MAX_PAGES - iter, names)
      {
        if outage(iter) {
          return Some(FetchError), done;
        }
        var p := server(page);
        ghost var rest := if LastPage(p) then [] else PagedItems(server, p.nextPage, MAX_PAGES - iter - 1, names);
        err, done := ImportPage(o, p.data, names, faults, items, rest, done, old(rows));
        if err.Some? {
          return;
        }
        if !p.hasMore || Blank(p.nextPage) {
          break;
        }
        page := p.nextPage;
        iter := iter + 1;
      }
    }

    /** The lines of one bucket; those whose amount does not parse are passed over. */
    method ImportBucket(o: Origin, bucket: ReportBucket, names: map<string, string>, faults: nat -> Fault,
                        ghost items: seq<Item>, ghost after: seq<Item>, ghost before: nat, ghost start: seq<Row>)
      returns (err: Option<ImportError>, ghost done: nat)
      requires Progress(start, o, items, before) && items[before..] == ReportItems(bucket, 0, names) + after
      modifies this
      ensures Progress(start, o, items, done)
      ensures err.None? ==> items[done..] == after
      ensures (forall n :: faults(n) == Fine) ==> err.None?
    {
      hide ImportAll, LineItems;
      done := before;
      err := None;
      for idx := 0 to |bucket.results|
        invariant Progress(start, o, items, done) && err.None?
        invariant items[done..] == ReportItems(bucket, idx, names) + after
      {
        var line := LineItems(bucket, idx, names);
        ghost var tail := ReportItems(bucket, idx + 1, names) + after;
        assert items[done..] == line + tail;
        if line == [] {
          continue;
        }
        AtMostOneItem(bucket, idx, names);
        err := HandleItem(o, line[0], faults(imported + skipped), start, items, done, tail);
        if err.Some? {
          return;
        }
        done := done + 1;
      }
      assert ReportItems(bucket, |bucket.results|, names) + after == after;
    }

    method ImportPage(o: Origin, data: seq<ReportBucket>, names: map<string, string>, faults: nat -> Fault,
                      ghost items: seq<Item>, ghost rest: seq<Item>, ghost before: nat, ghost start: seq<Row>)
      returns (err: Option<ImportError>, ghost done: nat)
      requires Progress(start, o, items, before) && items[before..] == DataItems(data, names) + rest
      modifies this
      ensures Progress(start, o, items, done)
      ensures err.None? ==> items[done..] == rest
      ensures (forall n :: faults(n) == Fine) ==> err.None?
    {
      hide ReportItems, ImportAll;
      done := before;
      err := None;
      for b := 0 to |data|
        invariant Progress(start, o, items, done) && err.None?
        invariant items[done..] == DataItems(data[b..], names) + rest
      {
        var bucket := data[b];
        assert data[b..][0] == bucket && data[b..][1..] == data[b + 1..];
        ghost var after := DataItems(data[b + 1..], names) + rest;
        assert DataItems(data[b..], names) + rest == ReportItems(bucket, 0, names) + after;
        err, done := ImportBucket(o, bucket, names, faults, items, after, done, start);
        if err.Some? {
          return;
        }
      }
      assert DataItems(data[|data|..], names) + rest == rest;
    }
  }

  lemma AtMostOneItem(b: ReportBucket, idx: nat, names: map<string, string>)
    requires idx < |b.results| && LineItems(b, idx, names) != []
    ensures LineItems(b, idx, names) == [LineItems(b, idx, names)[0]]
  {
  }

  lemma NothingDone(rows: seq<Row>, o: Origin, items: seq<Item>)
    ensures ImportAll(rows, o, items[..0]) == rows
    ensures items[0..] == items
  {
  }

  lemma NextItemDone(rows: seq<Row>, o: Origin, items: seq<Item>, done: nat)
    requires done < |items|
    ensures ImportAll(rows, o, items[..done + 1])
         == ImportItem(ImportAll(rows, o, items[..done]), o, items[done])
  {
    assert items[..done + 1] == items[..done] + [items[done]];
    ImportConcat(rows, o, items[..done], [items[done]]);
    var mid := ImportAll(rows, o, items[..done]);
    assert [items[done]][1..] == [];
    assert ImportAll(mid, o, [items[done]]) == ImportAll(ImportItem(mid, o, items[done]), o, []);
  }
}
