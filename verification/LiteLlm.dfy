/** The LiteLLM spend import: one usage row per virtual key, holding the key's lifetime
    total and moved into the current window by every import. */
module LiteLlm {
  import opened Text
  import opened Ids
  import opened Calendar
  import opened Ledger

  /** An access instance joined with its provider, as the import lists it. */
  datatype Key = Key(id: Id, provider: string, active: bool, accessId: string,
                     owner: string, workspace: string, tenant: Option<Id>)

  /** What the import looks for: the cost row of this instance tagged litellm_spend. */
  predicate SpendRowOf(r: Row, id: Id) {
    && r.instance == Some(id) && r.metric == "cost_usd"
    && "source" in r.raw && r.raw["source"] == "litellm_spend"
  }

  /** Position of the first spend row of an instance, if any. */
  function FindSpendRow(rows: seq<Row>, id: Id): (k: Option<nat>)
    ensures k.Some? ==> k.value < |rows| && SpendRowOf(rows[k.value], id)
    ensures k.None? ==> forall i :: 0 <= i < |rows| ==> !SpendRowOf(rows[i], id)
  {
    if rows == [] then None
    else if SpendRowOf(rows[|rows| - 1], id) && FindSpendRow(rows[..|rows| - 1], id).None? then Some(|rows| - 1)
    else FindSpendRow(rows[..|rows| - 1], id)
  }

  function SpendRow(k: Key, providerId: Id, spend: real, now: Instant): Row {
    Row(k.provider, providerId, Some(k.id), Some(k.owner), Some(k.workspace), k.tenant, now, now,
        "cost_usd", spend, spend, map["source" := "litellm_spend", "key_alias" := k.accessId])
  }

  /** What goes wrong with a key during an import: the lookup of its row, the write, both
      or neither. The import goes on regardless. */
  datatype Faults = Faults(unreadable: set<Id>, unwritable: set<Id>)

  /** Storing one key's total. A failing lookup is taken for "no row yet", a failing write
      is ignored. */
  function StoreSpend(rows: seq<Row>, k: Key, providerId: Id, spend: real, now: Instant, f: Faults): seq<Row> {
    var found := FindSpendRow(rows, k.id);
    if k.id in f.unwritable then rows
    else if found.Some? && k.id !in f.unreadable then rows[found.value := Restated(rows[found.value], spend, now)]
    else rows + [SpendRow(k, providerId, spend, now)]
  }

  /** The keys of this provider that are active and report a total. */
  predicate Reports(k: Key, provider: string, usage: map<Id, real>) {
    k.provider == provider && k.active && k.id in usage
  }

  function ImportSpend(rows: seq<Row>, keys: seq<Key>, provider: string, providerId: Id,
                       usage: map<Id, real>, now: Instant, f: Faults): seq<Row>
    decreases |keys|
  {
    if keys == [] then rows
    else
      var k := keys[0];
      var next := if Reports(k, provider, usage) then StoreSpend(rows, k, providerId, usage[k.id], now, f) else rows;
      ImportSpend(next, keys[1..], provider, providerId, usage, now, f)
  }

  function ReportedTotal(keys: seq<Key>, provider: string, usage: map<Id, real>): (r: (nat, real)) {
    if keys == [] then (0, 0.0)
    else
      var rest := ReportedTotal(keys[1..], provider, usage);
      if Reports(keys[0], provider, usage) then (rest.0 + 1, rest.1 + usage[keys[0].id]) else rest
  }

  class SpendStore {
    var rows: seq<Row>

    constructor ()
      ensures rows == []
    {
      rows := [];
    }

    /** `usage` holds the total each key reports (a key whose report fails or is empty is
        absent). */
    method ImportLiteLlmSpend(keys: seq<Key>, provider: string, providerId: Id,
                              usage: map<Id, real>, now: Instant, f: Faults)
      returns (count: nat, total: real)
      modifies this
      ensures rows == ImportSpend(old(rows), keys, provider, providerId, usage, now, f)
      ensures (count, total) == ReportedTotal(keys, provider, usage)
    {
      hide StoreSpend;
      count, total := 0, 0.0;
      for i := 0 to |keys|
        invariant ImportSpend(rows, keys[i..], provider, providerId, usage, now, f)
               == ImportSpend(old(rows), keys, provider, providerId, usage, now, f)
        invariant count + ReportedTotal(keys[i..], provider, usage).0 == ReportedTotal(keys, provider, usage).0
        invariant total + ReportedTotal(keys[i..], provider, usage).1 == ReportedTotal(keys, provider, usage).1
      {
        var k := keys[i];
        assert keys[i..][0] == k && keys[i..][1..] == keys[i + 1..];
        if k.provider != provider || !k.active {
          continue;
        }
        if k.id !in usage {
          continue;
        }
        var spend := usage[k.id];
        count := count + 1;
        total := total + spend;
        rows := StoreSpend(rows, k, providerId, spend, now, f);
      }
    }
  }

  // ----------------------------------------------------------------- counted once

  ghost predicate OneSpendRow(rows: seq<Row>, id: Id) {
    forall i, j :: 0 <= i < j < |rows| ==> !(SpendRowOf(rows[i], id) && SpendRowOf(rows[j], id))
  }

  ghost predicate CountedOnce(rows: seq<Row>) {
    forall id: Id :: OneSpendRow(rows, id)
  }

  ghost predicate HoldsTotal(rows: seq<Row>, id: Id, spend: real, now: Instant) {
    exists i :: 0 <= i < |rows| && SpendRowOf(rows[i], id)
      && rows[i].cost == spend && rows[i].quantity == spend && rows[i].start == rows[i].end == now
  }

  /** Storing a total keeps the number of spend rows of its key at one, exactly unless
      the lookup of an existing row fails and the write does not; a write that fails leaves
      all rows as they were. */
  lemma StoreKeepsOneRow(rows: seq<Row>, k: Key, providerId: Id, spend: real, now: Instant, f: Faults)
    requires OneSpendRow(rows, k.id)
    ensures OneSpendRow(StoreSpend(rows, k, providerId, spend, now, f), k.id)
       <==> !(k.id in f.unreadable && k.id !in f.unwritable && FindSpendRow(rows, k.id).Some?)
    ensures k.id in f.unwritable ==> StoreSpend(rows, k, providerId, spend, now, f) == rows
  {
    var out := StoreSpend(rows, k, providerId, spend, now, f);
    var found := FindSpendRow(rows, k.id);
    if k.id in f.unwritable {
    } else if found.Some? && k.id !in f.unreadable {
      assert out[found.value] == Restated(rows[found.value], spend, now);
      assert forall i :: 0 <= i < |rows| ==> (SpendRowOf(out[i], k.id) <==> SpendRowOf(rows[i], k.id));
    } else {
      assert out[|rows|] == SpendRow(k, providerId, spend, now);
      assert SpendRowOf(out[|rows|], k.id);
      if found.Some? {
        assert out[found.value] == rows[found.value];
      }
    }
  }

  /** A write that does not fail leaves a row with the total, stamped now. */
  lemma StoreHoldsTotal(rows: seq<Row>, k: Key, providerId: Id, spend: real, now: Instant, f: Faults)
    requires k.id !in f.unwritable
    ensures HoldsTotal(StoreSpend(rows, k, providerId, spend, now, f), k.id, spend, now)
  {
    var out, found := StoreSpend(rows, k, providerId, spend, now, f), FindSpendRow(rows, k.id);
    if found.Some? && k.id !in f.unreadable {
      assert out[found.value] == Restated(rows[found.value], spend, now);
    } else {
      assert out[|rows|] == SpendRow(k, providerId, spend, now);
    }
  }

  lemma StoreLeavesOthers(rows: seq<Row>, k: Key, providerId: Id, spend: real, now: Instant, f: Faults, id: Id)
    requires id != k.id
    ensures OneSpendRow(rows, id) ==> OneSpendRow(StoreSpend(rows, k, providerId, spend, now, f), id)
    ensures forall s, t :: HoldsTotal(rows, id, s, t) ==>
              HoldsTotal(StoreSpend(rows, k, providerId, spend, now, f), id, s, t)
    ensures forall i :: 0 <= i < |rows| && !SpendRowOf(rows[i], k.id) ==>
              StoreSpend(rows, k, providerId, spend, now, f)[i] == rows[i]
  {
    var out := StoreSpend(rows, k, providerId, spend, now, f);
    assert forall i :: 0 <= i < |rows| ==> (SpendRowOf(out[i], id) <==> SpendRowOf(rows[i], id));
    forall s, t | HoldsTotal(rows, id, s, t) ensures HoldsTotal(out, id, s, t) {
      var i :| 0 <= i < |rows| && SpendRowOf(rows[i], id)
        && rows[i].cost == s && rows[i].quantity == s && rows[i].start == rows[i].end == t;
      assert out[i] == rows[i];
    }
  }

  predicate DistinctKeys(keys: seq<Key>) {
    forall i, j :: 0 <= i < j < |keys| ==> keys[i].id != keys[j].id
  }

  /** Some key that reports has a row which its lookup fails to find, and the write works. */
  predicate Doubles(rows: seq<Row>, keys: seq<Key>, provider: string, usage: map<Id, real>, f: Faults) {
    exists k :: k in keys && Reports(k, provider, usage)
      && k.id in f.unreadable && k.id !in f.unwritable && FindSpendRow(rows, k.id).Some?
  }

  lemma StoreKeepsOtherRows(rows: seq<Row>, k: Key, providerId: Id, spend: real, now: Instant, f: Faults, id: Id)
    ensures !OneSpendRow(rows, id) ==> !OneSpendRow(StoreSpend(rows, k, providerId, spend, now, f), id)
    ensures id != k.id ==>
              FindSpendRow(StoreSpend(rows, k, providerId, spend, now, f), id).Some? == FindSpendRow(rows, id).Some?
  {
    var out := StoreSpend(rows, k, providerId, spend, now, f);
    assert forall i :: 0 <= i < |rows| && SpendRowOf(rows[i], id) ==> SpendRowOf(out[i], id);
    if id != k.id && FindSpendRow(out, id).Some? {
      var i := FindSpendRow(out, id).value;
      assert SpendRowOf(out[i], id) && i < |rows| && SpendRowOf(rows[i], id);
    }
  }

  /** A second row for a key is there to stay. */
  lemma {:induction false} DoubleStays(rows: seq<Row>, keys: seq<Key>, provider: string, providerId: Id,
                                       usage: map<Id, real>, now: Instant, f: Faults, id: Id)
    requires !OneSpendRow(rows, id)
    ensures !OneSpendRow(ImportSpend(rows, keys, provider, providerId, usage, now, f), id)
    decreases |keys|
  {
    hide OneSpendRow, StoreSpend;
    if keys != [] {
      var k := keys[0];
      if Reports(k, provider, usage) {
        StoreKeepsOtherRows(rows, k, providerId, usage[k.id], now, f, id);
        DoubleStays(StoreSpend(rows, k, providerId, usage[k.id], now, f), keys[1..],
                    provider, providerId, usage, now, f, id);
      } else {
        DoubleStays(rows, keys[1..], provider, providerId, usage, now, f, id);
      }
    }
  }

  lemma DistinctTail(keys: seq<Key>)
    requires DistinctKeys(keys) && keys != []
    ensures DistinctKeys(keys[1..])
    ensures forall q :: q in keys <==> q == keys[0] || q in keys[1..]
    ensures forall q :: q in keys[1..] ==> q.id != keys[0].id
  {
    forall i, j | 0 <= i < j < |keys[1..]| ensures keys[1..][i].id != keys[1..][j].id {
      assert keys[1..][i] == keys[i + 1] && keys[1..][j] == keys[j + 1];
    }
    assert keys == [keys[0]] + keys[1..];
    forall q | q in keys[1..] ensures q.id != keys[0].id {
      var j :| 0 <= j < |keys[1..]| && keys[1..][j] == q;
      assert keys[j + 1] == q;
    }
  }

  /** An import leaves at most one spend row for every key, whatever totals were reported,
      exactly unless for some key a failing lookup meets an existing row and a working write. */
  lemma {:induction false} OneRowUnlessDoubled(rows: seq<Row>, keys: seq<Key>, provider: string, providerId: Id,
                                               usage: map<Id, real>, now: Instant, f: Faults)
    requires CountedOnce(rows) && DistinctKeys(keys)
    ensures CountedOnce(ImportSpend(rows, keys, provider, providerId, usage, now, f))
       <==> !Doubles(rows, keys, provider, usage, f)
    decreases |keys|
  {
    hide OneSpendRow, StoreSpend, FindSpendRow, DistinctKeys;
    if keys != [] {
      var k := keys[0];
      DistinctTail(keys);
      if Reports(k, provider, usage) {
        var next := StoreSpend(rows, k, providerId, usage[k.id], now, f);
        StoreKeepsOneRow(rows, k, providerId, usage[k.id], now, f);
        if k.id in f.unreadable && k.id !in f.unwritable && FindSpendRow(rows, k.id).Some? {
          DoubleStays(next, keys[1..], provider, providerId, usage, now, f, k.id);
        } else {
          forall id: Id | id != k.id
            ensures OneSpendRow(next, id) && FindSpendRow(next, id).Some? == FindSpendRow(rows, id).Some?
          {
            StoreLeavesOthers(rows, k, providerId, usage[k.id], now, f, id);
            StoreKeepsOtherRows(rows, k, providerId, usage[k.id], now, f, id);
          }
          OneRowUnlessDoubled(next, keys[1..], provider, providerId, usage, now, f);
        }
      } else {
        OneRowUnlessDoubled(rows, keys[1..], provider, providerId, usage, now, f);
      }
    }
  }

  /** After an import every key has at most one spend row, exactly unless one was doubled;
      every reporting key whose write works has a row that holds its latest total, stamped
      with the time of the import; and keys not listed keep theirs. */
  lemma {:induction false} SpendCountedOnce(rows: seq<Row>, keys: seq<Key>, provider: string, providerId: Id,
                                            usage: map<Id, real>, now: Instant, f: Faults)
    requires CountedOnce(rows) && DistinctKeys(keys)
    ensures var out := ImportSpend(rows, keys, provider, providerId, usage, now, f);
            && (CountedOnce(out) <==> !Doubles(rows, keys, provider, usage, f))
            && (forall k :: k in keys && Reports(k, provider, usage) && k.id !in f.unwritable ==>
                  HoldsTotal(out, k.id, usage[k.id], now))
            && forall id: Id, s, t :: HoldsTotal(rows, id, s, t) && Unlisted(keys, id) ==> HoldsTotal(out, id, s, t)
  {
    hide OneSpendRow, HoldsTotal, ImportSpend, DistinctKeys, FindSpendRow;
    OneRowUnlessDoubled(rows, keys, provider, providerId, usage, now, f);
    forall k | k in keys && Reports(k, provider, usage) && k.id !in f.unwritable
      ensures HoldsTotal(ImportSpend(rows, keys, provider, providerId, usage, now, f), k.id, usage[k.id], now)
    {
      TotalHeld(rows, keys, provider, providerId, usage, now, f, k);
    }
    forall id: Id, s, t | HoldsTotal(rows, id, s, t) && Unlisted(keys, id)
      ensures HoldsTotal(ImportSpend(rows, keys, provider, providerId, usage, now, f), id, s, t)
    {
      UnlistedKept(rows, keys, provider, providerId, usage, now, f, id, s, t);
    }
  }

  predicate Unlisted(keys: seq<Key>, id: Id) {
    forall k :: k in keys ==> k.id != id
  }

  lemma {:induction false} UnlistedKept(rows: seq<Row>, keys: seq<Key>, provider: string, providerId: Id,
                                        usage: map<Id, real>, now: Instant, f: Faults, id: Id, s: real, t: Instant)
    requires HoldsTotal(rows, id, s, t) && Unlisted(keys, id)
    ensures HoldsTotal(ImportSpend(rows, keys, provider, providerId, usage, now, f), id, s, t)
    decreases |keys|
  {
    hide HoldsTotal, StoreSpend;
    if keys != [] {
      var k := keys[0];
      assert k in keys && Unlisted(keys[1..], id);
      if Reports(k, provider, usage) {
        StoreLeavesOthers(rows, k, providerId, usage[k.id], now, f, id);
        UnlistedKept(StoreSpend(rows, k, providerId, usage[k.id], now, f), keys[1..],
                     provider, providerId, usage, now, f, id, s, t);
      } else {
        UnlistedKept(rows, keys[1..], provider, providerId, usage, now, f, id, s, t);
      }
    }
  }

  lemma {:induction false} TotalHeld(rows: seq<Row>, keys: seq<Key>, provider: string, providerId: Id,
                                     usage: map<Id, real>, now: Instant, f: Faults, k: Key)
    requires DistinctKeys(keys) && k in keys && Reports(k, provider, usage) && k.id !in f.unwritable
    ensures HoldsTotal(ImportSpend(rows, keys, provider, providerId, usage, now, f), k.id, usage[k.id], now)
    decreases |keys|
  {
    hide HoldsTotal, StoreSpend, DistinctKeys;
    var first := keys[0];
    DistinctTail(keys);
    var next := if Reports(first, provider, usage) then StoreSpend(rows, first, providerId, usage[first.id], now, f)
                else rows;
    if k == first {
      StoreHoldsTotal(rows, k, providerId, usage[k.id], now, f);
      UnlistedKept(next, keys[1..], provider, providerId, usage, now, f, k.id, usage[k.id], now);
    } else {
      TotalHeld(next, keys[1..], provider, providerId, usage, now, f, k);
    }
  }

  /** A row stamped at the time of an import is inside every window at that time. */
  lemma StampedRowIsInWindow(z: Zone, rows: seq<Row>, id: Id, spend: real, now: Instant, period: string)
    requires Lawful(z) && HoldsTotal(rows, id, spend, now)
    ensures exists i :: 0 <= i < |rows| && SpendRowOf(rows[i], id) && rows[i].cost == spend
              && rows[i].start >= PeriodStart(z, period, now)
  {
    WindowMovesPast(z, period, now, now);
  }

  /** One spend import of a history, with its own keys, totals, time and faults. */
  datatype SpendImport = SpendImport(keys: seq<Key>, provider: string, providerId: Id, usage: map<Id, real>,
                                     now: Instant, faults: Faults)

  function AfterImport(rows: seq<Row>, i: SpendImport): seq<Row> {
    ImportSpend(rows, i.keys, i.provider, i.providerId, i.usage, i.now, i.faults)
  }

  function AfterImports(rows: seq<Row>, imports: seq<SpendImport>): seq<Row>
    decreases |imports|
  {
    if imports == [] then rows else AfterImports(AfterImport(rows, imports[0]), imports[1..])
  }

  /** At some import of the history a failing lookup meets an existing row and a working
      write. */
  predicate DoublesSomewhere(rows: seq<Row>, imports: seq<SpendImport>)
    decreases |imports|
  {
    imports != [] &&
    var i := imports[0];
    Doubles(rows, i.keys, i.provider, i.usage, i.faults) || DoublesSomewhere(AfterImport(rows, i), imports[1..])
  }

  lemma {:induction false} DoublesForGood(rows: seq<Row>, imports: seq<SpendImport>)
    requires !CountedOnce(rows)
    ensures !CountedOnce(AfterImports(rows, imports))
    decreases |imports|
  {
    hide OneSpendRow;
    if imports != [] {
      var id: Id :| !OneSpendRow(rows, id);
      var i := imports[0];
      DoubleStays(rows, i.keys, i.provider, i.providerId, i.usage, i.now, i.faults, id);
      DoublesForGood(AfterImport(rows, i), imports[1..]);
    }
  }

  /** Over any history of imports, with any faults, every instance has at most one spend row
      exactly unless that happened at some import. */
  lemma {:induction false} OneRowAfterAnyImports(rows: seq<Row>, imports: seq<SpendImport>)
    requires CountedOnce(rows)
    requires forall i :: i in imports ==> DistinctKeys(i.keys)
    ensures CountedOnce(AfterImports(rows, imports)) <==> !DoublesSomewhere(rows, imports)
    decreases |imports|
  {
    hide CountedOnce, DistinctKeys, Doubles;
    if imports != [] {
      var i := imports[0];
      assert i in imports;
      OneRowUnlessDoubled(rows, i.keys, i.provider, i.providerId, i.usage, i.now, i.faults);
      if Doubles(rows, i.keys, i.provider, i.usage, i.faults) {
        DoublesForGood(AfterImport(rows, i), imports[1..]);
      } else {
        OneRowAfterAnyImports(AfterImport(rows, i), imports[1..]);
      }
    }
  }
}
