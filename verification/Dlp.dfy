/** Redaction of secrets in gateway prompts: the nine patterns applied to one string, and to
    every string of a JSON tree. */
module Dlp {
  import opened Scanner
  import opened Pipeline
  import opened Patterns

  /** A decoded request body; the i-th key of an object belongs to its i-th value. */
  datatype Json =
    | Null
    | Bool(b: bool)
    | Num(n: real)
    | Str(s: string)
    | Arr(items: seq<Json>)
    | Obj(keys: seq<string>, vals: seq<Json>)

  /** The tree with every string value redacted, and the hits over all of them. */
  function Walk(v: Json): (r: (Json, multiset<string>))
    decreases v, 0
  {
    match v
    case Str(s) => var r := Redact(PATTERNS, s); (Str(r.0), r.1)
    case Arr(items) => var r := WalkItems(items); (Arr(r.0), r.1)
    case Obj(keys, vals) => var r := WalkItems(vals); (Obj(keys, r.0), r.1)
    case _ => (v, multiset{})
  }

  function WalkItems(items: seq<Json>): (r: (seq<Json>, multiset<string>))
    decreases items
  {
    if items == [] then ([], multiset{})
    else
      var here := Walk(items[0]);
      var rest := WalkItems(items[1..]);
      ([here.0] + rest.0, here.1 + rest.1)
  }

  /** Redacting a redacted request body changes nothing and counts no hit. */
  lemma {:induction false} WalkIsIdempotent(v: Json)
    ensures Walk(Walk(v).0) == (Walk(v).0, multiset{})
    decreases v, 0
  {
    match v
    case Str(s) =>
      hide PATTERNS, Redact;
      PatternsOrderly();
      RedactIsIdempotent(PATTERNS, s);
    case Arr(items) => WalkItemsIdempotent(items);
    case Obj(_, vals) => WalkItemsIdempotent(vals);
    case _ =>
  }

  lemma {:induction false} WalkItemsIdempotent(items: seq<Json>)
    ensures WalkItems(WalkItems(items).0) == (WalkItems(items).0, multiset{})
    decreases items
  {
    if items != [] {
      WalkIsIdempotent(items[0]);
      WalkItemsIdempotent(items[1..]);
      var out := WalkItems(items).0;
      assert out[0] == Walk(items[0]).0 && out[1..] == WalkItems(items[1..]).0;
    }
  }

  /** The hit counts the source keeps in a map: how often each pattern matched. */
  class Hits {
    var counts: multiset<string>

    constructor ()
      ensures counts == multiset{}
    {
      counts := multiset{};
    }
  }

  method RedactDlpString(text: string, hits: Hits) returns (s: string)
    modifies hits
    ensures s == Redact(PATTERNS, text).0
    ensures hits.counts == old(hits.counts) + Redact(PATTERNS, text).1
  {
    hide Scan;
    s := text;
    for i := 0 to |PATTERNS|
      invariant Redact(PATTERNS[i..], s).0 == Redact(PATTERNS, text).0
      invariant hits.counts + Redact(PATTERNS[i..], s).1 == old(hits.counts) + Redact(PATTERNS, text).1
    {
      var r := Scan(PATTERNS[i], false, s);
      var name := PATTERNS[i].name;
      assert PATTERNS[i..][0] == PATTERNS[i] && PATTERNS[i..][1..] == PATTERNS[i + 1..];
      s := r.0;
      hits.counts := hits.counts[name := hits.counts[name] + r.1];
    }
  }

  /** Returning the original bytes when there is no hit loses no redaction. */
  lemma {:induction false} NoHitsNoChange(v: Json)
    requires Walk(v).1 == multiset{}
    ensures Walk(v).0 == v
    decreases v, 0
  {
    match v
    case Str(s) => RedactWithoutHits(PATTERNS, s);
    case Arr(items) => NoHitsNoChangeEach(items);
    case Obj(_, vals) => NoHitsNoChangeEach(vals);
    case _ =>
  }

  lemma {:induction false} NoHitsNoChangeEach(items: seq<Json>)
    requires WalkItems(items).1 == multiset{}
    ensures WalkItems(items).0 == items
    decreases items
  {
    if items != [] {
      assert Walk(items[0]).1 <= WalkItems(items).1 && WalkItems(items[1..]).1 <= WalkItems(items).1;
      NoHitsNoChange(items[0]);
      NoHitsNoChangeEach(items[1..]);
    }
  }

  /** The string values of a tree. */
  function Strings(v: Json): set<string>
    decreases v, 0
  {
    match v
    case Str(s) => {s}
    case Arr(items) => StringsOf(items)
    case Obj(_, vals) => StringsOf(vals)
    case _ => {}
  }

  function StringsOf(items: seq<Json>): set<string>
    decreases items
  {
    if items == [] then {} else Strings(items[0]) + StringsOf(items[1..])
  }

  /** No string of a redacted body contains a match of any pattern but the last, at any
      position; of the last, a scan of the string finds none that it would redact. */
  lemma {:induction false} RedactedBodyIsFree(v: Json, s: string, i: nat)
    requires s in Strings(Walk(v).0) && i < |PATTERNS|
    ensures Scan(PATTERNS[i], false, s) == (s, 0)
    ensures i < 8 ==> NoMatch(PATTERNS[i], false, s)
    decreases v, 0
  {
    match v
    case Str(t) =>
      PatternsOrderly();
      PatternCount();
      hide *;
      RedactedStringIsFree(v, t, s, i);
    case Arr(items) => RedactedItemsAreFree(items, s, i);
    case Obj(_, vals) => RedactedItemsAreFree(vals, s, i);
    case _ =>
  }

  lemma RedactedStringIsFree(v: Json, t: string, s: string, i: nat)
    requires v == Str(t) && s in Strings(Walk(v).0) && i < |PATTERNS|
    ensures Scan(PATTERNS[i], false, s) == (s, 0)
    ensures i < 8 ==> NoMatch(PATTERNS[i], false, s)
  {
    PatternsOrderly();
    PatternCount();
    assert s == Redact(PATTERNS, t).0;
    hide *;
    StageIsSilentAfterwards(PATTERNS, t, i);
  }

  lemma {:induction false} RedactedItemsAreFree(items: seq<Json>, s: string, i: nat)
    requires s in StringsOf(WalkItems(items).0) && i < |PATTERNS|
    ensures Scan(PATTERNS[i], false, s) == (s, 0)
    ensures i < 8 ==> NoMatch(PATTERNS[i], false, s)
    decreases items
  {
    hide Scan, NoMatch, PATTERNS;
    if items != [] {
      var out := WalkItems(items).0;
      assert out[0] == Walk(items[0]).0 && out[1..] == WalkItems(items[1..]).0;
      if s in Strings(out[0]) {
        RedactedBodyIsFree(items[0], s, i);
      } else {
        RedactedItemsAreFree(items[1..], s, i);
      }
    }
  }

  /** A prompt that contains no token yet can be recovered from its redaction and the texts
      removed by the nine patterns: nothing else was touched. */
  lemma PromptSurvivesRedaction(s: string)
    ensures (forall p :: p in PATTERNS ==> Unmarked(p.name, s)) ==>
              FillAll(PATTERNS, Redact(PATTERNS, s).0, RemovedAll(PATTERNS, s)) == s
  {
    hide *;
    if exists p :: p in PATTERNS && !Unmarked(p.name, s) {
      return;
    }
    forall p | p in PATTERNS ensures WellBehaved(p) && NoBrackets(p.name) && Unmarked(p.name, s) {
      var i :| 0 <= i < |PATTERNS| && PATTERNS[i] == p;
      PatternWellBehaved(i);
      PatternNamesPlain(i);
      PlainHasNoBrackets(i);
    }
    forall i, j | 0 <= i < j < |PATTERNS| ensures PATTERNS[i].name != PATTERNS[j].name {
      PatternNamesDistinct(i, j);
    }
    RedactionKeepsTheRest(PATTERNS, s);
  }
}
