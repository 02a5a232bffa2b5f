/** The redacting walk as it runs: over a decoded body whose arrays and objects are
    overwritten in place, and what the gateway then forwards. */
module DlpTree {
  import opened Text
  import opened Dlp

  /** A decoded value. Arrays and objects live on the heap; an object's i-th key belongs to
      its i-th cell, the keys standing in the order in which they are visited. */
  datatype Node = Scalar(v: Json) | Text(s: string) | List(cells: array<Node>)
                | Object(keys: seq<string>, cells: array<Node>)

  predicate IsScalar(v: Json) {
    v.Null? || v.Bool? || v.Num?
  }

  /** Which heap cells a node is made of. */
  datatype Shape = Leaf | Branch(cells: array<Node>, kids: seq<Shape>)

  ghost function Objects(sh: Shape): set<object> {
    match sh
    case Leaf => {}
    case Branch(cells, kids) => {cells} + set k, o | 0 <= k < |kids| && o in Objects(kids[k]) :: o
  }

  /** A freshly decoded tree shares nothing. */
  ghost predicate Unshared(sh: Shape) {
    match sh
    case Leaf => true
    case Branch(cells, kids) =>
      && (forall k :: 0 <= k < |kids| ==> Unshared(kids[k]) && cells !in Objects(kids[k]))
      && (forall j, k :: 0 <= j < k < |kids| ==> Objects(kids[j]) !! Objects(kids[k]))
  }

  ghost predicate CellsHold(cells: array<Node>, kids: seq<Shape>, items: seq<Json>)
    reads Objects(Branch(cells, kids))
    decreases kids, 0
  {
    && cells.Length == |kids| == |items|
    && forall k :: 0 <= k < |kids| ==> Represents(cells[k], kids[k], items[k])
  }

  /** In the current heap, the node stands for the value v. */
  ghost predicate Represents(n: Node, sh: Shape, v: Json)
    reads Objects(sh)
    decreases sh
  {
    match n
    case Scalar(w) => sh.Leaf? && v == w && IsScalar(w)
    case Text(s) => sh.Leaf? && v == Str(s)
    case List(cells) =>
      sh.Branch? && sh.cells == cells && v.Arr? && CellsHold(cells, sh.kids, v.items)
    case Object(keys, cells) =>
      sh.Branch? && sh.cells == cells && v.Obj? && v.keys == keys && CellsHold(cells, sh.kids, v.vals)
  }

  method WalkRedact(n: Node, ghost sh: Shape, ghost v: Json, hits: Hits) returns (out: Node)
    requires Represents(n, sh, v) && Unshared(sh) && hits !in Objects(sh)
    modifies Objects(sh), hits
    ensures Represents(out, sh, Walk(v).0)
    ensures hits.counts == old(hits.counts) + Walk(v).1
    ensures n.List? || n.Object? ==> out == n
    decreases sh, 1
  {
    match n
    case Text(s) =>
      var t := RedactDlpString(s, hits);
      out := Text(t);
    case List(cells) =>
      WalkCells(cells, sh.kids, v.items, hits);
      out := n;
    case Object(keys, cells) =>
      WalkCells(cells, sh.kids, v.vals, hits);
      out := n;
    case Scalar(_) =>
      out := n;
  }

  /** The two range loops of the walk: each cell is overwritten by its redaction. */
  method WalkCells(cells: array<Node>, ghost kids: seq<Shape>, ghost items: seq<Json>, hits: Hits)
    requires CellsHold(cells, kids, items) && Unshared(Branch(cells, kids)) && hits !in Objects(Branch(cells, kids))
    modifies Objects(Branch(cells, kids)), hits
    ensures CellsHold(cells, kids, WalkItems(items).0)
    ensures hits.counts == old(hits.counts) + WalkItems(items).1
    decreases Branch(cells, kids), 0
  {
    hide Walk, WalkItems, Represents, Objects, Unshared;
    UnsharedParts(cells, kids);
    WalkItemsEach(items);
    assert items[0..] == items;
    for i := 0 to cells.Length
      invariant forall k :: 0 <= k < i ==> Represents(cells[k], kids[k], WalkItems(items).0[k])
      invariant forall k :: i <= k < |kids| ==> Represents(cells[k], kids[k], items[k])
      invariant hits.counts + WalkItems(items[i..]).1 == old(hits.counts) + WalkItems(items).1
    {
      HitsAddUp(items, i);
      forall k | 0 <= k < |kids| ensures forall o :: o in Objects(kids[k]) ==> allocated(o) {
        ObjectsExist(kids[k]);
      }
      var x := WalkRedact(cells[i], kids[i], items[i], hits);
      cells[i] := x;
    }
    HitsAddUp(items, cells.Length);
  }

  lemma {:induction false} ObjectsExist(sh: Shape)
    ensures forall o :: o in Objects(sh) ==> allocated(o)
  {
    match sh
    case Leaf =>
    case Branch(cells, kids) =>
      forall k | 0 <= k < |kids| ensures forall o :: o in Objects(kids[k]) ==> allocated(o) {
        ObjectsExist(kids[k]);
      }
  }

  lemma UnsharedParts(cells: array<Node>, kids: seq<Shape>)
    requires Unshared(Branch(cells, kids))
    ensures cells in Objects(Branch(cells, kids))
    ensures forall k :: 0 <= k < |kids| ==>
              Unshared(kids[k]) && cells !in Objects(kids[k]) && Objects(kids[k]) <= Objects(Branch(cells, kids))
    ensures forall j, k :: 0 <= j < |kids| && 0 <= k < |kids| && j != k ==> Objects(kids[j]) !! Objects(kids[k])
  {
  }

  lemma HitsAddUp(items: seq<Json>, i: nat)
    requires i <= |items|
    ensures i < |items| ==> WalkItems(items[i..]).1 == Walk(items[i]).1 + WalkItems(items[i + 1..]).1
    ensures i == |items| ==> WalkItems(items[i..]).1 == multiset{}
  {
    if i < |items| {
      assert items[i..][0] == items[i] && items[i..][1..] == items[i + 1..];
    }
  }

  lemma {:induction false} WalkItemsEach(items: seq<Json>)
    ensures |WalkItems(items).0| == |items|
    ensures forall k :: 0 <= k < |items| ==> WalkItems(items).0[k] == Walk(items[k]).0
  {
    hide Walk;
    if items != [] {
      WalkItemsEach(items[1..]);
    }
  }

  /** What goes upstream: the original bytes, the encoding of a tree, or nothing. */
  datatype Forward = Original | Encoded(tree: Node) | Blocked

  /** redactDLP and applyGatewayDLP: `parsed` is the decoded body (standing for v), if it is
      JSON, `encodes` says whether the redacted tree can be encoded again, and `hits` is the
      empty table made before decoding. The original is forwarded only if there is nothing
      to redact in it or redaction is off. */
  method ApplyGatewayDlp(enabled: bool, parsed: Option<Node>, ghost sh: Shape, ghost v: Json, encodes: bool, hits: Hits)
    returns (f: Forward)
    requires parsed.Some? ==> Represents(parsed.value, sh, v) && Unshared(sh)
    requires hits.counts == multiset{} && hits !in Objects(sh)
    modifies Objects(sh), hits
    ensures hits.counts == if enabled && parsed.Some? then Walk(v).1 else multiset{}
    ensures f.Original? <==> hits.counts == multiset{}
    ensures f.Blocked? <==> hits.counts != multiset{} && !encodes
    ensures f.Encoded? ==> Represents(f.tree, sh, Walk(v).0) && Walk(Walk(v).0) == (Walk(v).0, multiset{})
    ensures f.Original? && enabled && parsed.Some? ==> Walk(v) == (v, multiset{})
  {
    hide Represents, Walk, Objects, Unshared;
    if !enabled || parsed.None? {
      return Original;
    }
    var redacted := WalkRedact(parsed.value, sh, v, hits);
    if hits.counts == multiset{} {
      NoHitsNoChange(v);
      f := Original;
    } else if !encodes {
      f := Blocked;
    } else {
      WalkIsIdempotent(v);
      f := Encoded(redacted);
    }
  }
}
