/** Card numbers in redacted prompts: exactly when one is still there, a condition on the
    prompt under which none is, and a prompt that goes through unchanged. */
module Cards {
  import opened Text
  import opened Scanner
  import opened Pipeline
  import opened Refusals
  import opened Patterns
  import opened Dlp
  import Luhn

  const CARD: Pattern := Pattern("credit_card", CardShape, true, Luhn.Valid)

  lemma CardIsLast()
    ensures |PATTERNS| == 9 && PATTERNS[8] == CARD
  {
  }

  lemma CardBehaves()
    ensures WellBehaved(CARD) && Worded(CARD)
    ensures forall q :: q in PATTERNS ==> Inert(CARD, q.name)
  {
    CardIsLast();
    hide PATTERNS, WellBehaved, Inert, CardShape, IsWord;
    PatternWellBehaved(8);
    forall m | CARD.lang(m) ensures m != [] && IsWord(m[0]) && IsWord(m[|m| - 1]) {
      CardShapeFacts(m);
    }
    forall q | q in PATTERNS ensures Inert(CARD, q.name) {
      var j :| 0 <= j < |PATTERNS| && PATTERNS[j] == q;
      PatternInert(8, j);
    }
  }

  // --------------------------------------------------------------- through the pipeline

  /** The text as the card scan finds it: redacted by the eight other patterns. */
  function BeforeCards(s: string): string {
    Redact(PATTERNS[..|PATTERNS| - 1], s).0
  }

  lemma {:induction false} RedactAppends(ps: seq<Pattern>, q: Pattern, s: string)
    ensures Redact(ps + [q], s).0 == Scan(q, false, Redact(ps, s).0).0
  {
    hide Scan;
    if ps == [] {
      assert [q][1..] == [];
    } else {
      assert (ps + [q])[0] == ps[0] && (ps + [q])[1..] == ps[1..] + [q];
      RedactAppends(ps[1..], q, Scan(ps[0], false, s).0);
    }
  }

  lemma CardsComeLast(s: string)
    ensures Redact(PATTERNS, s).0 == Scan(CARD, false, BeforeCards(s)).0
  {
    CardIsLast();
    hide Scan, Redact, PATTERNS;
    assert PATTERNS == PATTERNS[..8] + [CARD];
    RedactAppends(PATTERNS[..8], CARD, s);
  }

  /** Somewhere in the text stands a card-shaped run that passes the checksum. */
  ghost predicate HoldsCard(t: string) {
    !NoMatch(Accepted(CARD), false, t)
  }

  /** Somewhere in the text stands a card-shaped run that fails the checksum. */
  ghost predicate HasFailingRun(s: string) {
    !NoMatch(Refused(CARD), false, s)
  }

  /** The card scan visits a run that fails the checksum, so steps over the beginning of one
      that passes, and replaces no part of that one later. */
  ghost predicate StepsOverCard(s: string) {
    LeavesBehind(CARD, false, BeforeCards(s))
  }

  /** A redacted string holds a valid card number exactly if the card scan steps over one. */
  lemma CardLeftExactly(s: string)
    ensures HoldsCard(Redact(PATTERNS, s).0) <==> StepsOverCard(s)
  {
    CardIsLast();
    CardsComeLast(s);
    CardBehaves();
    assert CARD in PATTERNS by { assert PATTERNS[8] == CARD; }
    assert StepsOverCard(s) == LeavesBehind(CARD, false, BeforeCards(s));
    assert HoldsCard(Redact(PATTERNS, s).0) == !NoMatch(Accepted(CARD), false, Redact(PATTERNS, s).0);
    hide *;
    LeftExactlyIfSwallowed(CARD, false, BeforeCards(s));
  }

  /** If no card-shaped run of a string fails the checksum, its redaction holds no match of
      any of the nine patterns. */
  lemma NoFailingRunNothingLeft(s: string, i: nat)
    requires !HasFailingRun(s) && i < |PATTERNS|
    ensures NoMatch(PATTERNS[i], false, Redact(PATTERNS, s).0)
  {
    CardIsLast();
    PatternsOrderly();
    assert NoMatch(Refused(CARD), false, s);
    hide *;
    if i < 8 {
      StageIsSilentAfterwards(PATTERNS, s, i);
    } else {
      NoFailingRunNoCard(s);
    }
  }

  lemma NoFailingRunNoCard(s: string)
    requires NoMatch(Refused(CARD), false, s)
    ensures NoMatch(CARD, false, Redact(PATTERNS, s).0)
  {
    var others := PATTERNS[..|PATTERNS| - 1];
    CardIsLast();
    CardBehaves();
    CardsComeLast(s);
    assert CARD in PATTERNS by { assert PATTERNS[8] == CARD; }
    PatternsOrderly();
    assert forall q :: q in others ==> q in PATTERNS && WellBehaved(q) && Inert(CARD, q.name);
    assert Redact(others, s).0 == BeforeCards(s);
    hide *;
    forall q | q in others ensures WellBehaved(q) && Inert(Refused(CARD), q.name) {
      PartsBehave(CARD, q.name);
    }
    PartsBehave(CARD, CARD.name);
    FreeStaysFree(Refused(CARD), others, s);
    NothingRefusedNothingLeft(CARD, false, BeforeCards(s));
  }

  // ------------------------------------------------------------------ through the walk

  /** The strings of a redacted tree are the redactions of its strings. */
  lemma {:induction false} StringsRedacted(v: Json, t: string)
    ensures t in Strings(Walk(v).0) <==> exists s :: s in Strings(v) && t == Redact(PATTERNS, s).0
    decreases v, 0
  {
    hide Redact, PATTERNS;
    match v
    case Str(s) => StringRedacted(s, t);
    case Arr(items) => StringsRedactedEach(items, t);
    case Obj(_, vals) => StringsRedactedEach(vals, t);
    case _ =>
  }

  lemma StringRedacted(s: string, t: string)
    ensures t in Strings(Walk(Str(s)).0) <==> exists u :: u in Strings(Str(s)) && t == Redact(PATTERNS, u).0
  {
    hide Redact, PATTERNS;
    assert Strings(Walk(Str(s)).0) == {Redact(PATTERNS, s).0} && Strings(Str(s)) == {s};
    assert s in Strings(Str(s));
  }

  lemma {:induction false} StringsRedactedEach(items: seq<Json>, t: string)
    ensures t in StringsOf(WalkItems(items).0) <==> exists s :: s in StringsOf(items) && t == Redact(PATTERNS, s).0
    decreases items
  {
    hide Redact, PATTERNS, Walk, Strings;
    if items != [] {
      var out := WalkItems(items).0;
      assert out[0] == Walk(items[0]).0 && out[1..] == WalkItems(items[1..]).0;
      StringsRedacted(items[0], t);
      StringsRedactedEach(items[1..], t);
    }
  }

  /** A redacted body holds a valid card number exactly if in one of its strings the card
      scan steps over one. */
  lemma BodyHoldsCardExactly(v: Json)
    ensures (exists t :: t in Strings(Walk(v).0) && HoldsCard(t)) <==> (exists s :: s in Strings(v) && StepsOverCard(s))
  {
    hide *;
    if exists s :: s in Strings(v) && StepsOverCard(s) {
      var s :| s in Strings(v) && StepsOverCard(s);
      CardLeftExactly(s);
      StringsRedacted(v, Redact(PATTERNS, s).0);
    }
    if exists t :: t in Strings(Walk(v).0) && HoldsCard(t) {
      var t :| t in Strings(Walk(v).0) && HoldsCard(t);
      StringsRedacted(v, t);
      var s :| s in Strings(v) && t == Redact(PATTERNS, s).0;
      CardLeftExactly(s);
    }
  }

  /** If no card-shaped run of the body fails the checksum, the redacted body holds no match
      of any of the nine patterns. */
  lemma NoFailingRunCleanBody(v: Json, t: string, i: nat)
    requires forall s :: s in Strings(v) ==> !HasFailingRun(s)
    requires t in Strings(Walk(v).0) && i < |PATTERNS|
    ensures NoMatch(PATTERNS[i], false, t)
  {
    hide *;
    StringsRedacted(v, t);
    var s :| s in Strings(v) && t == Redact(PATTERNS, s).0;
    NoFailingRunNothingLeft(s, i);
  }

  // --------------------------------------------------- at most one card at each position

  function Count(m: string): nat {
    if m == [] then 0 else (if IsDigit(m[0]) then 1 else 0) + Count(m[1..])
  }

  function Total(sizes: seq<nat>): nat {
    if sizes == [] then 0 else sizes[0] + Total(sizes[1..])
  }

  /** A number of digits after which a group, not the last, is complete. */
  predicate GroupEnd(sizes: seq<nat>, n: nat) {
    |sizes| > 1 && (n == sizes[0] || (n > sizes[0] && GroupEnd(sizes[1..], n - sizes[0])))
  }

  lemma {:induction false} CountConcat(a: string, b: string)
    ensures Count(a + b) == Count(a) + Count(b) && Count(a) <= |a|
  {
    if a == [] {
      assert a + b == b;
    } else {
      assert (a + b)[1..] == a[1..] + b;
      CountConcat(a[1..], b);
    }
  }

  lemma {:induction false} CountDigits(m: string)
    requires All(m, IsDigit)
    ensures Count(m) == |m|
  {
    if m != [] {
      forall i | 0 <= i < |m[1..]| ensures IsDigit(m[1..][i]) {
        assert m[1..][i] == m[i + 1];
      }
      CountDigits(m[1..]);
    }
  }

  /** The first group of a grouped text, the separator behind it if there is one, and the
      rest, which is grouped again. */
  lemma GroupedSplits(m: string, sizes: seq<nat>) returns (gap: string, tail: string)
    requires Grouped(m, sizes) && |sizes| > 1
    ensures sizes[0] < |m| && m == m[..sizes[0]] + (gap + tail) && All(m[..sizes[0]], IsDigit)
    ensures gap == "" || gap == " " || gap == "-"
    ensures Grouped(tail, sizes[1..])
  {
    var rest := m[sizes[0]..];
    if Grouped(rest, sizes[1..]) {
      gap, tail := "", rest;
    } else {
      gap, tail := [rest[0]], rest[1..];
    }
  }

  /** Groups hold as many digits as their sizes say. */
  lemma {:induction false} GroupedCount(m: string, sizes: seq<nat>)
    requires Grouped(m, sizes)
    ensures Count(m) == Total(sizes)
    decreases |sizes|
  {
    if |sizes| <= 1 {
      CountDigits(m);
      assert sizes == [sizes[0]];
    } else {
      var gap, tail := GroupedSplits(m, sizes);
      hide Grouped, Count;
      CountDigits(m[..sizes[0]]);
      CountConcat(m[..sizes[0]], gap + tail);
      CountConcat(gap, tail);
      GapHasNoDigit(gap);
      GroupedCount(tail, sizes[1..]);
    }
  }

  lemma GapHasNoDigit(gap: string)
    requires gap == "" || gap == " " || gap == "-"
    ensures Count(gap) == 0 && |gap| <= 1 && (gap != "" ==> !IsDigit(gap[0]))
  {
  }

  /** Separators stand only between groups. */
  lemma {:induction false} GroupedGaps(m: string, sizes: seq<nat>, a: nat)
    requires Grouped(m, sizes) && a < |m| && !IsDigit(m[a])
    ensures GroupEnd(sizes, Count(m[..a]))
    decreases |sizes|
  {
    if |sizes| > 1 {
      var k := sizes[0];
      var gap, tail := GroupedSplits(m, sizes);
      hide Grouped, Count, GroupEnd;
      var head := m[..k];
      CountDigits(head);
      GapHasNoDigit(gap);
      assert forall i :: 0 <= i < k ==> m[i] == head[i];
      if a < k + |gap| {
        assert m[..a] == head;
        FirstGroupEnds(sizes);
      } else {
        var b := a - k - |gap|;
        assert m[a] == tail[b] && m[..a] == head + (gap + tail[..b]);
        CountConcat(head, gap + tail[..b]);
        CountConcat(gap, tail[..b]);
        GroupedGaps(tail, sizes[1..], b);
        GroupEndGrows(sizes, Count(tail[..b]));
      }
    }
  }

  lemma FirstGroupEnds(sizes: seq<nat>)
    requires |sizes| > 1
    ensures GroupEnd(sizes, sizes[0])
  {
  }

  lemma GroupEndGrows(sizes: seq<nat>, n: nat)
    requires |sizes| > 1 && GroupEnd(sizes[1..], n)
    ensures GroupEnd(sizes, sizes[0] + n)
  {
  }

  lemma CardDigits(m: string, a: nat)
    requires CardShape(m) && a <= |m|
    ensures Count(m) in {15, 16}
    ensures a < |m| && !IsDigit(m[a]) ==> Count(m[..a]) in {4, 8, 10, 12}
  {
    hide Grouped, GroupEnd, Total;
    var sizes := if Grouped(m, [4, 4, 4, 4]) then [4, 4, 4, 4] else [4, 6, 5];
    GroupedCount(m, sizes);
    CardGroups(Count(m[..a]));
    if a < |m| && !IsDigit(m[a]) {
      GroupedGaps(m, sizes, a);
    }
  }

  lemma CardGroups(n: nat)
    ensures Total([4, 4, 4, 4]) == 16 && Total([4, 6, 5]) == 15
    ensures GroupEnd([4, 4, 4, 4], n) ==> n in {4, 8, 12}
    ensures GroupEnd([4, 6, 5], n) ==> n in {4, 10}
  {
    GroupsOf([4, 4, 4, 4], n); GroupsOf([4, 4, 4], n - 4); GroupsOf([4, 4], n - 8); GroupsOf([4], n - 12);
    GroupsOf([4, 6, 5], n); GroupsOf([6, 5], n - 4); GroupsOf([5], n - 10);
    hide GroupEnd, Total;
    assert [4, 4, 4, 4][1..] == [4, 4, 4] && [4, 4, 4][1..] == [4, 4] && [4, 4][1..] == [4] && [4][1..] == [];
    assert [4, 6, 5][1..] == [6, 5] && [6, 5][1..] == [5] && [5][1..] == [];
  }

  lemma GroupsOf(sizes: seq<nat>, n: int)
    requires sizes != []
    ensures Total(sizes) == sizes[0] + Total(sizes[1..]) && Total([]) == 0
    ensures n >= 0 ==>
              GroupEnd(sizes, n)
              == (|sizes| > 1 && (n == sizes[0] || (n > sizes[0] && GroupEnd(sizes[1..], n - sizes[0]))))
  {
  }

  /** At most one card-shaped run starts at a position, so what a failing run swallows starts
      strictly inside it. */
  lemma {:induction false} OneRunPerPosition(prev: bool, s: string, a: nat, b: nat)
    ensures Matches(CARD, prev, s, a) && Matches(CARD, prev, s, b) ==> a == b
  {
    hide Matches;
    if a < b {
      RunEndsRun(prev, s, a, b);
    } else if b < a {
      RunEndsRun(prev, s, b, a);
    }
  }

  lemma RunEndsRun(prev: bool, s: string, a: nat, b: nat)
    ensures Matches(CARD, prev, s, a) && Matches(CARD, prev, s, b) ==> a >= b
  {
    hide CardShape;
    if a < b && Matches(CARD, prev, s, a) && Matches(CARD, prev, s, b) {
      CardShapeFacts(s[..a]);
      assert s[..a][a - 1] == s[a - 1];
      assert s[..b][a] == s[a] && !IsDigit(s[a]);
      assert s[..b][..a] == s[..a];
      CardDigits(s[..a], 0);
      CardDigits(s[..b], a);
    }
  }

  lemma StrictlyInside(prev: bool, s: string)
    ensures Refuses(CARD, prev, s) && Swallowed(CARD, prev, s, Reach(CARD, prev, s)) ==>
              exists i: nat, m: nat :: 0 < i < Reach(CARD, prev, s)
                && Matches(Accepted(CARD), WordBefore(prev, s, i), s[i..], m)
  {
    hide CardShape, Copies;
    if Refuses(CARD, prev, s) && Swallowed(CARD, prev, s, Reach(CARD, prev, s)) {
      var n := Reach(CARD, prev, s);
      var i, m := SwallowedAt(CARD, prev, s, n);
      if i == 0 {
        assert s[0..] == s;
        assert Matches(CARD, prev, s, m);
        OneRunPerPosition(prev, s, m, n);
      }
    }
  }

  // ---------------------------------------------------------- a card that goes through

  const STEPPED_OVER := "1234 4111 1111 1111 1111"

  function Spaced(a: string, b: string, c: string, d: string): string {
    a + (" " + (b + (" " + (c + (" " + d)))))
  }

  predicate FourDigits(g: string) {
    |g| == 4 && All(g, IsDigit)
  }

  function GroupSum(g: string): nat
    requires FourDigits(g)
  {
    Luhn.Weight(Luhn.DigitOf(g[0]), true) + Luhn.DigitOf(g[1])
    + Luhn.Weight(Luhn.DigitOf(g[2]), true) + Luhn.DigitOf(g[3])
  }

  lemma SpacedIsCard(a: string, b: string, c: string, d: string)
    requires FourDigits(a) && FourDigits(b) && FourDigits(c) && FourDigits(d)
    ensures CardShape(Spaced(a, b, c, d))
  {
    hide All;
    var cd := c + (" " + d);
    var bcd := b + (" " + cd);
    GroupJoins(c, d, [4]);
    GroupJoins(b, cd, [4, 4]);
    GroupJoins(a, bcd, [4, 4, 4]);
    assert [4] + [4] == [4, 4] && [4] + [4, 4] == [4, 4, 4] && [4] + [4, 4, 4] == [4, 4, 4, 4];
  }

  lemma GroupJoins(g: string, rest: string, sizes: seq<nat>)
    requires FourDigits(g) && sizes != [] && Grouped(rest, sizes)
    ensures Grouped(g + (" " + rest), [4] + sizes)
  {
    hide All;
    var m := g + (" " + rest);
    assert m[..4] == g && m[4..] == " " + rest && (" " + rest)[0] == ' ' && (" " + rest)[1..] == rest;
    assert ([4] + sizes)[1..] == sizes;
  }

  lemma {:induction false} ChecksumJoins(ds: seq<Luhn.Digit>, es: seq<Luhn.Digit>, alt: bool)
    requires |es| % 2 == 0
    ensures Luhn.Checksum(ds + es, alt) == Luhn.Checksum(ds, alt) + Luhn.Checksum(es, alt)
    decreases |es|
  {
    if es == [] {
      assert ds + es == ds;
    } else {
      var n := |es|;
      var front := es[..n - 2];
      assert (ds + es)[..|ds| + n - 1] == ds + es[..n - 1];
      assert (ds + es[..n - 1])[..|ds| + n - 2] == ds + front && es[..n - 1][..n - 2] == front;
      ChecksumJoins(ds, front, alt);
    }
  }

  lemma GroupChecksum(g: string)
    requires FourDigits(g)
    ensures |Luhn.Digits(g)| == 4 && Luhn.Checksum(Luhn.Digits(g), false) == GroupSum(g)
  {
    assert g == [g[0]] + [g[1]] + [g[2]] + [g[3]];
    assert g[..3][..2] == g[..2] && g[..2][..1] == g[..1] && g[..1][..0] == [];
    var d0, d1, d2, d3 := Luhn.DigitOf(g[0]), Luhn.DigitOf(g[1]), Luhn.DigitOf(g[2]), Luhn.DigitOf(g[3]);
    assert Luhn.Digits(g[..1]) == [d0];
    assert Luhn.Digits(g[..2]) == [d0, d1];
    assert Luhn.Digits(g[..3]) == [d0, d1, d2];
    assert Luhn.Digits(g) == [d0, d1, d2, d3];
    assert [d0, d1, d2, d3][..3] == [d0, d1, d2];
    assert [d0, d1, d2][..2] == [d0, d1] && [d0, d1][..1] == [d0] && [d0][..0] == [];
    assert Luhn.Checksum([d0], true) == Luhn.Weight(d0, true);
    assert Luhn.Checksum([d0, d1], false) == Luhn.Weight(d0, true) + d1;
  }

  lemma SpaceHasNoDigit()
    ensures Luhn.Digits(" ") == []
  {
    assert " "[..0] == [];
  }

  lemma SpacedValid(a: string, b: string, c: string, d: string)
    requires FourDigits(a) && FourDigits(b) && FourDigits(c) && FourDigits(d)
    ensures Luhn.Valid(Spaced(a, b, c, d)) <==> (GroupSum(a) + GroupSum(b) + GroupSum(c) + GroupSum(d)) % 10 == 0
  {
    hide Luhn.Digits, Luhn.Checksum, All, GroupSum;
    var cd := c + (" " + d);
    var bcd := b + (" " + cd);
    GroupChecksum(a); GroupChecksum(b); GroupChecksum(c); GroupChecksum(d);
    GroupAdds(c, d);
    GroupAdds(b, cd);
    GroupAdds(a, bcd);
  }

  lemma GroupAdds(g: string, rest: string)
    requires FourDigits(g) && |Luhn.Digits(rest)| % 2 == 0
    ensures |Luhn.Digits(g + (" " + rest))| == 4 + |Luhn.Digits(rest)|
    ensures Luhn.Checksum(Luhn.Digits(g + (" " + rest)), false) == GroupSum(g) + Luhn.Checksum(Luhn.Digits(rest), false)
  {
    hide Luhn.Digits, Luhn.Checksum, All, GroupSum;
    GroupChecksum(g);
    SpaceHasNoDigit();
    Luhn.DigitsConcat(g, " " + rest);
    Luhn.DigitsConcat(" ", rest);
    assert [] + Luhn.Digits(rest) == Luhn.Digits(rest);
    ChecksumJoins(Luhn.Digits(g), Luhn.Digits(rest), false);
  }

  predicate DigitsAndSpaces(s: string) {
    All(s, c => IsDigit(c) || c == ' ')
  }

  /** The eight other patterns need a character that digits and spaces do not offer. */
  lemma OtherPatternsNeedMore(i: nat, m: string)
    requires i < 8 && |PATTERNS| == 9 && PATTERNS[i].lang(m)
    ensures !DigitsAndSpaces(m)
  {
    if i == 0 { assert m[0] == m[..4][0]; }
    else if i == 1 { assert m[0] == m[..11][0]; }
    else if i == 2 { assert m[0] == m[..7][0]; }
    else if i == 3 { assert m[0] == m[..3][0]; }
    else if i == 4 { assert m[0] == m[..2][0]; }
    else if i == 5 { JwtStart(m); }
    else if i == 6 { assert m[3] == '-'; }
    else { EmailSign(m); }
  }

  lemma JwtStart(m: string)
    requires Jwt(m)
    ensures m != [] && m[0] == 'e'
  {
    assert m[..3] == "eyJ" && m[0] == m[..3][0];
  }

  lemma EmailSign(m: string)
    requires Email(m)
    ensures exists k :: 0 <= k < |m| && m[k] == '@'
  {
  }

  lemma {:induction false} OtherPatternsFindNothing(i: nat, prev: bool, s: string)
    requires i < 8 && |PATTERNS| == 9 && DigitsAndSpaces(s)
    ensures NoMatch(PATTERNS[i], prev, s)
    decreases |s|
  {
    hide PATTERNS;
    if s != [] {
      forall m: nat ensures !Matches(PATTERNS[i], prev, s, m) {
        if Matches(PATTERNS[i], prev, s, m) {
          assert forall k :: 0 <= k < m ==> s[..m][k] == s[k];
          OtherPatternsNeedMore(i, s[..m]);
        }
      }
      assert forall k :: 0 <= k < |s[1..]| ==> s[1..][k] == s[k + 1];
      OtherPatternsFindNothing(i, IsWord(s[0]), s[1..]);
    }
  }

  lemma {:induction false} ShortTextHasNoCard(prev: bool, s: string)
    requires |s| < 15
    ensures NoMatch(CARD, prev, s)
    decreases |s|
  {
    hide CardShape;
    if s != [] {
      forall m: nat ensures !Matches(CARD, prev, s, m) {
        if Matches(CARD, prev, s, m) {
          CardDigits(s[..m], 0);
          CountConcat(s[..m], []);
        }
      }
      ShortTextHasNoCard(IsWord(s[0]), s[1..]);
    }
  }

  lemma SteppedOverRuns()
    ensures var s := STEPPED_OVER;
            && s[..19] == Spaced("1234", "4111", "1111", "1111")
            && s[5..] == Spaced("4111", "1111", "1111", "1111")
            && s[19..] == " 1111" && |s| == 24 && IsWord(s[0]) && IsWord(s[18]) && !IsWord(s[19])
            && !IsWord(s[4]) && IsWord(s[5]) && IsWord(s[23]) && DigitsAndSpaces(s)
  {
  }

  lemma SteppedOverSums()
    ensures FourDigits("1234") && FourDigits("4111") && FourDigits("1111")
    ensures GroupSum("1234") == 14 && GroupSum("4111") == 12 && GroupSum("1111") == 6
  {
  }

  /** The first run fails the checksum and hides the beginning of the second, which passes:
      the card scan leaves the text as it is. */
  lemma CardSteppedOver()
    ensures Scan(CARD, false, STEPPED_OVER) == (STEPPED_OVER, 0)
    ensures Matches(Accepted(CARD), false, STEPPED_OVER[5..], 19)
  {
    hide Scan, Longest, CardShape, Luhn.Valid, Spaced, GroupSum, FourDigits, DigitsAndSpaces, NoMatch;
    var s := STEPPED_OVER;
    SteppedOverRuns();
    SteppedOverSums();
    hide STEPPED_OVER;
    SpacedIsCard("1234", "4111", "1111", "1111");
    SpacedValid("1234", "4111", "1111", "1111");
    SpacedIsCard("4111", "1111", "1111", "1111");
    SpacedValid("4111", "1111", "1111", "1111");
    assert s[5..][..19] == s[5..];
    var n := Longest(CARD, false, s, |s|);
    assert Matches(CARD, false, s, 19);
    OneRunPerPosition(false, s, n, 19);
    ScanRefuses(CARD, false, s, 19);
    ShortTextHasNoCard(true, s[19..]);
    NoMatchIsSilent(CARD, true, s[19..]);
    assert s == s[..19] + s[19..];
  }

  /** So a body with that string is forwarded as it came, card number included. */
  lemma BodyWithCardUnchanged()
    ensures Walk(Str(STEPPED_OVER)) == (Str(STEPPED_OVER), multiset{})
    ensures HoldsCard(STEPPED_OVER)
  {
    CardIsLast();
    CardSteppedOver();
    SteppedOverRuns();
    hide STEPPED_OVER, Scan, Redact, NoMatch, Matches, Spaced, DigitsAndSpaces, PATTERNS;
    var s := STEPPED_OVER;
    forall i | 0 <= i < |PATTERNS| ensures Scan(PATTERNS[i], false, s) == (s, 0) {
      if i < 8 {
        OtherPatternsFindNothing(i, false, s);
        NoMatchIsSilent(PATTERNS[i], false, s);
      }
    }
    SilentPipeline(PATTERNS, s);
    MatchShows(Accepted(CARD), false, s, 5, 19);
  }
}
