/** A scanner that refuses some of its matches: exactly when a match it would accept is
    still there after the scan, and a condition on the input under which none is. */
module Refusals {
  import opened Scanner

  /** The matches a pattern refuses, and those it accepts, each as a pattern of its own. */
  function Refused(p: Pattern): Pattern {
    Pattern(p.name, m => p.lang(m) && !p.accept(m), p.bounded, _ => true)
  }

  function Accepted(p: Pattern): Pattern {
    Pattern(p.name, m => p.lang(m) && p.accept(m), p.bounded, _ => true)
  }

  /** Matches stand at word boundaries, with a word character at both ends. */
  ghost predicate Worded(p: Pattern) {
    p.bounded && forall m :: p.lang(m) ==> m != [] && IsWord(m[0]) && IsWord(m[|m| - 1])
  }

  lemma PartsBehave(p: Pattern, name: string)
    requires WellBehaved(p)
    ensures WellBehaved(Refused(p)) && WellBehaved(Accepted(p))
    ensures Inert(p, name) ==> Inert(Refused(p), name) && Inert(Accepted(p), name)
    ensures Worded(p) ==> Worded(Refused(p)) && Worded(Accepted(p))
  {
  }

  /** The character before position i of s, prev standing before s. */
  predicate WordBefore(prev: bool, s: string, i: nat)
    requires i <= |s|
  {
    if i == 0 then prev else IsWord(s[i - 1])
  }

  // ------------------------------------------------------ what the scan leaves behind

  /** How far one move of the scan reaches: over a match, or over one character. */
  function Reach(p: Pattern, prev: bool, s: string): (h: nat)
    requires s != []
    ensures 0 < h <= |s|
  {
    var n := Longest(p, prev, s, |s|);
    if n == 0 then 1 else n
  }

  /** The move replaces a match, or refuses one. Otherwise it copies a character. */
  predicate Replaces(p: Pattern, prev: bool, s: string) {
    s != [] && var n := Longest(p, prev, s, |s|); n > 0 && p.accept(s[..n])
  }

  predicate Refuses(p: Pattern, prev: bool, s: string) {
    s != [] && var n := Longest(p, prev, s, |s|); n > 0 && !p.accept(s[..n])
  }

  /** The scan copies the first e characters of s: no run it replaces begins before. */
  predicate Copies(p: Pattern, prev: bool, s: string, e: nat)
    decreases |s|
  {
    e == 0 || (s != [] && !Replaces(p, prev, s) &&
               var h := Reach(p, prev, s);
               (e <= h || Copies(p, IsWord(s[h - 1]), s[h..], e - h)))
  }

  /** From inside the first n characters of s, which are copied, starts a match that p would
      accept, no part of which the scan replaces later. */
  ghost predicate Swallowed(p: Pattern, prev: bool, s: string, n: nat)
    requires 0 < n <= |s|
  {
    exists i: nat, m: nat :: i < n && Matches(Accepted(p), WordBefore(prev, s, i), s[i..], m)
      && Copies(p, IsWord(s[n - 1]), s[n..], Beyond(i + m, n))
  }

  function Beyond(e: nat, n: nat): nat {
    if e <= n then 0 else e - n
  }

  /** Some refused run that the scan of s visits swallows a match p would accept. */
  ghost predicate LeavesBehind(p: Pattern, prev: bool, s: string)
    decreases |s|
  {
    s != [] &&
    var h := Reach(p, prev, s);
    || (Refuses(p, prev, s) && Swallowed(p, prev, s, h))
    || LeavesBehind(p, IsWord(s[h - 1]), s[h..])
  }

  /** What a move writes. */
  function Written(p: Pattern, prev: bool, s: string): (head: string)
    requires s != []
    ensures head != []
  {
    if Replaces(p, prev, s) then Token(p.name) else s[..Reach(p, prev, s)]
  }

  lemma ScanMoves(p: Pattern, prev: bool, s: string)
    requires s != []
    ensures var h := Reach(p, prev, s);
            Scan(p, prev, s).0 == Written(p, prev, s) + Scan(p, IsWord(s[h - 1]), s[h..]).0
  {
    hide Scan, Matches, Token;
    var n := Longest(p, prev, s, |s|);
    if n == 0 { ScanCopies(p, prev, s); }
    else if p.accept(s[..n]) { ScanReplaces(p, prev, s, n); }
    else { ScanRefuses(p, prev, s, n); }
  }

  lemma TokenFirst(name: string, rest: string)
    ensures (Token(name) + rest)[0] == '['
  {
  }

  // ---------------------------------------------------------------- no more than that

  /** Output without a bracket was copied. */
  lemma {:induction false} NoBracketCopied(p: Pattern, prev: bool, s: string, e: nat)
    requires e <= |Scan(p, prev, s).0| && '[' !in Scan(p, prev, s).0[..e]
    ensures Copies(p, prev, s, e)
    decreases |s|
  {
    hide Scan, Matches, Longest, Replaces, Reach;
    ScanEmpty(p, prev);
    if e > 0 {
      var out, h := Scan(p, prev, s).0, Reach(p, prev, s);
      ScanMoves(p, prev, s);
      assert out[0] == out[..e][0];
      if Replaces(p, prev, s) {
        TokenFirst(p.name, Scan(p, IsWord(s[h - 1]), s[h..]).0);
      } else if e > h {
        CopiedHead(s[..h], Scan(p, IsWord(s[h - 1]), s[h..]).0, out, e);
        NoBracketCopied(p, IsWord(s[h - 1]), s[h..], e - h);
      }
    }
  }

  lemma {:induction false} NoMatchBehind(p: Pattern, prev: bool, c: string, rest: string)
    requires forall i: nat, m: nat :: i < |c| ==> !Matches(p, WordBefore(prev, c, i), c[i..] + rest, m)
    requires NoMatch(p, WordBefore(prev, c, |c|), rest)
    ensures NoMatch(p, prev, c + rest)
    decreases |c|
  {
    hide Matches;
    if c == [] {
      assert c + rest == rest;
    } else {
      var w := IsWord(c[0]);
      assert c[0..] == c && (c + rest)[0] == c[0] && (c + rest)[1..] == c[1..] + rest;
      forall i: nat, m: nat | i < |c[1..]| ensures !Matches(p, WordBefore(w, c[1..], i), c[1..][i..] + rest, m) {
        assert c[1..][i..] == c[i + 1..] && WordBefore(w, c[1..], i) == WordBefore(prev, c, i + 1);
        assert !Matches(p, WordBefore(prev, c, i + 1), c[i + 1..] + rest, m);
      }
      assert WordBefore(w, c[1..], |c[1..]|) == WordBefore(prev, c, |c|);
      NoMatchBehind(p, w, c[1..], rest);
      forall m ensures !Matches(p, prev, c + rest, m) {
        assert Matches(p, prev, c + rest, m) == Matches(p, WordBefore(prev, c, 0), c[0..] + rest, m);
      }
    }
  }

  /** An accepted match that starts in a copied run of the output was swallowed by it. */
  lemma SwallowedIfSeen(p: Pattern, prev: bool, prev': bool, s: string, n: nat, i: nat, m: nat)
    requires WellBehaved(p) && SameEdge(prev, prev', s) && i < n <= |s|
    requires Matches(Accepted(p), WordBefore(prev', s, i), s[i..n] + Scan(p, IsWord(s[n - 1]), s[n..]).0, m)
    ensures Swallowed(p, prev, s, n)
  {
    hide Scan, WellBehaved, Copies, Matches, Accepted, Swallowed, Inert;
    var a, c, w := Accepted(p), s[i..n], IsWord(s[n - 1]);
    var rest := Scan(p, w, s[n..]).0;
    var before, before' := WordBefore(prev, s, i), WordBefore(prev', s, i);
    PartsBehave(p, p.name);
    RunEdges(prev, prev', s, n, i);
    hide SameEdge, WordBefore;
    Reflect(a, p, before, before', c, w, s[n..], m);
    SeenHasNoBracket(p, before', c + rest, m);
    if i + m > n {
      CopiedHead(c, rest, c + rest, m);
      NoBracketCopied(p, w, s[n..], i + m - n);
    } else {
      CopiesNone(p, w, s[n..]);
    }
    IsSwallowed(p, prev, s, n, i, m);
  }

  lemma RunEdges(prev: bool, prev': bool, s: string, n: nat, i: nat)
    requires SameEdge(prev, prev', s) && i < n <= |s|
    ensures SameEdge(WordBefore(prev, s, i), WordBefore(prev', s, i), s[i..])
    ensures s[i..n] != [] && IsWord(s[i..n][|s[i..n]| - 1]) == IsWord(s[n - 1])
    ensures s[i..n] + s[n..] == s[i..]
  {
    assert i == 0 ==> s[i..] == s;
    assert s[i..n][|s[i..n]| - 1] == s[n - 1];
  }

  lemma IsSwallowed(p: Pattern, prev: bool, s: string, n: nat, i: nat, m: nat)
    requires i < n <= |s| && Matches(Accepted(p), WordBefore(prev, s, i), s[i..], m)
    requires Copies(p, IsWord(s[n - 1]), s[n..], Beyond(i + m, n))
    ensures Swallowed(p, prev, s, n)
  {
  }

  lemma SwallowedAt(p: Pattern, prev: bool, s: string, n: nat) returns (i: nat, m: nat)
    requires 0 < n <= |s| && Swallowed(p, prev, s, n)
    ensures i < n && i + m <= |s| && Matches(Accepted(p), WordBefore(prev, s, i), s[i..], m)
    ensures Copies(p, IsWord(s[n - 1]), s[n..], Beyond(i + m, n))
  {
    i, m :| i < n && Matches(Accepted(p), WordBefore(prev, s, i), s[i..], m)
      && Copies(p, IsWord(s[n - 1]), s[n..], Beyond(i + m, n));
  }

  lemma CopiesNone(p: Pattern, prev: bool, s: string)
    ensures Copies(p, prev, s, 0)
  {
  }

  lemma SeenHasNoBracket(p: Pattern, prev: bool, s: string, m: nat)
    requires WellBehaved(p) && Matches(Accepted(p), prev, s, m)
    ensures 0 < m <= |s| && '[' !in s[..m]
  {
    assert p.lang(s[..m]);
  }

  /** What is not swallowed is not left: without a swallowed match the output has none. */
  lemma {:induction false} NothingLeft(p: Pattern, prev: bool, prev': bool, s: string)
    requires WellBehaved(p) && Inert(p, p.name) && SameEdge(prev, prev', s)
    requires !LeavesBehind(p, prev, s)
    ensures NoMatch(Accepted(p), prev', Scan(p, prev, s).0)
    decreases |s|
  {
    hide Scan, WellBehaved, Inert, Matches, Swallowed, Accepted, Longest, Replaces, Refuses, Reach, SameEdge;
    ScanEmpty(p, prev);
    PartsBehave(p, p.name);
    if s != [] {
      var a, h := Accepted(p), Reach(p, prev, s);
      var w := IsWord(s[h - 1]);
      var rest := Scan(p, w, s[h..]).0;
      ScanMoves(p, prev, s);
      if Replaces(p, prev, s) {
        ReplacedEdge(p, prev, s);
        NothingLeft(p, w, false, s[h..]);
        assert Token(p.name)[0..] == Token(p.name);
        NoMatchToken(a, p.name, prev', 0, rest);
      } else {
        EdgeItself(w, s[h..]);
        NothingLeft(p, w, w, s[h..]);
        assert WordBefore(prev', s[..h], h) == w;
        forall i: nat, m: nat | i < |s[..h]| ensures !Matches(a, WordBefore(prev', s[..h], i), s[..h][i..] + rest, m) {
          assert s[..h][i..] == s[i..h] && WordBefore(prev', s[..h], i) == WordBefore(prev', s, i);
          if Matches(a, WordBefore(prev', s, i), s[i..h] + rest, m) {
            SwallowedIfSeen(p, prev, prev', s, h, i, m);
            OnlyRefusedSwallow(p, prev, s);
          }
        }
        NoMatchBehind(a, prev', s[..h], rest);
      }
    }
  }

  lemma EdgeItself(w: bool, s: string)
    ensures SameEdge(w, w, s)
  {
  }

  lemma ReplacedEdge(p: Pattern, prev: bool, s: string)
    requires WellBehaved(p) && Replaces(p, prev, s)
    ensures var h := Reach(p, prev, s); SameEdge(IsWord(s[h - 1]), false, s[h..])
  {
    MatchEdges(p, prev, s, Reach(p, prev, s));
    assert WordAt(s, Reach(p, prev, s)) == WordAt(s[Reach(p, prev, s)..], 0);
  }

  /** A copied character on its own swallows nothing. */
  lemma OnlyRefusedSwallow(p: Pattern, prev: bool, s: string)
    requires s != [] && !Replaces(p, prev, s) && Swallowed(p, prev, s, Reach(p, prev, s))
    ensures Refuses(p, prev, s)
  {
    if Longest(p, prev, s, |s|) == 0 {
      var i: nat, m: nat :| i < 1 && Matches(Accepted(p), WordBefore(prev, s, i), s[i..], m);
      assert s[0..] == s;
      assert Matches(p, prev, s, m);
    }
  }

  // --------------------------------------------------------------- and no less than that

  /** The first n characters of s before a text that agrees with the rest of s for a while. */
  lemma CopyJoins(s: string, n: nat, rest: string, e: nat)
    requires n <= |s| && Beyond(e, n) <= |rest| && Beyond(e, n) <= |s| - n
    requires rest[..Beyond(e, n)] == s[n..][..Beyond(e, n)]
    requires WordAt(rest, Beyond(e, n)) ==> WordAt(s[n..], Beyond(e, n))
    ensures e <= |s| && e <= |s[..n] + rest| && (s[..n] + rest)[..e] == s[..e]
    ensures WordAt(s[..n] + rest, e) ==> WordAt(s, e)
  {
    var k, out := Beyond(e, n), s[..n] + rest;
    assert out[..n + k] == s[..n] + rest[..k] == s[..n] + s[n..][..k] == s[..n + k];
    assert out[..e] == out[..n + k][..e] && s[..e] == s[..n + k][..e];
    if e >= n {
      assert WordAt(out, e) == WordAt(rest, k) && WordAt(s, e) == WordAt(s[n..], k);
    } else {
      assert out[e] == s[e];
    }
  }

  lemma {:induction false} CopiedIsKept(p: Pattern, prev: bool, s: string, e: nat)
    requires Copies(p, prev, s, e)
    ensures var out := Scan(p, prev, s).0;
            e <= |s| && e <= |out| && out[..e] == s[..e] && (WordAt(out, e) ==> WordAt(s, e))
    decreases |s|
  {
    hide Scan, Matches, Longest, Reach, Replaces;
    ScanEmpty(p, prev);
    if s != [] {
      var h := Reach(p, prev, s);
      var w := IsWord(s[h - 1]);
      var rest := Scan(p, w, s[h..]).0;
      ScanMoves(p, prev, s);
      if Replaces(p, prev, s) {
        assert e == 0 && (Token(p.name) + rest)[0] == '[';
      } else {
        assert Copies(p, w, s[h..], Beyond(e, h)) by { CopiesNone(p, w, s[h..]); }
        hide WordAt, Copies;
        CopiedIsKept(p, w, s[h..], Beyond(e, h));
        CopyJoins(s, h, rest, e);
      }
    }
  }

  /** A match carries over to a text that agrees with its own up to the end of it and has no
      word going on behind it where its own has none. */
  lemma MatchKept(a: Pattern, prev: bool, s: string, out: string, i: nat, m: nat)
    requires Worded(a) && i < |s| && i + m <= |s| && i + m <= |out| && Matches(a, WordBefore(prev, s, i), s[i..], m)
    requires out[..i + m] == s[..i + m] && (WordAt(out, i + m) ==> WordAt(s, i + m))
    ensures Matches(a, WordBefore(prev, out, i), out[i..], m)
  {
    var t := s[i..][..m];
    assert t == s[..i + m][i..] == out[..i + m][i..] == out[i..][..m];
    assert s[i..][0] == t[0] == out[i..][0] && s[i..][m - 1] == t[m - 1] == out[i..][m - 1];
    assert i > 0 ==> s[i - 1] == s[..i + m][i - 1] == out[..i + m][i - 1] == out[i - 1];
    assert WordAt(s[i..], m) == WordAt(s, i + m) && WordAt(out[i..], m) == WordAt(out, i + m);
    assert IsWord(t[m - 1]);
  }

  lemma SeenInCopy(a: Pattern, prev: bool, s: string, n: nat, rest: string, i: nat, m: nat)
    requires Worded(a) && i < n <= |s| && i + m <= |s| && Matches(a, WordBefore(prev, s, i), s[i..], m)
    requires Beyond(i + m, n) <= |rest| && Beyond(i + m, n) <= |s| - n
    requires rest[..Beyond(i + m, n)] == s[n..][..Beyond(i + m, n)]
    requires WordAt(rest, Beyond(i + m, n)) ==> WordAt(s[n..], Beyond(i + m, n))
    ensures !NoMatch(a, prev, s[..n] + rest)
  {
    hide NoMatch, Matches, WordBefore, Worded, WordAt;
    var out := s[..n] + rest;
    CopyJoins(s, n, rest, i + m);
    MatchKept(a, prev, s, out, i, m);
    MatchShows(a, prev, out, i, m);
  }

  /** A swallowed match is a match of the output. */
  lemma SwallowedIsSeen(p: Pattern, prev: bool, s: string, n: nat)
    requires WellBehaved(p) && Worded(p) && 0 < n <= |s| && Swallowed(p, prev, s, n)
    ensures !NoMatch(Accepted(p), prev, s[..n] + Scan(p, IsWord(s[n - 1]), s[n..]).0)
  {
    hide Scan, Copies, NoMatch, WellBehaved, Matches, WordBefore, Accepted, Swallowed, Worded, WordAt, IsWord;
    var w := IsWord(s[n - 1]);
    var rest := Scan(p, w, s[n..]).0;
    var i, m := SwallowedAt(p, prev, s, n);
    PartsBehave(p, p.name);
    CopiedIsKept(p, w, s[n..], Beyond(i + m, n));
    SeenInCopy(Accepted(p), prev, s, n, rest, i, m);
  }

  lemma MatchShows(p: Pattern, prev: bool, s: string, i: nat, m: nat)
    requires i < |s| && Matches(p, WordBefore(prev, s, i), s[i..], m)
    ensures !NoMatch(p, prev, s)
  {
    hide Matches;
    assert i == 0 ==> s[i..] == s;
    if i > 0 && NoMatch(p, prev, s) {
      NoMatchDrop(p, prev, s, i);
    }
  }

  /** Behind a word no worded match starts, so forgetting that a word came before only adds
      matches. */
  lemma {:induction false} EdgeOnlyAdds(p: Pattern, w: bool, s: string)
    requires Worded(p) && NoMatch(p, false, s)
    ensures NoMatch(p, w, s)
  {
    if s != [] {
      forall m: nat ensures Matches(p, w, s, m) ==> Matches(p, false, s, m) {
        assert 0 < m <= |s| ==> s[..m][0] == s[0];
      }
    }
  }

  /** What is swallowed is left. */
  lemma {:induction false} SomethingLeft(p: Pattern, prev: bool, s: string)
    requires WellBehaved(p) && Worded(p) && LeavesBehind(p, prev, s)
    ensures !NoMatch(Accepted(p), prev, Scan(p, prev, s).0)
    decreases |s|
  {
    hide Scan, WellBehaved, Worded, Matches, Swallowed, Accepted, Longest, Reach, Replaces, Refuses, NoMatch;
    PartsBehave(p, p.name);
    var a, h := Accepted(p), Reach(p, prev, s);
    var w := IsWord(s[h - 1]);
    var head, rest := Written(p, prev, s), Scan(p, w, s[h..]).0;
    ScanMoves(p, prev, s);
    assert head == s[..h] ==> head[|head| - 1] == s[h - 1];
    assert Refuses(p, prev, s) ==> !Replaces(p, prev, s) by { NotBoth(p, prev, s); }
    if Refuses(p, prev, s) && Swallowed(p, prev, s, h) {
      SwallowedIsSeen(p, prev, s, h);
    } else {
      SomethingLeft(p, w, s[h..]);
      if NoMatch(a, prev, head + rest) {
        NoMatchDrop(a, prev, head + rest, |head|);
        assert (head + rest)[|head|..] == rest && (head + rest)[|head| - 1] == head[|head| - 1];
        if Replaces(p, prev, s) {
          EdgeOnlyAdds(a, w, rest);
        }
      }
    }
  }

  lemma NotBoth(p: Pattern, prev: bool, s: string)
    ensures !(Refuses(p, prev, s) && Replaces(p, prev, s))
  {
  }

  /** After a scan, a match that p would accept is left exactly if a refused run that the
      scan visits swallowed it. */
  lemma {:induction false} LeftExactlyIfSwallowed(p: Pattern, prev: bool, s: string)
    requires WellBehaved(p) && Inert(p, p.name) && Worded(p)
    ensures NoMatch(Accepted(p), prev, Scan(p, prev, s).0) <==> !LeavesBehind(p, prev, s)
  {
    hide WellBehaved, Inert, Worded, LeavesBehind, NoMatch, Scan, Accepted;
    if LeavesBehind(p, prev, s) {
      SomethingLeft(p, prev, s);
    } else {
      NothingLeft(p, prev, prev, s);
    }
  }

  // -------------------------------------------------------- a condition on the input

  lemma {:induction false} RefusesNothing(p: Pattern, prev: bool, s: string)
    requires NoMatch(Refused(p), prev, s)
    ensures !LeavesBehind(p, prev, s)
    decreases |s|
  {
    if s != [] {
      var h := Reach(p, prev, s);
      assert !Matches(Refused(p), prev, s, h);
      NoMatchDrop(Refused(p), prev, s, h);
      RefusesNothing(p, IsWord(s[h - 1]), s[h..]);
    }
  }

  lemma {:induction false} NoMatchOfEither(p: Pattern, prev: bool, s: string)
    ensures NoMatch(p, prev, s) <==> NoMatch(Accepted(p), prev, s) && NoMatch(Refused(p), prev, s)
    decreases |s|
  {
    if s != [] {
      NoMatchOfEither(p, IsWord(s[0]), s[1..]);
      forall m: nat
        ensures Matches(p, prev, s, m) <==> Matches(Accepted(p), prev, s, m) || Matches(Refused(p), prev, s, m)
      {
      }
    }
  }

  /** If the text holds no match that would be refused, the scan leaves no match at all. */
  lemma NothingRefusedNothingLeft(p: Pattern, prev: bool, s: string)
    requires WellBehaved(p) && Inert(p, p.name)
    requires NoMatch(Refused(p), prev, s)
    ensures NoMatch(p, prev, Scan(p, prev, s).0)
  {
    hide Scan, WellBehaved, Inert, NoMatch, LeavesBehind, Refused, Accepted;
    var out := Scan(p, prev, s).0;
    PartsBehave(p, p.name);
    RefusesNothing(p, prev, s);
    NothingLeft(p, prev, prev, s);
    assert [] + s == s && [] + out == out;
    assert Inert(Refused(p), p.name);
    ScanPreservesNoMatch(Refused(p), p, prev, prev, [], prev, s);
    NoMatchOfEither(p, prev, out);
  }
}
