/** A leftmost scanner that replaces the matches of one pattern by a token, and why
    running it, or any other such scanner, never creates a new match. */
module Scanner {
  import opened Text

  /** One redaction rule. `lang` holds of the texts the expression matches, `bounded`
      says that a match must begin and end at a word boundary, and a match failing
      `accept` is copied through untouched. */
  datatype Pattern = Pattern(name: string, lang: string -> bool, bounded: bool, accept: string -> bool)

  predicate IsWord(c: char) {
    IsDigit(c) || IsLetter(c) || c == '_'
  }

  /** Whether position k of s holds a word character; the end of the text does not. */
  predicate WordAt(s: string, k: nat) {
    k < |s| && IsWord(s[k])
  }

  function Token(name: string): (t: string)
    ensures |t| == |name| + 11 && t[0] == '[' && t[|t| - 1] == ']'
  {
    "[REDACTED:" + name + "]"
  }

  // ---------------------------------------------------------------- scanning

  /** The first n characters of s are a match of p; prev says whether the character
      just before s is a word character. */
  predicate Matches(p: Pattern, prev: bool, s: string, n: nat) {
    && 0 < n <= |s|
    && p.lang(s[..n])
    && (p.bounded ==> prev != IsWord(s[0]) && IsWord(s[n - 1]) != WordAt(s, n))
  }

  /** Length of the longest match of at most k characters at the front of s, 0 if none. */
  function Longest(p: Pattern, prev: bool, s: string, k: nat): (n: nat)
    requires k <= |s|
    ensures n == 0 || (n <= k && Matches(p, prev, s, n))
    ensures forall m :: n < m <= k ==> !Matches(p, prev, s, m)
  {
    if k == 0 then 0
    else if Matches(p, prev, s, k) then k
    else Longest(p, prev, s, k - 1)
  }

  /** Left-to-right replacement of the matches of p in s, with the number of hits. */
  function Scan(p: Pattern, prev: bool, s: string): (r: (string, nat))
    decreases |s|
  {
    if s == [] then ([], 0)
    else
      var n := Longest(p, prev, s, |s|);
      if n == 0 then
        var rest := Scan(p, IsWord(s[0]), s[1..]);
        ([s[0]] + rest.0, rest.1)
      else
        var rest := Scan(p, IsWord(s[n - 1]), s[n..]);
        if p.accept(s[..n]) then (Token(p.name) + rest.0, rest.1 + 1)
        else (s[..n] + rest.0, rest.1)
  }

  /** No match of p begins anywhere in s. */
  ghost predicate NoMatch(p: Pattern, prev: bool, s: string)
    decreases |s|
  {
    s == [] || ((forall n :: !Matches(p, prev, s, n)) && NoMatch(p, IsWord(s[0]), s[1..]))
  }

  // ------------------------------------------------- conditions on the patterns

  /** What the argument needs of one pattern: matches are non-empty, contain no
      bracket and never begin or end inside a word; only matches with word
      characters at both ends may be refused. */
  ghost predicate WellBehaved(p: Pattern) {
    forall m :: p.lang(m) ==>
      && m != [] && '[' !in m && ']' !in m
      && (!p.bounded ==> !IsWord(m[0]) && !IsWord(m[|m| - 1]))
      && (!p.accept(m) ==> p.bounded && IsWord(m[0]) && IsWord(m[|m| - 1]))
  }

  /** No match of p fits inside a token called name: it is too long for it or uses a
      character the token does not have. */
  ghost predicate Inert(p: Pattern, name: string) {
    forall m :: p.lang(m) ==> |m| > |Token(name)| - 2 || exists c :: c in m && c !in Token(name)
  }

  ghost predicate AcceptsAll(p: Pattern) {
    forall m :: p.lang(m) ==> p.accept(m)
  }

  /** The two contexts a position can have before and after a rewrite: unchanged, or
      preceded by a token where the original had a match ending outside a word. */
  predicate SameEdge(prev: bool, prev': bool, s: string) {
    prev' == prev || (!prev' && !(prev && WordAt(s, 0)))
  }

  // --------------------------------------------- a scanner never creates a match

  /** The first n characters of out are those of s, and the boundary after them can
      only have been sharpened: a word character of s hidden in out did not continue
      a word. prev describes the character before both texts. */
  ghost predicate CopyOf(out: string, s: string, prev: bool, n: nat) {
    && n <= |out| && n <= |s|
    && out[..n] == s[..n]
    && (WordAt(out, n) ==> WordAt(s, n))
    && (WordAt(s, n) && !WordAt(out, n) ==> !(if n > 0 then IsWord(s[n - 1]) else prev))
  }

  lemma CopyExtends(head: string, out: string, s: string, prev: bool, n: nat)
    requires head != [] && n >= |head|
    requires CopyOf(out, s, IsWord(head[|head| - 1]), n - |head|)
    ensures CopyOf(head + out, head + s, prev, n)
  {
    assert (head + out)[..n] == head + out[..n - |head|];
    assert (head + s)[..n] == head + s[..n - |head|];
    assert WordAt(head + out, n) == WordAt(out, n - |head|);
    assert WordAt(head + s, n) == WordAt(s, n - |head|);
  }

  lemma CopyWithin(head: string, out: string, s: string, prev: bool, n: nat)
    requires n < |head|
    ensures CopyOf(head + out, head + s, prev, n)
  {
    assert (head + out)[..n] == head[..n] == (head + s)[..n];
  }

  lemma ScanEmpty(p: Pattern, prev: bool)
    ensures Scan(p, prev, []) == ([], 0)
  {
  }

  lemma ScanCopies(p: Pattern, prev: bool, s: string)
    requires s != [] && Longest(p, prev, s, |s|) == 0
    ensures Scan(p, prev, s).0 == [s[0]] + Scan(p, IsWord(s[0]), s[1..]).0
    ensures Scan(p, prev, s).1 == Scan(p, IsWord(s[0]), s[1..]).1
  {
  }

  lemma ScanReplaces(p: Pattern, prev: bool, s: string, k: nat)
    requires s != [] && k == Longest(p, prev, s, |s|) > 0 && p.accept(s[..k])
    ensures Scan(p, prev, s).0 == Token(p.name) + Scan(p, IsWord(s[k - 1]), s[k..]).0
    ensures Scan(p, prev, s).1 == Scan(p, IsWord(s[k - 1]), s[k..]).1 + 1
  {
  }

  lemma ScanRefuses(p: Pattern, prev: bool, s: string, k: nat)
    requires s != [] && k == Longest(p, prev, s, |s|) > 0 && !p.accept(s[..k])
    ensures Scan(p, prev, s).0 == s[..k] + Scan(p, IsWord(s[k - 1]), s[k..]).0
    ensures Scan(p, prev, s).1 == Scan(p, IsWord(s[k - 1]), s[k..]).1
  {
  }

  /** An accepted or refused match ends at an edge that does not split a word, and so
      does its beginning. */
  lemma MatchEdges(p: Pattern, prev: bool, s: string, k: nat)
    requires WellBehaved(p) && Matches(p, prev, s, k)
    ensures !(prev && WordAt(s, 0))
    ensures !(IsWord(s[k - 1]) && WordAt(s, k))
  {
    assert p.lang(s[..k]);
    assert s[..k][0] == s[0] && s[..k][k - 1] == s[k - 1];
  }

  /** The text of a scan's output up to its first bracket is the text of its input. */
  lemma {:induction false} CopiedPrefix(q: Pattern, qprev: bool, s: string, n: nat)
    requires WellBehaved(q)
    requires n <= |Scan(q, qprev, s).0| && '[' !in Scan(q, qprev, s).0[..n]
    ensures CopyOf(Scan(q, qprev, s).0, s, qprev, n)
    decreases |s|
  {
    hide Scan, WellBehaved, Matches, Longest;
    ScanEmpty(q, qprev);
    var out := Scan(q, qprev, s).0;
    assert n > 0 ==> out[0] == out[..n][0];
    if s != [] {
      var k := Longest(q, qprev, s, |s|);
      if k > 0 && q.accept(s[..k]) {
        ScanReplaces(q, qprev, s, k);
        MatchEdges(q, qprev, s, k);
        assert out[0] == '[';
      } else {
        var h := if k == 0 then 1 else k;
        var w := IsWord(s[h - 1]);
        if k == 0 { ScanCopies(q, qprev, s); } else { ScanRefuses(q, qprev, s, k); }
        CopiedHead(s[..h], Scan(q, w, s[h..]).0, out, n);
        assert s == s[..h] + s[h..];
        if n < h {
          CopyWithin(s[..h], Scan(q, w, s[h..]).0, s[h..], qprev, n);
        } else {
          CopiedPrefix(q, w, s[h..], n - h);
          CopyExtends(s[..h], Scan(q, w, s[h..]).0, s[h..], qprev, n);
        }
      }
    }
  }

  lemma CopiedHead(head: string, rest: string, out: string, n: nat)
    requires out == head + rest && n <= |out| && '[' !in out[..n]
    ensures n >= |head| ==> '[' !in rest[..n - |head|]
  {
    if n >= |head| {
      assert out[..n] == head + rest[..n - |head|];
    }
  }

  /** A match in a copy is a match in the original. */
  lemma MatchTransfers(p: Pattern, prev: bool, prev': bool, out: string, src: string, n: nat)
    requires SameEdge(prev, prev', src)
    requires CopyOf(out, src, prev, n)
    requires Matches(p, prev', out, n)
    ensures Matches(p, prev, src, n)
  {
    assert out[0] == out[..n][0] == src[..n][0] == src[0];
    assert out[n - 1] == out[..n][n - 1] == src[..n][n - 1] == src[n - 1];
  }

  /** A match of p in a partly scanned text is already a match in the original. */
  lemma Reflect(p: Pattern, q: Pattern, prev: bool, prev': bool, c: string, qprev: bool, s: string, n: nat)
    requires WellBehaved(p) && WellBehaved(q)
    requires qprev == if c == [] then prev else IsWord(c[|c| - 1])
    requires SameEdge(prev, prev', c + s)
    requires Matches(p, prev', c + Scan(q, qprev, s).0, n)
    ensures Matches(p, prev, c + s, n)
  {
    var rest := Scan(q, qprev, s).0;
    assert p.lang((c + rest)[..n]);
    CopiedHead(c, rest, c + rest, n);
    if n < |c| {
      CopyWithin(c, rest, s, prev, n);
    } else {
      CopiedPrefix(q, qprev, s, n - |c|);
      if c == [] {
        assert c + s == s && c + rest == rest;
      } else {
        CopyExtends(c, rest, s, prev, n);
      }
    }
    MatchTransfers(p, prev, prev', c + rest, c + s, n);
  }

  lemma {:induction false} NoMatchDrop(p: Pattern, prev: bool, s: string, k: nat)
    requires NoMatch(p, prev, s) && 0 < k <= |s|
    ensures NoMatch(p, IsWord(s[k - 1]), s[k..])
    decreases k
  {
    if k > 1 {
      NoMatchDrop(p, IsWord(s[0]), s[1..], k - 1);
      assert s[1..][k - 1..] == s[k..];
    }
  }

  /** Nothing matches at a position inside a token or at its brackets. */
  lemma TokenHasNoMatch(p: Pattern, name: string, prev: bool, k: nat, r: string, n: nat)
    requires WellBehaved(p) && Inert(p, name) && k < |Token(name)|
    ensures !Matches(p, prev, Token(name)[k..] + r, n)
  {
    var u := Token(name)[k..];
    if 0 < n <= |u + r| {
      var m := (u + r)[..n];
      if n >= |u| {
        assert m[|u| - 1] == ']';
      } else {
        assert m == u[..n];
        assert k == 0 ==> m[0] == '[';
        assert forall c :: c in m ==> c in Token(name);
      }
    }
  }

  lemma TokenTail(name: string, k: nat, r: string)
    requires k < |Token(name)|
    ensures var s := Token(name)[k..] + r;
            s != [] && s[0] == Token(name)[k] && s[1..] == Token(name)[k + 1..] + r
  {
  }

  lemma {:induction false} NoMatchToken(p: Pattern, name: string, prev: bool, k: nat, r: string)
    requires WellBehaved(p) && Inert(p, name) && k < |Token(name)|
    requires NoMatch(p, false, r)
    ensures NoMatch(p, prev, Token(name)[k..] + r)
    decreases |Token(name)| - k
  {
    hide WellBehaved, Inert, Matches;
    forall n ensures !Matches(p, prev, Token(name)[k..] + r, n) {
      TokenHasNoMatch(p, name, prev, k, r, n);
    }
    TokenTail(name, k, r);
    if k + 1 == |Token(name)| {
      assert Token(name)[k + 1..] + r == r;
    } else {
      NoMatchToken(p, name, IsWord(Token(name)[k]), k + 1, r);
    }
  }

  /** A text free of p stays free of p when scanner q rewrites it. */
  lemma {:induction false} ScanPreservesNoMatch(p: Pattern, q: Pattern, prev: bool, prev': bool, c: string,
                                                qprev: bool, s: string)
    requires WellBehaved(p) && WellBehaved(q) && Inert(p, q.name)
    requires qprev == if c == [] then prev else IsWord(c[|c| - 1])
    requires SameEdge(prev, prev', c + s)
    requires NoMatch(p, prev, c + s)
    ensures NoMatch(p, prev', c + Scan(q, qprev, s).0)
    decreases |s|, |c|
  {
    hide Scan, WellBehaved, Inert, Matches, Longest;
    ScanEmpty(q, qprev);
    var rest := Scan(q, qprev, s).0;
    if c != [] {
      forall n ensures !Matches(p, prev', c + rest, n) {
        if Matches(p, prev', c + rest, n) {
          Reflect(p, q, prev, prev', c, qprev, s, n);
        }
      }
      assert (c + s)[1..] == c[1..] + s;
      assert (c + rest)[1..] == c[1..] + rest;
      var w := IsWord(c[0]);
      ScanPreservesNoMatch(p, q, w, w, c[1..], qprev, s);
    } else if s != [] {
      assert c + s == s && c + rest == rest;
      var k := Longest(q, qprev, s, |s|);
      if k == 0 {
        ScanCopies(q, qprev, s);
        assert [s[0]] + s[1..] == s;
        ScanPreservesNoMatch(p, q, prev, prev', [s[0]], IsWord(s[0]), s[1..]);
      } else if q.accept(s[..k]) {
        var w := IsWord(s[k - 1]);
        var tail := Scan(q, w, s[k..]).0;
        ScanReplaces(q, qprev, s, k);
        MatchEdges(q, qprev, s, k);
        NoMatchDrop(p, prev, s, k);
        assert [] + s[k..] == s[k..] && [] + tail == tail;
        ScanPreservesNoMatch(p, q, w, false, [], w, s[k..]);
        NoMatchToken(p, q.name, prev', 0, tail);
      } else {
        ScanRefuses(q, qprev, s, k);
        assert s[..k] + s[k..] == s;
        ScanPreservesNoMatch(p, q, prev, prev', s[..k], IsWord(s[k - 1]), s[k..]);
      }
    }
  }

  // ----------------------------------------------------- a second scan is silent

  lemma {:induction false} ScanOverToken(p: Pattern, name: string, prev: bool, k: nat, r: string)
    requires WellBehaved(p) && Inert(p, name) && k < |Token(name)|
    ensures Scan(p, prev, Token(name)[k..] + r).0 == Token(name)[k..] + Scan(p, false, r).0
    ensures Scan(p, prev, Token(name)[k..] + r).1 == Scan(p, false, r).1
    decreases |Token(name)| - k
  {
    hide Scan, WellBehaved, Inert, Matches;
    var s := Token(name)[k..] + r;
    TokenHasNoMatch(p, name, prev, k, r, Longest(p, prev, s, |s|));
    TokenTail(name, k, r);
    ScanCopies(p, prev, s);
    if k + 1 == |Token(name)| {
      assert Token(name)[k + 1..] + r == r;
    } else {
      ScanOverToken(p, name, IsWord(Token(name)[k]), k + 1, r);
    }
  }

  /** Scanning the output of a scan changes nothing and counts nothing, even for a
      pattern that refuses some of its matches. */
  lemma {:induction false} RescanIsSilent(p: Pattern, prev: bool, prev': bool, s: string)
    requires WellBehaved(p) && Inert(p, p.name)
    requires SameEdge(prev, prev', s)
    ensures Scan(p, prev', Scan(p, prev, s).0) == (Scan(p, prev, s).0, 0)
    decreases |s|
  {
    hide Scan, WellBehaved, Inert, Matches;
    ScanEmpty(p, prev);
    ScanEmpty(p, prev');
    var out := Scan(p, prev, s).0;
    if s != [] {
      assert [] + s == s && [] + out == out;
      var k := Longest(p, prev, s, |s|);
      if k > 0 && p.accept(s[..k]) {
        var w := IsWord(s[k - 1]);
        ScanReplaces(p, prev, s, k);
        MatchEdges(p, prev, s, k);
        RescanIsSilent(p, w, false, s[k..]);
        ScanOverToken(p, p.name, prev', 0, Scan(p, w, s[k..]).0);
      } else {
        var k' := Longest(p, prev', out, |out|);
        if k' > 0 {
          Reflect(p, p, prev, prev', [], prev, s, k');
        }
        if k == 0 {
          ScanCopies(p, prev, s);
          RescanIsSilent(p, IsWord(s[0]), IsWord(s[0]), s[1..]);
          assert out[1..] == Scan(p, IsWord(s[0]), s[1..]).0;
          ScanCopies(p, prev', out);
        } else {
          ScanRefuses(p, prev, s, k);
          RefusedMatchStays(p, prev, prev', s, k);
          RescanIsSilent(p, IsWord(s[k - 1]), IsWord(s[k - 1]), s[k..]);
          assert out[k..] == Scan(p, IsWord(s[k - 1]), s[k..]).0;
          assert out[k - 1] == out[..k][k - 1] == s[k - 1];
          ScanRefuses(p, prev', out, k);
        }
      }
    }
  }

  /** A refused match is still a match after the scan. */
  lemma RefusedMatchStays(p: Pattern, prev: bool, prev': bool, s: string, k: nat)
    requires WellBehaved(p) && SameEdge(prev, prev', s)
    requires s != [] && k == Longest(p, prev, s, |s|) > 0 && !p.accept(s[..k])
    ensures Matches(p, prev', Scan(p, prev, s).0, k)
    ensures Scan(p, prev, s).0[..k] == s[..k]
  {
    hide Scan;
    ScanRefuses(p, prev, s, k);
    var out := Scan(p, prev, s).0;
    var rest := Scan(p, IsWord(s[k - 1]), s[k..]).0;
    assert out == s[..k] + rest;
    assert out[..k] == s[..k];
    CopiedPrefix(p, IsWord(s[k - 1]), s[k..], 0);
    assert WordAt(out, k) == WordAt(rest, 0);
    assert WordAt(s, k) == WordAt(s[k..], 0);
  }

  lemma {:induction false} NoMatchIsSilent(p: Pattern, prev: bool, s: string)
    requires NoMatch(p, prev, s)
    ensures Scan(p, prev, s) == (s, 0)
    decreases |s|
  {
    if s != [] {
      assert Longest(p, prev, s, |s|) == 0;
      ScanCopies(p, prev, s);
      assert [s[0]] + s[1..] == s;
      NoMatchIsSilent(p, IsWord(s[0]), s[1..]);
    }
  }

  /** For a pattern that accepts every match, a silent scan means there is none. */
  lemma {:induction false} SilentMeansNoMatch(p: Pattern, prev: bool, s: string)
    requires AcceptsAll(p)
    requires Scan(p, prev, s).1 == 0
    ensures NoMatch(p, prev, s)
    decreases |s|
  {
    if s != [] {
      var n := Longest(p, prev, s, |s|);
      assert n == 0;
      forall m ensures !Matches(p, prev, s, m) {
      }
      SilentMeansNoMatch(p, IsWord(s[0]), s[1..]);
    }
  }
}
