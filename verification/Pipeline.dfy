/** The ordered pipeline of scanners: running it twice is running it once, and nothing
    but the matches is touched. */
module Pipeline {
  import opened Scanner

  /** What the pipeline theorems need: every pattern is well behaved, none fits in
      another's token, and only the last may refuse matches. */
  ghost predicate Orderly(ps: seq<Pattern>) {
    && (forall p :: p in ps ==> WellBehaved(p))
    && (forall p, q :: p in ps && q in ps ==> Inert(p, q.name))
    && (forall i :: 0 <= i < |ps| - 1 ==> AcceptsAll(ps[i]))
  }

  function Repeated(name: string, n: nat): multiset<string> {
    multiset{}[name := n]
  }

  /** The text after all patterns ran in order, with the hits per pattern name. */
  function Redact(ps: seq<Pattern>, s: string): (r: (string, multiset<string>)) {
    if ps == [] then (s, multiset{})
    else
      var here := Scan(ps[0], false, s);
      var rest := Redact(ps[1..], here.0);
      (rest.0, Repeated(ps[0].name, here.1) + rest.1)
  }

  lemma {:induction false} FreeStaysFree(p: Pattern, ps: seq<Pattern>, s: string)
    requires WellBehaved(p) && NoMatch(p, false, s)
    requires forall q :: q in ps ==> WellBehaved(q) && Inert(p, q.name)
    ensures NoMatch(p, false, Redact(ps, s).0)
  {
    if ps != [] {
      var t := Scan(ps[0], false, s).0;
      assert [] + s == s && [] + t == t;
      ScanPreservesNoMatch(p, ps[0], false, false, [], false, s);
      FreeStaysFree(p, ps[1..], t);
    }
  }

  lemma OrderlyTail(ps: seq<Pattern>)
    requires Orderly(ps) && ps != []
    ensures Orderly(ps[1..])
  {
    hide WellBehaved, Inert, AcceptsAll;
    assert forall p :: p in ps[1..] ==> p in ps;
    forall i | 0 <= i < |ps[1..]| - 1 ensures AcceptsAll(ps[1..][i]) {
      assert ps[1..][i] == ps[i + 1];
    }
  }

  /** After the whole pipeline, no stage finds anything to redact. */
  lemma {:induction false} StageIsSilentAfterwards(ps: seq<Pattern>, s: string, i: nat)
    requires Orderly(ps) && i < |ps|
    ensures Scan(ps[i], false, Redact(ps, s).0) == (Redact(ps, s).0, 0)
    ensures i < |ps| - 1 ==> NoMatch(ps[i], false, Redact(ps, s).0)
    decreases i
  {
    hide WellBehaved, Inert, AcceptsAll, Scan;
    var t := Scan(ps[0], false, s).0;
    OrderlyTail(ps);
    if i > 0 {
      StageIsSilentAfterwards(ps[1..], t, i - 1);
    } else {
      assert ps[0] in ps;
      RescanIsSilent(ps[0], false, false, s);
      if |ps| > 1 {
        SilentMeansNoMatch(ps[0], false, t);
        FreeStaysFree(ps[0], ps[1..], t);
        NoMatchIsSilent(ps[0], false, Redact(ps, s).0);
      } else {
        assert Redact(ps[1..], t).0 == t;
      }
    }
  }

  lemma {:induction false} SilentPipeline(ps: seq<Pattern>, s: string)
    requires forall i :: 0 <= i < |ps| ==> Scan(ps[i], false, s) == (s, 0)
    ensures Redact(ps, s) == (s, multiset{})
  {
    hide Scan;
    if ps != [] {
      assert Scan(ps[0], false, s) == (s, 0);
      forall i | 0 <= i < |ps[1..]| ensures Scan(ps[1..][i], false, s) == (s, 0) {
        assert ps[1..][i] == ps[i + 1];
      }
      SilentPipeline(ps[1..], s);
      assert Repeated(ps[0].name, 0) + multiset{} == multiset{};
      assert Redact(ps, s) == (s, Repeated(ps[0].name, 0) + multiset{});
    }
  }

  /** Redacting an already redacted text changes nothing and counts no hit. */
  lemma RedactIsIdempotent(ps: seq<Pattern>, s: string)
    requires Orderly(ps)
    ensures Redact(ps, Redact(ps, s).0) == (Redact(ps, s).0, multiset{})
  {
    hide Orderly, Scan;
    forall i | 0 <= i < |ps| ensures Scan(ps[i], false, Redact(ps, s).0) == (Redact(ps, s).0, 0) {
      StageIsSilentAfterwards(ps, s, i);
    }
    SilentPipeline(ps, Redact(ps, s).0);
  }

  lemma {:induction false} ScanWithoutHits(p: Pattern, prev: bool, s: string)
    requires Scan(p, prev, s).1 == 0
    ensures Scan(p, prev, s).0 == s
    decreases |s|
  {
    hide Scan, Matches;
    ScanEmpty(p, prev);
    if s != [] {
      var n := Longest(p, prev, s, |s|);
      if n == 0 { ScanCopies(p, prev, s); }
      else if p.accept(s[..n]) { ScanReplaces(p, prev, s, n); }
      else { ScanRefuses(p, prev, s, n); }
      var k := if n == 0 then 1 else n;
      assert s == s[..k] + s[k..];
      ScanWithoutHits(p, IsWord(s[k - 1]), s[k..]);
    }
  }

  lemma {:induction false} RedactWithoutHits(ps: seq<Pattern>, s: string)
    requires Redact(ps, s).1 == multiset{}
    ensures Redact(ps, s).0 == s
  {
    if ps != [] {
      var here := Scan(ps[0], false, s);
      var all := Repeated(ps[0].name, here.1) + Redact(ps[1..], here.0).1;
      assert all[ps[0].name] == 0;
      assert Redact(ps[1..], here.0).1 <= all;
      ScanWithoutHits(ps[0], false, s);
      RedactWithoutHits(ps[1..], s);
    }
  }

  // ------------------------------------------------- what is not redacted survives

  predicate NoBrackets(m: string) {
    '[' !in m && ']' !in m
  }

  /** The texts pattern p cuts out of s, in order. */
  function Removed(p: Pattern, prev: bool, s: string): seq<string>
    decreases |s|
  {
    if s == [] then []
    else
      var n := Longest(p, prev, s, |s|);
      if n == 0 then Removed(p, IsWord(s[0]), s[1..])
      else
        (if p.accept(s[..n]) then [s[..n]] else []) + Removed(p, IsWord(s[n - 1]), s[n..])
  }

  /** Puts the removed texts back in place of the tokens called name. */
  function Fill(name: string, out: string, removed: seq<string>): string
    decreases |out|
  {
    if out == [] then []
    else if Token(name) <= out && removed != [] then
      removed[0] + Fill(name, out[|Token(name)|..], removed[1..])
    else [out[0]] + Fill(name, out[1..], removed)
  }

  /** The text does not already contain a token called name. */
  predicate Unmarked(name: string, s: string)
    decreases |s|
  {
    s == [] || (!(Token(name) <= s) && Unmarked(name, s[1..]))
  }

  lemma {:induction false} UnmarkedDrop(name: string, s: string, k: nat)
    requires Unmarked(name, s) && k <= |s|
    ensures Unmarked(name, s[k..])
  {
    if k > 0 {
      UnmarkedDrop(name, s[1..], k - 1);
      assert s[1..][k - 1..] == s[k..];
    }
  }

  lemma {:induction false} FillCopies(name: string, c: string, rest: string, removed: seq<string>)
    requires '[' !in c
    ensures Fill(name, c + rest, removed) == c + Fill(name, rest, removed)
  {
    if c == [] {
      assert c + rest == rest;
    } else {
      assert Token(name)[0] == '[' && (c + rest)[0] == c[0];
      assert c[0] in c;
      assert (c + rest)[1..] == c[1..] + rest;
      FillCopies(name, c[1..], rest, removed);
    }
  }

  lemma NothingToFill(name: string)
    ensures Fill(name, [], []) == []
  {
  }

  lemma FillToken(name: string, rest: string, first: string, more: seq<string>)
    ensures Fill(name, Token(name) + rest, [first] + more) == first + Fill(name, rest, more)
  {
    assert (Token(name) + rest)[|Token(name)|..] == rest && ([first] + more)[1..] == more;
  }

  lemma FillChar(name: string, c: char, rest: string, removed: seq<string>)
    requires !(Token(name) <= [c] + rest)
    ensures Fill(name, [c] + rest, removed) == [c] + Fill(name, rest, removed)
  {
    assert ([c] + rest)[1..] == rest;
  }

  lemma TokenBody(name: string)
    requires NoBrackets(name)
    ensures '[' !in Token(name)[1..]
  {
    forall i | 1 <= i < |Token(name)| ensures Token(name)[i] != '[' {
      if i >= 10 && i < |name| + 10 {
        assert Token(name)[i] == name[i - 10];
      }
    }
  }

  /** A token in front of a scan's output that starts with a copied character was
      already in the input. */
  lemma TokenNotCreated(name: string, q: Pattern, w: bool, c: char, s: string)
    requires WellBehaved(q) && NoBrackets(name)
    requires Token(name) <= [c] + Scan(q, w, s).0
    ensures Token(name) <= [c] + s
  {
    hide Scan, WellBehaved;
    var rest := Scan(q, w, s).0;
    var n := |Token(name)| - 1;
    TokenBody(name);
    assert rest[..n] == ([c] + rest)[1..n + 1] == Token(name)[1..];
    CopiedPrefix(q, w, s, n);
    assert ([c] + s)[..n + 1] == [c] + s[..n];
    assert [c] + rest[..n] == Token(name);
  }

  lemma MatchHasNoBracket(p: Pattern, prev: bool, s: string, k: nat)
    requires WellBehaved(p) && Matches(p, prev, s, k)
    ensures '[' !in s[..k]
  {
  }

  /** Scanning is invertible given the removed texts: every other character is kept,
      in place and in order. */
  lemma {:induction false} FillInvertsScan(p: Pattern, prev: bool, s: string)
    requires WellBehaved(p) && NoBrackets(p.name) && Unmarked(p.name, s)
    ensures Fill(p.name, Scan(p, prev, s).0, Removed(p, prev, s)) == s
    ensures |Removed(p, prev, s)| == Scan(p, prev, s).1
    decreases |s|
  {
    hide Scan, WellBehaved, Matches, Fill, Token;
    ScanEmpty(p, prev);
    if s == [] {
      NothingToFill(p.name);
    } else {
      var k := Longest(p, prev, s, |s|);
      var h := if k == 0 then 1 else k;
      var w := IsWord(s[h - 1]);
      var rest := Scan(p, w, s[h..]).0;
      var removed := Removed(p, w, s[h..]);
      UnmarkedDrop(p.name, s, h);
      FillInvertsScan(p, w, s[h..]);
      assert s == s[..h] + s[h..];
      if k == 0 {
        ScanCopies(p, prev, s);
        if Token(p.name) <= [s[0]] + rest {
          TokenNotCreated(p.name, p, w, s[0], s[1..]);
        }
        FillChar(p.name, s[0], rest, removed);
      } else if p.accept(s[..k]) {
        ScanReplaces(p, prev, s, k);
        FillToken(p.name, rest, s[..k], removed);
      } else {
        ScanRefuses(p, prev, s, k);
        MatchHasNoBracket(p, prev, s, k);
        FillCopies(p.name, s[..k], rest, removed);
        assert [] + removed == removed;
      }
    }
  }

  /** A token in front of a text that starts with a token is that token. */
  lemma TokensDiffer(a: string, b: string, rest: string)
    requires NoBrackets(a) && NoBrackets(b)
    requires Token(a) <= Token(b) + rest
    ensures a == b
  {
    var t := Token(b) + rest;
    assert forall i :: 0 <= i < |Token(a)| ==> t[i] == Token(a)[i];
    assert t[|a| + 10] == ']' && t[|b| + 10] == ']';
    assert forall i :: 0 <= i < |a| ==> t[i + 10] == a[i] != ']';
    assert forall i :: 0 <= i < |b| ==> t[i + 10] == b[i] != ']';
    assert |a| == |b|;
    assert forall i :: 0 <= i < |a| ==> a[i] == b[i];
  }

  lemma {:induction false} UnmarkedConcat(name: string, c: string, rest: string)
    requires Unmarked(name, rest)
    requires forall i :: 0 <= i < |c| ==> !(Token(name) <= c[i..] + rest)
    ensures Unmarked(name, c + rest)
  {
    if c == [] {
      assert c + rest == rest;
    } else {
      assert c[0..] == c && (c + rest)[1..] == c[1..] + rest;
      forall i | 0 <= i < |c[1..]| ensures !(Token(name) <= c[1..][i..] + rest) {
        assert c[1..][i..] == c[i + 1..];
      }
      UnmarkedConcat(name, c[1..], rest);
    }
  }

  /** Other patterns' scans do not bring in a token called name. */
  lemma {:induction false} UnmarkedStays(name: string, q: Pattern, prev: bool, s: string)
    requires WellBehaved(q) && NoBrackets(name) && NoBrackets(q.name) && name != q.name
    requires Unmarked(name, s)
    ensures Unmarked(name, Scan(q, prev, s).0)
    decreases |s|
  {
    hide Scan, WellBehaved, Matches;
    ScanEmpty(q, prev);
    if s != [] {
      var k := Longest(q, prev, s, |s|);
      var h := if k == 0 then 1 else k;
      var w := IsWord(s[h - 1]);
      var rest := Scan(q, w, s[h..]).0;
      UnmarkedDrop(name, s, h);
      UnmarkedStays(name, q, w, s[h..]);
      var head := if k > 0 && q.accept(s[..k]) then Token(q.name) else s[..h];
      if k == 0 { ScanCopies(q, prev, s); }
      else if q.accept(s[..k]) { ScanReplaces(q, prev, s, k); }
      else { ScanRefuses(q, prev, s, k); MatchHasNoBracket(q, prev, s, k); }
      forall i | 0 <= i < |head| ensures !(Token(name) <= head[i..] + rest) {
        if head[i] != '[' {
          assert Token(name)[0] == '[' && (head[i..] + rest)[0] == head[i];
        } else if k == 0 {
          assert head[0..] == [s[0]] && s == [s[0]] + s[1..];
          if Token(name) <= [s[0]] + rest {
            TokenNotCreated(name, q, w, s[0], s[1..]);
          }
        } else {
          HeadBracket(head, q.name, s, k, i);
          assert head[0..] == head;
          if Token(name) <= Token(q.name) + rest {
            TokensDiffer(name, q.name, rest);
          }
        }
      }
      UnmarkedConcat(name, head, rest);
    }
  }

  /** The only bracket that opens inside an emitted chunk is the first of a token. */
  lemma HeadBracket(head: string, name: string, s: string, k: nat, i: nat)
    requires NoBrackets(name) && k <= |s| && i < |head| && head[i] == '['
    requires head == Token(name) || (head == s[..k] && '[' !in s[..k])
    ensures i == 0 && head == Token(name)
  {
    TokenBody(name);
    assert forall j :: 1 <= j < |Token(name)| ==> Token(name)[j] == Token(name)[1..][j - 1];
  }

  /** The texts removed by each stage of the pipeline. */
  function RemovedAll(ps: seq<Pattern>, s: string): (r: seq<seq<string>>)
    ensures |r| == |ps|
  {
    if ps == [] then []
    else [Removed(ps[0], false, s)] + RemovedAll(ps[1..], Scan(ps[0], false, s).0)
  }

  /** Puts the removed texts back, last stage first. */
  function FillAll(ps: seq<Pattern>, out: string, removed: seq<seq<string>>): string
    requires |removed| == |ps|
  {
    if ps == [] then out
    else Fill(ps[0].name, FillAll(ps[1..], out, removed[1..]), removed[0])
  }

  /** For a prompt that contains no token yet, the removed texts put back into the
      redacted prompt give the prompt: redaction touches nothing but the matches. */
  lemma {:induction false} RedactionKeepsTheRest(ps: seq<Pattern>, s: string)
    requires forall p :: p in ps ==> WellBehaved(p) && NoBrackets(p.name) && Unmarked(p.name, s)
    requires forall i, j :: 0 <= i < j < |ps| ==> ps[i].name != ps[j].name
    ensures FillAll(ps, Redact(ps, s).0, RemovedAll(ps, s)) == s
  {
    hide WellBehaved, Scan;
    if ps != [] {
      var p := ps[0];
      var t := Scan(p, false, s).0;
      assert p in ps;
      FillInvertsScan(p, false, s);
      forall q | q in ps[1..] ensures WellBehaved(q) && NoBrackets(q.name) && Unmarked(q.name, t) {
        assert q in ps;
        var j :| 0 <= j < |ps[1..]| && ps[1..][j] == q;
        assert ps[j + 1].name != ps[0].name;
        UnmarkedStays(q.name, p, false, s);
      }
      RedactionKeepsTheRest(ps[1..], t);
      assert RemovedAll(ps, s)[1..] == RemovedAll(ps[1..], t);
    }
  }
}
