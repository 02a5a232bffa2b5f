/** String helpers shared by every part of the model: ASCII case folding, trimming
    and a few facts about them. Unicode folding is outside the model. */
module Text {

  datatype Option<+T> = None | Some(value: T)

  function LowerChar(c: char): char {
    if 'A' <= c <= 'Z' then (c as int + 32) as char else c
  }

  function Lower(s: string): (r: string)
    ensures |r| == |s|
    ensures forall i :: 0 <= i < |s| ==> r[i] == LowerChar(s[i])
  {
    seq(|s|, i requires 0 <= i < |s| => LowerChar(s[i]))
  }

  predicate EqualFold(a: string, b: string) {
    Lower(a) == Lower(b)
  }

  predicate IsSpace(c: char) {
    c == ' ' || c == '\t' || c == '\n' || c == '\r' || c == '\U{000B}' || c == '\U{000C}'
  }

  function TrimLeft(s: string): string {
    if s != [] && IsSpace(s[0]) then TrimLeft(s[1..]) else s
  }

  function TrimRight(s: string): string {
    if s != [] && IsSpace(s[|s| - 1]) then TrimRight(s[..|s| - 1]) else s
  }

  function Trim(s: string): string {
    TrimRight(TrimLeft(s))
  }

  predicate Blank(s: string) {
    Trim(s) == ""
  }

  predicate IsDigit(c: char) {
    '0' <= c <= '9'
  }

  predicate IsLetter(c: char) {
    'a' <= c <= 'z' || 'A' <= c <= 'Z'
  }

  // -------------------------------------------------- what trimming and folding come to

  const SPACES := " \t\n\r\U{000B}\U{000C}"

  lemma {:induction false} LeftTrimmed(before: string, s: string)
    requires (forall c :: c in before ==> c in SPACES) && (s == "" || s[0] !in SPACES)
    ensures TrimLeft(before + s) == s
  {
    if before == "" {
      assert before + s == s;
    } else {
      assert before[0] in before && (before + s)[1..] == before[1..] + s;
      LeftTrimmed(before[1..], s);
    }
  }

  lemma {:induction false} RightTrimmed(s: string, after: string)
    requires (forall c :: c in after ==> c in SPACES) && (s == "" || s[|s| - 1] !in SPACES)
    ensures TrimRight(s + after) == s
  {
    if after == "" {
      assert s + after == s;
    } else {
      var n := |after| - 1;
      assert after[n] in after && (s + after)[..|s| + n] == s + after[..n];
      RightTrimmed(s, after[..n]);
    }
  }

  /** Trimming takes away the white space at both ends and nothing else. */
  lemma TrimExactly(before: string, s: string, after: string)
    requires forall c :: c in before + after ==> c in SPACES
    requires s == "" || (s[0] !in SPACES && s[|s| - 1] !in SPACES)
    ensures Trim(before + s + after) == s
  {
    forall c | c in before ensures c in SPACES {
      assert c in before + after;
    }
    forall c | c in after ensures c in SPACES {
      assert c in before + after;
    }
    if s == "" {
      assert before + s + after == before + after + "";
      LeftTrimmed(before + after, "");
      RightTrimmed("", "");
    } else {
      assert before + s + after == before + (s + after);
      LeftTrimmed(before, s + after);
      RightTrimmed(s, after);
    }
  }

  /** The same letter in either case, or the same character. */
  predicate SameLetter(a: char, b: char) {
    a == b || (a in "ABCDEFGHIJKLMNOPQRSTUVWXYZ" && b as int == a as int + 32)
           || (b in "ABCDEFGHIJKLMNOPQRSTUVWXYZ" && a as int == b as int + 32)
  }

  /** Folding forgets the case of the ASCII letters and nothing else. */
  lemma FoldExactly(a: string, b: string)
    ensures EqualFold(a, b) <==> |a| == |b| && forall i :: 0 <= i < |a| ==> SameLetter(a[i], b[i])
  {
    forall c: char, d: char ensures LowerChar(c) == LowerChar(d) <==> SameLetter(c, d) {
      assert 'A' <= c <= 'Z' <==> c in "ABCDEFGHIJKLMNOPQRSTUVWXYZ";
      assert 'A' <= d <= 'Z' <==> d in "ABCDEFGHIJKLMNOPQRSTUVWXYZ";
    }
    hide LowerChar, SameLetter;
    if EqualFold(a, b) {
      assert |Lower(a)| == |Lower(b)|;
      forall i | 0 <= i < |a| ensures SameLetter(a[i], b[i]) {
        assert Lower(a)[i] == Lower(b)[i];
      }
    }
  }
}
