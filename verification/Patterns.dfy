/** The nine patterns of the gateway, as the languages of their expressions, and why
    they meet the conditions of the pipeline theorems. */
module Patterns {
  import opened Text
  import opened Scanner
  import opened Pipeline
  import Luhn

  predicate UpperAlnum(c: char) { IsDigit(c) || 'A' <= c <= 'Z' }
  predicate Alnum(c: char) { IsDigit(c) || IsLetter(c) }
  predicate KeyChar(c: char) { Alnum(c) || c == '_' || c == '-' }
  predicate LocalChar(c: char) { Alnum(c) || c in "._%+-" }
  predicate DomainChar(c: char) { Alnum(c) || c == '.' || c == '-' }

  predicate All(s: string, ok: char -> bool) {
    forall i :: 0 <= i < |s| ==> ok(s[i])
  }

  predicate AwsKey(m: string) {
    |m| == 20 && (m[..4] == "AKIA" || m[..4] == "ASIA") && All(m[4..], UpperAlnum)
  }

  predicate PemKind(k: string) {
    k == "RSA " || k == "EC " || k == "OPENSSH " || k == ""
  }

  predicate PrivateKey(m: string) {
    && |m| >= 27
    && m[..11] == "-----BEGIN "
    && PemKind(m[11..|m| - 16])
    && m[|m| - 16..] == "PRIVATE KEY-----"
  }

  predicate AnthropicKey(m: string) {
    |m| >= 27 && m[..7] == "sk-ant-" && All(m[7..], KeyChar)
  }

  predicate OpenAiKey(m: string) {
    |m| >= 23 && m[..3] == "sk-" && All(m[3..], KeyChar)
  }

  predicate GitHubToken(m: string) {
    |m| >= 24 && m[..2] == "gh" && m[2] in "pousr" && m[3] == '_' && All(m[4..], Alnum)
  }

  predicate Jwt(m: string) {
    exists i, j :: 13 <= i && i + 11 <= j && j + 11 <= |m|
      && m[..3] == "eyJ" && All(m[3..i], KeyChar)
      && m[i] == '.' && All(m[i + 1..j], KeyChar)
      && m[j] == '.' && All(m[j + 1..], KeyChar)
  }

  predicate Ssn(m: string) {
    && |m| == 11 && All(m[..3], IsDigit) && m[3] == '-'
    && All(m[4..6], IsDigit) && m[6] == '-' && All(m[7..], IsDigit)
  }

  predicate Email(m: string) {
    exists at, dot :: 1 <= at && at + 2 <= dot && dot + 3 <= |m|
      && All(m[..at], LocalChar) && m[at] == '@'
      && All(m[at + 1..dot], DomainChar) && m[dot] == '.' && All(m[dot + 1..], IsLetter)
  }

  /** Digit groups of the given sizes, each but the last optionally followed by a
      space or a hyphen. */
  predicate Grouped(m: string, sizes: seq<nat>)
    decreases |sizes|
  {
    if |sizes| <= 1 then |sizes| == 1 && |m| == sizes[0] && All(m, IsDigit)
    else
      && |m| > sizes[0] && All(m[..sizes[0]], IsDigit)
      && var rest := m[sizes[0]..];
         Grouped(rest, sizes[1..])
         || ((rest[0] == ' ' || rest[0] == '-') && Grouped(rest[1..], sizes[1..]))
  }

  predicate CardShape(m: string) {
    Grouped(m, [4, 4, 4, 4]) || Grouped(m, [4, 6, 5])
  }

  predicate Always(m: string) { true }

  const PATTERNS: seq<Pattern> := [
    Pattern("aws_access_key", AwsKey, true, Always),
    Pattern("private_key", PrivateKey, false, Always),
    Pattern("anthropic_key", AnthropicKey, true, Always),
    Pattern("openai_key", OpenAiKey, true, Always),
    Pattern("github_token", GitHubToken, true, Always),
    Pattern("jwt", Jwt, true, Always),
    Pattern("ssn", Ssn, true, Always),
    Pattern("email", Email, true, Always),
    Pattern("credit_card", CardShape, true, Luhn.Valid)
  ]

  predicate TokenChar(c: char) {
    c == '[' || c == ']' || c == ':' || c == '_' || 'a' <= c <= 'z' || c in "REDACT"
  }

  predicate NotBracket(c: char) {
    c != '[' && c != ']'
  }

  lemma AllMembers(s: string, ok: char -> bool)
    requires All(s, ok)
    ensures forall c :: c in s ==> ok(c)
  {
  }

  lemma AllConcat(a: string, b: string, ok: char -> bool)
    requires All(a, ok) && All(b, ok)
    ensures All(a + b, ok)
  {
  }

  predicate PlainName(name: string) {
    |name| <= 14 && All(name, TokenChar)
  }

  /** A text that cannot be part of a token: too long, or using a foreign character. */
  ghost predicate Foreign(m: string) {
    |m| >= 24 || exists c :: c in m && !TokenChar(c)
  }

  lemma TokenOfPlainName(name: string)
    requires PlainName(name)
    ensures |Token(name)| <= 25 && forall c :: c in Token(name) ==> TokenChar(c)
  {
    AllConcat("[REDACTED:", name, TokenChar);
    AllConcat("[REDACTED:" + name, "]", TokenChar);
    AllMembers(Token(name), TokenChar);
  }

  /** No brackets at positions a to b of m. */
  predicate Clean(m: string, a: nat, b: nat) {
    b <= |m| && forall k :: a <= k < b ==> NotBracket(m[k])
  }

  lemma AllClean(m: string, a: nat, b: nat, ok: char -> bool)
    requires a <= b <= |m| && All(m[a..b], ok) && !ok('[') && !ok(']')
    ensures Clean(m, a, b)
  {
    forall k | a <= k < b ensures NotBracket(m[k]) {
      assert m[k] == m[a..b][k - a];
    }
  }

  lemma AwsKeyShape(m: string)
    requires AwsKey(m)
    ensures NoBrackets(m) && Foreign(m)
  {
    AllClean(m, 4, 20, UpperAlnum);
    assert m[4..20] == m[4..];
    assert forall k :: 0 <= k < 4 ==> m[k] == m[..4][k];
    assert m[2] == 'I' && m[2] in m && !TokenChar('I');
  }

  /** A text framed by dashes. */
  lemma DashedShape(head: string, kind: string, tail: string)
    requires All(head, NotBracket) && All(kind, NotBracket) && All(tail, NotBracket)
    requires head != [] && head[0] == '-' && tail != [] && tail[|tail| - 1] == '-'
    ensures var m := head + kind + tail;
            NoBrackets(m) && Foreign(m) && m[0] == '-' && m[|m| - 1] == '-'
  {
    AllConcat(head, kind, NotBracket);
    AllConcat(head + kind, tail, NotBracket);
    AllMembers(head + kind + tail, NotBracket);
    assert (head + kind + tail)[0] == '-' && !TokenChar('-');
  }

  lemma PrivateKeyShape(m: string)
    requires PrivateKey(m)
    ensures m != [] && NoBrackets(m) && Foreign(m)
    ensures !IsWord(m[0]) && !IsWord(m[|m| - 1])
  {
    hide NoBrackets, Foreign, All;
    var head, kind, tail := m[..11], m[11..|m| - 16], m[|m| - 16..];
    PemPartsPlain(head, kind, tail);
    DashedShape(head, kind, tail);
    assert m == head + kind + tail;
  }

  lemma PemPartsPlain(head: string, kind: string, tail: string)
    requires head == "-----BEGIN " && PemKind(kind) && tail == "PRIVATE KEY-----"
    ensures All(head, NotBracket) && All(kind, NotBracket) && All(tail, NotBracket)
  {
  }

  lemma AnthropicKeyShape(m: string)
    requires AnthropicKey(m)
    ensures NoBrackets(m) && Foreign(m)
  {
    assert m[7..|m|] == m[7..];
    AllClean(m, 7, |m|, KeyChar);
    assert forall k :: 0 <= k < 7 ==> m[k] == m[..7][k];
    assert m[2] in m && !TokenChar('-');
  }

  lemma OpenAiKeyShape(m: string)
    requires OpenAiKey(m)
    ensures NoBrackets(m) && Foreign(m)
  {
    assert m[3..|m|] == m[3..];
    AllClean(m, 3, |m|, KeyChar);
    assert forall k :: 0 <= k < 3 ==> m[k] == m[..3][k];
    assert m[2] in m && !TokenChar('-');
  }

  lemma GitHubTokenShape(m: string)
    requires GitHubToken(m)
    ensures NoBrackets(m) && Foreign(m)
  {
    AllClean(m, 4, |m|, Alnum);
    assert m[4..|m|] == m[4..];
    assert m[0] == m[..2][0] && m[1] == m[..2][1];
    AllMembers("pousr", NotBracket);
  }

  lemma JwtShape(m: string)
    requires Jwt(m)
    ensures m != [] && NoBrackets(m) && Foreign(m)
  {
    var i, j :| 13 <= i && i + 11 <= j && j + 11 <= |m|
      && m[..3] == "eyJ" && All(m[3..i], KeyChar)
      && m[i] == '.' && All(m[i + 1..j], KeyChar)
      && m[j] == '.' && All(m[j + 1..], KeyChar);
    assert m[j + 1..|m|] == m[j + 1..];
    AllClean(m, 3, i, KeyChar);
    AllClean(m, i + 1, j, KeyChar);
    AllClean(m, j + 1, |m|, KeyChar);
    assert forall k :: 0 <= k < 3 ==> m[k] == m[..3][k];
  }

  lemma EmailShape(m: string)
    requires Email(m)
    ensures m != [] && NoBrackets(m) && Foreign(m)
  {
    var at, dot :| 1 <= at && at + 2 <= dot && dot + 3 <= |m|
      && All(m[..at], LocalChar) && m[at] == '@'
      && All(m[at + 1..dot], DomainChar) && m[dot] == '.' && All(m[dot + 1..], IsLetter);
    assert m[0..at] == m[..at] && m[dot + 1..|m|] == m[dot + 1..];
    AllClean(m, 0, at, LocalChar);
    AllClean(m, at + 1, dot, DomainChar);
    AllClean(m, dot + 1, |m|, IsLetter);
    assert m[at] in m && !TokenChar('@');
  }

  lemma SsnShape(m: string)
    requires Ssn(m)
    ensures NoBrackets(m) && Foreign(m)
  {
    assert m[0..3] == m[..3] && m[7..|m|] == m[7..];
    AllClean(m, 0, 3, IsDigit);
    AllClean(m, 4, 6, IsDigit);
    AllClean(m, 7, 11, IsDigit);
    assert m[3] in m && !TokenChar('-');
  }

  lemma {:induction false} GroupedShape(m: string, sizes: seq<nat>)
    requires Grouped(m, sizes) && forall k :: 0 <= k < |sizes| ==> sizes[k] > 0
    ensures Clean(m, 0, |m|) && m != []
    ensures IsDigit(m[0]) && IsDigit(m[|m| - 1])
    decreases |sizes|
  {
    var k := sizes[0];
    if |sizes| > 1 {
      var rest := m[k..];
      assert m[0..k] == m[..k];
      AllClean(m, 0, k, IsDigit);
      assert m[0] == m[..k][0];
      if Grouped(rest, sizes[1..]) {
        GroupedShape(rest, sizes[1..]);
        assert forall i :: k <= i < |m| ==> m[i] == rest[i - k];
      } else {
        GroupedShape(rest[1..], sizes[1..]);
        assert forall i :: k < i < |m| ==> m[i] == rest[1..][i - k - 1];
      }
    }
  }

  lemma CardShapeFacts(m: string)
    requires CardShape(m)
    ensures m != [] && NoBrackets(m) && Foreign(m)
    ensures IsWord(m[0]) && IsWord(m[|m| - 1])
  {
    if Grouped(m, [4, 4, 4, 4]) {
      GroupedShape(m, [4, 4, 4, 4]);
    } else {
      GroupedShape(m, [4, 6, 5]);
    }
    assert m[0] in m && !TokenChar(m[0]);
  }

  /** Every one of the nine patterns meets the conditions of the scanner theorems. */
  lemma PatternFits(i: nat, m: string)
    requires i < |PATTERNS| && PATTERNS[i].lang(m)
    ensures m != [] && NoBrackets(m) && Foreign(m)
    ensures i == 1 ==> !IsWord(m[0]) && !IsWord(m[|m| - 1])
    ensures i == 8 ==> IsWord(m[0]) && IsWord(m[|m| - 1])
  {
    hide NoBrackets, Foreign;
    if i == 0 { AwsKeyShape(m); }
    else if i == 1 { PrivateKeyShape(m); }
    else if i == 2 { AnthropicKeyShape(m); }
    else if i == 3 { OpenAiKeyShape(m); }
    else if i == 4 { GitHubTokenShape(m); }
    else if i == 5 { JwtShape(m); }
    else if i == 6 { SsnShape(m); }
    else if i == 7 { EmailShape(m); }
    else { CardShapeFacts(m); }
  }

  lemma PatternNamesPlain(i: nat)
    requires i < |PATTERNS|
    ensures PlainName(PATTERNS[i].name)
    ensures PATTERNS[i].bounded <==> i != 1
    ensures i < 8 ==> PATTERNS[i].accept == Always
  {
  }

  lemma PatternWellBehaved(i: nat)
    requires i < |PATTERNS|
    ensures WellBehaved(PATTERNS[i])
    ensures i < 8 ==> AcceptsAll(PATTERNS[i])
  {
    hide PATTERNS;
    var p := PATTERNS[i];
    PatternNamesPlain(i);
    assert |PATTERNS| == 9 by { PatternCount(); }
    forall m | p.lang(m)
      ensures m != [] && NoBrackets(m)
      ensures i == 1 ==> !IsWord(m[0]) && !IsWord(m[|m| - 1])
      ensures i == 8 ==> IsWord(m[0]) && IsWord(m[|m| - 1])
    {
      PatternFits(i, m);
    }
  }

  lemma PatternCount()
    ensures |PATTERNS| == 9
  {
  }

  lemma PatternInert(i: nat, j: nat)
    requires i < |PATTERNS| && j < |PATTERNS|
    ensures Inert(PATTERNS[i], PATTERNS[j].name)
  {
    hide PATTERNS;
    PatternNamesPlain(j);
    TokenOfPlainName(PATTERNS[j].name);
    forall m | PATTERNS[i].lang(m) ensures Foreign(m) {
      PatternFits(i, m);
    }
  }

  lemma PatternsOrderly()
    ensures Orderly(PATTERNS)
  {
    hide PATTERNS, WellBehaved, Inert, AcceptsAll;
    PatternCount();
    forall p | p in PATTERNS ensures WellBehaved(p) {
      var i :| 0 <= i < |PATTERNS| && PATTERNS[i] == p;
      PatternWellBehaved(i);
    }
    forall p, q | p in PATTERNS && q in PATTERNS ensures Inert(p, q.name) {
      var i :| 0 <= i < |PATTERNS| && PATTERNS[i] == p;
      var j :| 0 <= j < |PATTERNS| && PATTERNS[j] == q;
      PatternInert(i, j);
    }
    forall i | 0 <= i < |PATTERNS| - 1 ensures AcceptsAll(PATTERNS[i]) {
      PatternWellBehaved(i);
    }
  }

  lemma PatternNamesDistinct(i: nat, j: nat)
    requires i < j < |PATTERNS|
    ensures PATTERNS[i].name != PATTERNS[j].name
  {
  }

  lemma PlainHasNoBrackets(i: nat)
    requires i < |PATTERNS|
    ensures NoBrackets(PATTERNS[i].name)
  {
    assert All(PATTERNS[i].name, NotBracket);
  }
}
