/** What must be redacted: each pattern's texts put together from their parts, and the
    guarantee that such a text does not leave the pipeline as it came. */
module Secrets {
  import opened Text
  import opened Scanner
  import opened Pipeline
  import opened Refusals
  import opened Patterns
  import opened Cards
  import Luhn

  // ------------------------------------------- the character classes of the expressions

  predicate Digit(c: char) { '0' <= c <= '9' }
  predicate Letter(c: char) { 'A' <= c <= 'Z' || 'a' <= c <= 'z' }
  predicate UpperOrDigit(c: char) { 'A' <= c <= 'Z' || '0' <= c <= '9' }
  predicate LetterOrDigit(c: char) { 'A' <= c <= 'Z' || 'a' <= c <= 'z' || '0' <= c <= '9' }
  predicate KeyTail(c: char) { LetterOrDigit(c) || c == '_' || c == '-' }
  predicate MailLocal(c: char) { LetterOrDigit(c) || c == '.' || c == '_' || c == '%' || c == '+' || c == '-' }
  predicate MailDomain(c: char) { LetterOrDigit(c) || c == '.' || c == '-' }

  /** All characters in a class. */
  predicate Over(s: string, class_: char -> bool) {
    forall c :: c in s ==> class_(c)
  }

  lemma OverIsAll(s: string, class_: char -> bool, ok: char -> bool)
    requires forall c :: class_(c) == ok(c)
    ensures Over(s, class_) <==> All(s, ok)
  {
    if Over(s, class_) {
      forall i | 0 <= i < |s| ensures ok(s[i]) {
        assert s[i] in s;
      }
    }
  }

  lemma NarrowClasses(s: string)
    ensures Over(s, Digit) <==> All(s, IsDigit)
    ensures Over(s, Letter) <==> All(s, IsLetter)
    ensures Over(s, UpperOrDigit) <==> All(s, UpperAlnum)
    ensures Over(s, LetterOrDigit) <==> All(s, Alnum)
  {
    hide Over, All;
    OverIsAll(s, Digit, IsDigit);
    OverIsAll(s, Letter, IsLetter);
    OverIsAll(s, UpperOrDigit, UpperAlnum);
    OverIsAll(s, LetterOrDigit, Alnum);
  }

  lemma WideClasses(s: string)
    ensures Over(s, KeyTail) <==> All(s, KeyChar)
    ensures Over(s, MailLocal) <==> All(s, LocalChar)
    ensures Over(s, MailDomain) <==> All(s, DomainChar)
  {
    hide Over, All;
    OverIsAll(s, KeyTail, KeyChar);
    OverIsAll(s, MailLocal, LocalChar);
    OverIsAll(s, MailDomain, DomainChar);
  }

  lemma Classes(s: string)
    ensures Over(s, Digit) <==> All(s, IsDigit)
    ensures Over(s, Letter) <==> All(s, IsLetter)
    ensures Over(s, UpperOrDigit) <==> All(s, UpperAlnum)
    ensures Over(s, LetterOrDigit) <==> All(s, Alnum)
    ensures Over(s, KeyTail) <==> All(s, KeyChar)
    ensures Over(s, MailLocal) <==> All(s, LocalChar)
    ensures Over(s, MailDomain) <==> All(s, DomainChar)
  {
    hide *;
    NarrowClasses(s);
    WideClasses(s);
  }

  // ------------------------------------------------------------- the nine forms, in full

  ghost predicate AwsForm(m: string) {
    exists tail :: |tail| == 16 && Over(tail, UpperOrDigit) && (m == "AKIA" + tail || m == "ASIA" + tail)
  }

  ghost predicate PemForm(m: string) {
    exists kind :: (kind == "RSA " || kind == "EC " || kind == "OPENSSH " || kind == "")
      && m == "-----BEGIN " + kind + "PRIVATE KEY-----"
  }

  ghost predicate AnthropicForm(m: string) {
    exists tail :: |tail| >= 20 && Over(tail, KeyTail) && m == "sk-ant-" + tail
  }

  ghost predicate OpenAiForm(m: string) {
    exists tail :: |tail| >= 20 && Over(tail, KeyTail) && m == "sk-" + tail
  }

  ghost predicate GitHubForm(m: string) {
    exists kind: char, tail: string :: (kind == 'p' || kind == 'o' || kind == 'u' || kind == 's' || kind == 'r')
      && |tail| >= 20 && Over(tail, LetterOrDigit) && m == "gh" + [kind] + "_" + tail
  }

  ghost predicate JwtForm(m: string) {
    exists a, b, c :: |a| >= 10 && |b| >= 10 && |c| >= 10 && Over(a, KeyTail) && Over(b, KeyTail) && Over(c, KeyTail)
      && m == "eyJ" + a + "." + b + "." + c
  }

  ghost predicate SsnForm(m: string) {
    exists a, b, c :: |a| == 3 && |b| == 2 && |c| == 4 && Over(a, Digit) && Over(b, Digit) && Over(c, Digit)
      && m == a + "-" + b + "-" + c
  }

  ghost predicate MailForm(m: string) {
    exists local, domain, ending :: local != "" && domain != "" && |ending| >= 2
      && Over(local, MailLocal) && Over(domain, MailDomain) && Over(ending, Letter)
      && m == local + "@" + domain + "." + ending
  }

  predicate Separator(s: string) {
    s == "" || s == " " || s == "-"
  }

  predicate DigitGroup(g: string, n: nat) {
    |g| == n && Over(g, Digit)
  }

  ghost predicate CardForm(m: string) {
    || (exists a, s, b, t, c, u, d :: DigitGroup(a, 4) && DigitGroup(b, 4) && DigitGroup(c, 4) && DigitGroup(d, 4)
          && Separator(s) && Separator(t) && Separator(u) && m == a + (s + (b + (t + (c + (u + d))))))
    || (exists a, s, b, t, c :: DigitGroup(a, 4) && DigitGroup(b, 6) && DigitGroup(c, 5)
          && Separator(s) && Separator(t) && m == a + (s + (b + (t + c))))
  }

  lemma AwsIsForm(m: string)
    ensures AwsKey(m) <==> AwsForm(m)
  {
    if AwsKey(m) {
      Classes(m[4..]);
      assert m == m[..4] + m[4..];
    }
    if AwsForm(m) {
      var tail :| |tail| == 16 && Over(tail, UpperOrDigit) && (m == "AKIA" + tail || m == "ASIA" + tail);
      Classes(tail);
      assert m[4..] == tail;
    }
  }

  lemma PemIsForm(m: string)
    ensures PrivateKey(m) <==> PemForm(m)
  {
    if PrivateKey(m) {
      assert m == m[..11] + m[11..|m| - 16] + m[|m| - 16..];
    }
    if PemForm(m) {
      var kind :| (kind == "RSA " || kind == "EC " || kind == "OPENSSH " || kind == "")
        && m == "-----BEGIN " + kind + "PRIVATE KEY-----";
      assert m[11..|m| - 16] == kind && m[|m| - 16..] == "PRIVATE KEY-----" && m[..11] == "-----BEGIN ";
    }
  }

  lemma AnthropicIsForm(m: string)
    ensures AnthropicKey(m) <==> AnthropicForm(m)
  {
    if AnthropicKey(m) {
      Classes(m[7..]);
      assert m == m[..7] + m[7..];
    }
    if AnthropicForm(m) {
      var tail :| |tail| >= 20 && Over(tail, KeyTail) && m == "sk-ant-" + tail;
      Classes(tail);
      assert m[7..] == tail;
    }
  }

  lemma OpenAiIsForm(m: string)
    ensures OpenAiKey(m) <==> OpenAiForm(m)
  {
    if OpenAiKey(m) {
      Classes(m[3..]);
      assert m == m[..3] + m[3..];
    }
    if OpenAiForm(m) {
      var tail :| |tail| >= 20 && Over(tail, KeyTail) && m == "sk-" + tail;
      Classes(tail);
      assert m[3..] == tail;
    }
  }

  lemma GitHubFromParts(kind: char, tail: string)
    requires kind == 'p' || kind == 'o' || kind == 'u' || kind == 's' || kind == 'r'
    requires |tail| >= 20 && Over(tail, LetterOrDigit)
    ensures GitHubToken("gh" + [kind] + "_" + tail)
  {
    Classes(tail);
    hide Over, All;
    var m := "gh" + [kind] + "_" + tail;
    assert m[4..] == tail && m[2] == kind && m[..2] == "gh" && m[3] == '_';
    assert "pousr"[0] == 'p' && "pousr"[1] == 'o' && "pousr"[2] == 'u' && "pousr"[3] == 's' && "pousr"[4] == 'r';
  }

  lemma GitHubIsForm(m: string)
    ensures GitHubToken(m) <==> GitHubForm(m)
  {
    if GitHubToken(m) {
      Classes(m[4..]);
      hide Over, All;
      assert m[2] == 'p' || m[2] == 'o' || m[2] == 'u' || m[2] == 's' || m[2] == 'r';
      assert m == m[..2] + [m[2]] + [m[3]] + m[4..];
    }
    hide GitHubToken, Over;
    if GitHubForm(m) {
      var kind: char, tail: string :| (kind == 'p' || kind == 'o' || kind == 'u' || kind == 's' || kind == 'r')
        && |tail| >= 20 && Over(tail, LetterOrDigit) && m == "gh" + [kind] + "_" + tail;
      GitHubFromParts(kind, tail);
    }
  }

  lemma JwtFromParts(a: string, b: string, c: string)
    requires |a| >= 10 && |b| >= 10 && |c| >= 10 && Over(a, KeyTail) && Over(b, KeyTail) && Over(c, KeyTail)
    ensures Jwt("eyJ" + a + "." + b + "." + c)
  {
    Classes(a); Classes(b); Classes(c);
    hide Over, All;
    var m := "eyJ" + (a + ("." + (b + ("." + c))));
    assert m == "eyJ" + a + "." + b + "." + c;
    var i := 3 + |a|;
    var j := i + 1 + |b|;
    assert m[..3] == "eyJ" && m[3..i] == a && m[i] == '.' && m[i + 1..j] == b && m[j] == '.' && m[j + 1..] == c;
  }

  lemma JwtParts(m: string) returns (a: string, b: string, c: string)
    requires Jwt(m)
    ensures |a| >= 10 && |b| >= 10 && |c| >= 10 && Over(a, KeyTail) && Over(b, KeyTail) && Over(c, KeyTail)
    ensures m == "eyJ" + a + "." + b + "." + c
  {
    hide Over, All;
    var i, j :| 13 <= i && i + 11 <= j && j + 11 <= |m|
      && m[..3] == "eyJ" && All(m[3..i], KeyChar)
      && m[i] == '.' && All(m[i + 1..j], KeyChar)
      && m[j] == '.' && All(m[j + 1..], KeyChar);
    a, b, c := m[3..i], m[i + 1..j], m[j + 1..];
    Classes(a); Classes(b); Classes(c);
    assert m == m[..3] + m[3..i] + [m[i]] + m[i + 1..j] + [m[j]] + m[j + 1..];
  }

  lemma JwtIsForm(m: string)
    ensures Jwt(m) <==> JwtForm(m)
  {
    hide Over, Jwt;
    if Jwt(m) {
      var a, b, c := JwtParts(m);
    }
    if JwtForm(m) {
      var a, b, c :| |a| >= 10 && |b| >= 10 && |c| >= 10 && Over(a, KeyTail) && Over(b, KeyTail) && Over(c, KeyTail)
        && m == "eyJ" + a + "." + b + "." + c;
      JwtFromParts(a, b, c);
    }
  }

  lemma SsnFromParts(a: string, b: string, c: string)
    requires |a| == 3 && |b| == 2 && |c| == 4 && Over(a, Digit) && Over(b, Digit) && Over(c, Digit)
    ensures Ssn(a + "-" + b + "-" + c)
  {
    Classes(a); Classes(b); Classes(c);
    hide Over, All;
    var m := a + "-" + b + "-" + c;
    assert m[..3] == a && m[3] == '-' && m[4..6] == b && m[6] == '-' && m[7..] == c;
  }

  lemma SsnIsForm(m: string)
    ensures Ssn(m) <==> SsnForm(m)
  {
    hide Over, All;
    if Ssn(m) {
      Classes(m[..3]); Classes(m[4..6]); Classes(m[7..]);
      assert m == m[..3] + "-" + m[4..6] + "-" + m[7..];
    }
    if SsnForm(m) {
      var a, b, c :| |a| == 3 && |b| == 2 && |c| == 4 && Over(a, Digit) && Over(b, Digit) && Over(c, Digit)
        && m == a + "-" + b + "-" + c;
      hide Ssn;
      SsnFromParts(a, b, c);
    }
  }

  lemma MailFromParts(local: string, domain: string, ending: string)
    requires local != "" && domain != "" && |ending| >= 2
    requires Over(local, MailLocal) && Over(domain, MailDomain) && Over(ending, Letter)
    ensures Email(local + "@" + domain + "." + ending)
  {
    Classes(local); Classes(domain); Classes(ending);
    hide Over, All;
    var m := local + "@" + domain + "." + ending;
    var at := |local|;
    var dot := at + 1 + |domain|;
    assert m[..at] == local && m[at] == '@' && m[at + 1..dot] == domain && m[dot] == '.' && m[dot + 1..] == ending;
  }

  lemma MailParts(m: string) returns (local: string, domain: string, ending: string)
    requires Email(m)
    ensures local != "" && domain != "" && |ending| >= 2
    ensures Over(local, MailLocal) && Over(domain, MailDomain) && Over(ending, Letter)
    ensures m == local + "@" + domain + "." + ending
  {
    hide Over, All;
    var at, dot :| 1 <= at && at + 2 <= dot && dot + 3 <= |m|
      && All(m[..at], LocalChar) && m[at] == '@'
      && All(m[at + 1..dot], DomainChar) && m[dot] == '.' && All(m[dot + 1..], IsLetter);
    local, domain, ending := m[..at], m[at + 1..dot], m[dot + 1..];
    Classes(local); Classes(domain); Classes(ending);
    assert m == m[..at] + [m[at]] + m[at + 1..dot] + [m[dot]] + m[dot + 1..];
  }

  lemma MailIsForm(m: string)
    ensures Email(m) <==> MailForm(m)
  {
    hide Over, Email;
    if Email(m) {
      var local, domain, ending := MailParts(m);
    }
    if MailForm(m) {
      var local, domain, ending :| local != "" && domain != "" && |ending| >= 2
        && Over(local, MailLocal) && Over(domain, MailDomain) && Over(ending, Letter)
        && m == local + "@" + domain + "." + ending;
      MailFromParts(local, domain, ending);
    }
  }

  lemma GroupAlone(g: string, n: nat)
    ensures Grouped(g, [n]) <==> DigitGroup(g, n)
  {
    Classes(g);
  }

  /** A group, a separator and grouped digits are grouped digits. */
  lemma GroupFirst(g: string, s: string, rest: string, n: nat, sizes: seq<nat>)
    requires DigitGroup(g, n) && Separator(s) && sizes != [] && sizes[0] > 0 && Grouped(rest, sizes)
    ensures Grouped(g + (s + rest), [n] + sizes)
  {
    Classes(g);
    hide Over, All;
    var m := g + (s + rest);
    GroupedNotEmpty(rest, sizes);
    assert m[..n] == g && m[n..] == s + rest && ([n] + sizes)[1..] == sizes;
    if s == "" {
      assert s + rest == rest;
    } else {
      assert (s + rest)[0] == s[0] && (s + rest)[1..] == rest;
    }
  }

  lemma GroupedNotEmpty(m: string, sizes: seq<nat>)
    requires Grouped(m, sizes) && sizes != [] && sizes[0] > 0
    ensures m != ""
  {
  }

  lemma GroupTaken(m: string, sizes: seq<nat>) returns (g: string, s: string, rest: string)
    requires Grouped(m, sizes) && |sizes| > 1
    ensures DigitGroup(g, sizes[0]) && Separator(s) && Grouped(rest, sizes[1..]) && m == g + (s + rest)
  {
    s, rest := GroupedSplits(m, sizes);
    g := m[..sizes[0]];
    Classes(g);
  }

  lemma CardIsForm(m: string)
    ensures CardShape(m) <==> CardForm(m)
  {
    hide Grouped, DigitGroup, Separator;
    assert [4, 4, 4, 4][1..] == [4, 4, 4] && [4, 4, 4][1..] == [4, 4] && [4, 4][1..] == [4];
    assert [4, 6, 5][1..] == [6, 5] && [6, 5][1..] == [5];
    assert [4] + [4] == [4, 4] && [4] + [4, 4] == [4, 4, 4] && [4] + [4, 4, 4] == [4, 4, 4, 4];
    assert [6] + [5] == [6, 5] && [4] + [6, 5] == [4, 6, 5];
    if Grouped(m, [4, 4, 4, 4]) {
      var a, s, x := GroupTaken(m, [4, 4, 4, 4]);
      var b, t, y := GroupTaken(x, [4, 4, 4]);
      var c, u, d := GroupTaken(y, [4, 4]);
      GroupAlone(d, 4);
    } else if Grouped(m, [4, 6, 5]) {
      var a, s, x := GroupTaken(m, [4, 6, 5]);
      var b, t, c := GroupTaken(x, [6, 5]);
      GroupAlone(c, 5);
    }
    forall a, s, b, t, c, u, d | DigitGroup(a, 4) && DigitGroup(b, 4) && DigitGroup(c, 4) && DigitGroup(d, 4)
      && Separator(s) && Separator(t) && Separator(u)
      ensures Grouped(a + (s + (b + (t + (c + (u + d))))), [4, 4, 4, 4])
    {
      GroupAlone(d, 4);
      GroupFirst(c, u, d, 4, [4]);
      GroupFirst(b, t, c + (u + d), 4, [4, 4]);
      GroupFirst(a, s, b + (t + (c + (u + d))), 4, [4, 4, 4]);
    }
    forall a, s, b, t, c | DigitGroup(a, 4) && DigitGroup(b, 6) && DigitGroup(c, 5) && Separator(s) && Separator(t)
      ensures Grouped(a + (s + (b + (t + c))), [4, 6, 5])
    {
      GroupAlone(c, 5);
      GroupFirst(b, t, c, 6, [5]);
      GroupFirst(a, s, b + (t + c), 4, [6, 5]);
    }
  }

  /** The i-th form. */
  ghost predicate Form(i: nat, m: string) {
    if i == 0 then AwsForm(m)
    else if i == 1 then PemForm(m)
    else if i == 2 then AnthropicForm(m)
    else if i == 3 then OpenAiForm(m)
    else if i == 4 then GitHubForm(m)
    else if i == 5 then JwtForm(m)
    else if i == 6 then SsnForm(m)
    else if i == 7 then MailForm(m)
    else CardForm(m)
  }

  function Name(i: nat): string {
    if i == 0 then "aws_access_key"
    else if i == 1 then "private_key"
    else if i == 2 then "anthropic_key"
    else if i == 3 then "openai_key"
    else if i == 4 then "github_token"
    else if i == 5 then "jwt"
    else if i == 6 then "ssn"
    else if i == 7 then "email"
    else "credit_card"
  }

  /** Each pattern's language is its form, put together from parts over the classes of its
      expression; only the private key does without word boundaries; only cards are checked
      further. */
  lemma PatternIsForm(i: nat, m: string)
    requires i < |PATTERNS|
    ensures |PATTERNS| == 9 && PATTERNS[i].name == Name(i)
    ensures PATTERNS[i].lang(m) <==> Form(i, m)
    ensures PATTERNS[i].bounded <==> i != 1
    ensures PATTERNS[i].accept(m) <==> (i == 8 ==> Luhn.Valid(m))
  {
    hide AwsForm, PemForm, AnthropicForm, OpenAiForm, GitHubForm, JwtForm, SsnForm, MailForm, CardForm,
         AwsKey, PrivateKey, AnthropicKey, OpenAiKey, GitHubToken, Jwt, Ssn, Email, CardShape, Luhn.Valid;
    if i == 0 { AwsIsForm(m); }
    else if i == 1 { PemIsForm(m); }
    else if i == 2 { AnthropicIsForm(m); }
    else if i == 3 { OpenAiIsForm(m); }
    else if i == 4 { GitHubIsForm(m); }
    else if i == 5 { JwtIsForm(m); }
    else if i == 6 { SsnIsForm(m); }
    else if i == 7 { MailIsForm(m); }
    else { CardIsForm(m); }
  }

  // ----------------------------------------------------------- what leaves the pipeline

  /** The text begins and ends at a word boundary when it stands between others. */
  predicate StandsFree(i: nat, before: string, m: string, after: string)
    requires m != ""
  {
    i == 1 || (
      && WordBefore(false, before, |before|) != IsWord(m[0])
      && IsWord(m[|m| - 1]) != WordAt(after, 0))
  }

  lemma FormMatches(i: nat, before: string, m: string, after: string)
    requires i < |PATTERNS| && Form(i, m) && m != "" && StandsFree(i, before, m, after)
    ensures var s := before + m + after;
            |before| < |s| && Matches(PATTERNS[i], WordBefore(false, s, |before|), s[|before|..], |m|)
  {
    hide PATTERNS, Form;
    PatternIsForm(i, m);
    var s := before + m + after;
    assert s[|before|..] == m + after && (m + after)[..|m|] == m;
    assert WordAt(m + after, |m|) == WordAt(after, 0);
    assert before != "" ==> s[|before| - 1] == before[|before| - 1];
  }

  /** Whatever stands around it, a text of one of the first eight forms between word
      boundaries never goes through: there is a hit, the text changes, and nothing of any of
      these forms is left. */
  lemma FormIsRedacted(i: nat, before: string, m: string, after: string)
    requires i < 8 && Form(i, m) && m != "" && StandsFree(i, before, m, after)
    ensures var r := Redact(PATTERNS, before + m + after);
            && r.0 != before + m + after && r.1 != multiset{}
            && forall j :: 0 <= j < 8 && j < |PATTERNS| ==> NoMatch(PATTERNS[j], false, r.0)
  {
    PatternCount();
    PatternsOrderly();
    hide PATTERNS, Form, StandsFree, Matches, NoMatch, Redact, Orderly;
    var s := before + m + after;
    FormMatches(i, before, m, after);
    MatchShows(PATTERNS[i], false, s, |before|, |m|);
    forall j | 0 <= j < 8 ensures NoMatch(PATTERNS[j], false, Redact(PATTERNS, s).0) {
      StageIsSilentAfterwards(PATTERNS, s, j);
    }
    if Redact(PATTERNS, s).1 == multiset{} {
      RedactWithoutHits(PATTERNS, s);
    }
  }

  /** A text of one of the nine forms on its own, a card number passing the checksum, in
      which no earlier pattern finds anything, becomes exactly its token, with one hit. */
  lemma FormBecomesToken(i: nat, m: string)
    requires i < |PATTERNS| && Form(i, m) && m != "" && StandsFree(i, "", m, "") && (i == 8 ==> Luhn.Valid(m))
    requires forall j :: 0 <= j < i ==> NoMatch(PATTERNS[j], false, m)
    ensures Redact(PATTERNS, m) == ("[REDACTED:" + Name(i) + "]", multiset{Name(i)})
  {
    hide PATTERNS, Form, StandsFree, NoMatch, Redact, Matches, Luhn.Valid, Name;
    FormMatches(i, "", m, "");
    assert "" + m + "" == m && m[0..] == m;
    PatternIsForm(i, m);
    var p := PATTERNS[i];
    LongestIsWhole(p, m);
    RedactSkips(PATTERNS, m, i);
    ScanWhole(p, m);
    TokenStays(i);
    RedactStops(PATTERNS[i..], m, Token(p.name));
    assert PATTERNS[i..][0] == p && PATTERNS[i..][1..] == PATTERNS[i + 1..];
  }

  /** On its own, a text of any of the nine forms, a card number passing the checksum, does
      not go through. */
  lemma FormAloneIsRedacted(i: nat, m: string)
    requires i < |PATTERNS| && Form(i, m) && m != "" && StandsFree(i, "", m, "") && (i == 8 ==> Luhn.Valid(m))
    ensures Redact(PATTERNS, m).0 != m && Redact(PATTERNS, m).1 != multiset{}
  {
    PatternsOrderly();
    hide PATTERNS, Form, StandsFree, NoMatch, Redact, Matches, Luhn.Valid, Orderly;
    FormMatches(i, "", m, "");
    assert "" + m + "" == m && m[0..] == m;
    PatternIsForm(i, m);
    LongestIsWhole(PATTERNS[i], m);
    ScanWhole(PATTERNS[i], m);
    StageIsSilentAfterwards(PATTERNS, m, i);
    if Redact(PATTERNS, m).1 == multiset{} {
      RedactWithoutHits(PATTERNS, m);
    }
  }

  lemma LongestIsWhole(p: Pattern, m: string)
    requires m != "" && Matches(p, false, m, |m|)
    ensures Longest(p, false, m, |m|) == |m|
  {
  }

  lemma ScanWhole(p: Pattern, m: string)
    requires m != "" && Longest(p, false, m, |m|) == |m| && p.accept(m)
    ensures Scan(p, false, m) == (Token(p.name), 1)
  {
    hide Scan, Longest, Token;
    assert m[..|m|] == m && m[|m|..] == [];
    ScanReplaces(p, false, m, |m|);
    ScanEmpty(p, IsWord(m[|m| - 1]));
    assert Token(p.name) + [] == Token(p.name);
  }

  /** Stages without a match are passed. */
  lemma {:induction false} RedactSkips(ps: seq<Pattern>, m: string, i: nat)
    requires i <= |ps| && forall j :: 0 <= j < i ==> NoMatch(ps[j], false, m)
    ensures Redact(ps, m) == Redact(ps[i..], m)
  {
    hide NoMatch, Scan;
    if i > 0 {
      NoMatchIsSilent(ps[0], false, m);
      forall j | 0 <= j < i - 1 ensures NoMatch(ps[1..][j], false, m) {
        assert ps[1..][j] == ps[j + 1];
      }
      RedactSkips(ps[1..], m, i - 1);
      assert ps[1..][i - 1..] == ps[i..];
      assert Repeated(ps[0].name, 0) + Redact(ps[1..], m).1 == Redact(ps[1..], m).1;
    } else {
      assert ps[0..] == ps;
    }
  }

  lemma RedactStops(ps: seq<Pattern>, m: string, t: string)
    requires ps != [] && Scan(ps[0], false, m) == (t, 1)
    requires forall p :: p in ps[1..] ==> NoMatch(p, false, t)
    ensures Redact(ps, m) == (t, multiset{ps[0].name})
  {
    hide NoMatch, Scan;
    forall j | 0 <= j < |ps[1..]| ensures Scan(ps[1..][j], false, t) == (t, 0) {
      NoMatchIsSilent(ps[1..][j], false, t);
    }
    SilentPipeline(ps[1..], t);
    assert Repeated(ps[0].name, 1) + multiset{} == multiset{ps[0].name};
  }

  lemma TokenStays(i: nat)
    requires i < |PATTERNS|
    ensures forall p :: p in PATTERNS[i + 1..] ==> NoMatch(p, false, Token(PATTERNS[i].name))
  {
    hide PATTERNS, WellBehaved, Inert, Matches, Token;
    forall p | p in PATTERNS[i + 1..] ensures NoMatch(p, false, Token(PATTERNS[i].name)) {
      var j :| 0 <= j < |PATTERNS| && PATTERNS[j] == p;
      PatternWellBehaved(j);
      PatternInert(j, i);
      var t := Token(PATTERNS[i].name);
      NoMatchToken(p, PATTERNS[i].name, false, 0, []);
      assert t[0..] + [] == t;
    }
  }
}
