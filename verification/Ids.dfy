/** Identifiers and the decimal printing of numbers. Database ids are naturals; only the
    fact that different ids have different texts is used of their printed form. */
module Ids {
  import opened Text

  type Id = nat

  function DigitChar(d: nat): char
    requires d < 10
  {
    ('0' as int + d) as char
  }

  function Decimal(n: nat): (s: string)
    ensures s != "" && forall c :: c in s ==> IsDigit(c)
  {
    if n < 10 then [DigitChar(n)] else Decimal(n / 10) + [DigitChar(n % 10)]
  }

  /** %d of a signed integer. */
  function Print(n: int): (s: string)
    ensures s != "" && forall c :: c in s ==> IsDigit(c) || c == '-'
  {
    if n < 0 then "-" + Decimal(-n) else Decimal(n)
  }

  function IdText(id: Id): string {
    Decimal(id)
  }

  lemma {:induction false} DecimalInjective(m: nat, n: nat)
    requires Decimal(m) == Decimal(n)
    ensures m == n
  {
    var a, b := Decimal(m), Decimal(n);
    assert a[|a| - 1] == DigitChar(m % 10) && b[|b| - 1] == DigitChar(n % 10);
    if m >= 10 && n >= 10 {
      assert a[..|a| - 1] == Decimal(m / 10) && b[..|b| - 1] == Decimal(n / 10);
      DecimalInjective(m / 10, n / 10);
    } else {
      assert m >= 10 ==> |a| > 1;
      assert n >= 10 ==> |b| > 1;
    }
  }

  lemma PrintInjective(m: int, n: int)
    requires Print(m) == Print(n)
    ensures m == n
  {
    assert m < 0 ==> Print(m)[0] == '-' && Print(m)[1..] == Decimal(-m);
    assert n < 0 ==> Print(n)[0] == '-' && Print(n)[1..] == Decimal(-n);
    assert m >= 0 ==> Print(m)[0] in Decimal(m);
    assert n >= 0 ==> Print(n)[0] in Decimal(n);
    if m < 0 && n < 0 {
      DecimalInjective(-m, -n);
    } else if m >= 0 && n >= 0 {
      DecimalInjective(m, n);
    }
  }
}
