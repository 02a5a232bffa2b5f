/** The checksum that separates card numbers from other digit runs: the
    right-to-left loop of luhnValid, its definition on the digits alone, and the
    error-detection guarantees of Annex B of ISO/IEC 7812-1. */
module Luhn {
  import opened Text

  type Digit = d: nat | d <= 9

  function DigitOf(c: char): (d: Digit)
    requires IsDigit(c)
  {
    c as int - '0' as int
  }

  /** The digits of a text in order, everything else dropped. */
  function Digits(s: string): seq<Digit> {
    if s == [] then []
    else if IsDigit(s[|s| - 1]) then Digits(s[..|s| - 1]) + [DigitOf(s[|s| - 1])]
    else Digits(s[..|s| - 1])
  }

  function Weight(d: Digit, doubled: bool): Digit {
    if !doubled then d else if 2 * d > 9 then 2 * d - 9 else 2 * d
  }

  /** Checksum of a digit string whose last digit is doubled exactly when alt holds. */
  function Checksum(ds: seq<Digit>, alt: bool): nat {
    if ds == [] then 0
    else Weight(ds[|ds| - 1], alt) + Checksum(ds[..|ds| - 1], !alt)
  }

  predicate Passes(ds: seq<Digit>) {
    |ds| >= 13 && Checksum(ds, false) % 10 == 0
  }

  predicate Valid(s: string) {
    Passes(Digits(s))
  }

  method LuhnValid(s: string) returns (ok: bool)
    ensures ok <==> Valid(s)
  {
    var sum, n := 0, 0;
    var alt := false;
    var i := |s| - 1;
    assert s[..|s|] == s;
    while i >= 0
      invariant -1 <= i < |s|
      invariant n + |Digits(s[..i + 1])| == |Digits(s)|
      invariant sum + Checksum(Digits(s[..i + 1]), alt) == Checksum(Digits(s), false)
    {
      var c := s[i];
      assert s[..i + 1][..i] == s[..i];
      if IsDigit(c) {
        var d: nat := c as int - '0' as int;
        if alt {
          d := d * 2;
          if d > 9 {
            d := d - 9;
          }
        }
        ghost var ds := Digits(s[..i + 1]);
        assert ds[..|ds| - 1] == Digits(s[..i]);
        sum := sum + d;
        n := n + 1;
        alt := !alt;
      }
      i := i - 1;
    }
    ok := n >= 13 && sum % 10 == 0;
  }

  /** Whether the digit i places from the left of n digits is doubled. */
  predicate Doubled(n: nat, i: nat, alt: bool)
    requires i < n
  {
    if (n - 1 - i) % 2 == 0 then alt else !alt
  }

  lemma {:induction false} ChecksumUpdate(ds: seq<Digit>, i: nat, e: Digit, alt: bool)
    requires i < |ds|
    ensures Checksum(ds[i := e], alt)
         == Checksum(ds, alt) - Weight(ds[i], Doubled(|ds|, i, alt)) + Weight(e, Doubled(|ds|, i, alt))
  {
    var n := |ds|;
    if i == n - 1 {
      assert ds[i := e][..n - 1] == ds[..n - 1];
    } else {
      assert ds[i := e][..n - 1] == ds[..n - 1][i := e];
      ChecksumUpdate(ds[..n - 1], i, e, !alt);
      assert (n - 1 - i) % 2 == 0 <==> (n - 2 - i) % 2 != 0;
    }
  }

  /** Every single-digit error is caught: the corrupted number no longer passes. */
  lemma {:induction false} SingleDigitErrorRejected(ds: seq<Digit>, i: nat, e: Digit)
    requires i < |ds| && ds[i] != e
    requires Passes(ds)
    ensures !Passes(ds[i := e])
  {
    ChecksumUpdate(ds, i, e, false);
    hide Checksum, Weight;
    var doubled := Doubled(|ds|, i, false);
    WeightsDiffer(ds[i], e, doubled);
    var shift: int := Weight(e, doubled) - Weight(ds[i], doubled);
    SmallShift(shift);
    ShiftKeepsMultiple(Checksum(ds, false), shift);
  }

  lemma SmallShift(d: int)
    requires -10 < d < 10 && d != 0
    ensures d % 10 != 0
  {
  }

  lemma WeightsDiffer(a: Digit, b: Digit, doubled: bool)
    requires a != b
    ensures Weight(a, doubled) != Weight(b, doubled)
  {
  }

  function SwapAt(ds: seq<Digit>, i: nat): seq<Digit>
    requires i + 1 < |ds|
  {
    ds[i := ds[i + 1]][i + 1 := ds[i]]
  }

  /** How much swapping a (doubled when alt holds) with its right neighbour b
      changes the checksum. */
  function SwapShift(a: Digit, b: Digit, alt: bool): int {
    Weight(b, alt) + Weight(a, !alt) - Weight(a, alt) - Weight(b, !alt)
  }

  lemma SwapShiftVanishes(a: Digit, b: Digit, alt: bool)
    ensures SwapShift(a, b, alt) % 10 == 0
       <==> (a == b || (a == 0 && b == 9) || (a == 9 && b == 0))
  {
  }

  lemma {:induction false} ChecksumSwap(ds: seq<Digit>, i: nat)
    requires i + 1 < |ds|
    ensures Checksum(SwapAt(ds, i), false)
         == Checksum(ds, false) + SwapShift(ds[i], ds[i + 1], Doubled(|ds|, i, false))
  {
    var a, b := ds[i], ds[i + 1];
    ChecksumUpdate(ds, i, b, false);
    ChecksumUpdate(ds[i := b], i + 1, a, false);
    assert Doubled(|ds|, i + 1, false) == !Doubled(|ds|, i, false);
  }

  lemma ShiftKeepsMultiple(sum: int, shift: int)
    requires sum % 10 == 0
    ensures (sum + shift) % 10 == 0 <==> shift % 10 == 0
  {
  }

  /** Swapping two neighbours of a valid number goes unnoticed exactly when they
      are equal or are a 0 and a 9. */
  lemma {:induction false} AdjacentSwapDetection(ds: seq<Digit>, i: nat)
    requires i + 1 < |ds|
    requires Passes(ds)
    ensures Passes(SwapAt(ds, i))
       <==> (ds[i] == ds[i + 1] || (ds[i] == 0 && ds[i + 1] == 9) || (ds[i] == 9 && ds[i + 1] == 0))
  {
    var shift := SwapShift(ds[i], ds[i + 1], Doubled(|ds|, i, false));
    ChecksumSwap(ds, i);
    SwapShiftVanishes(ds[i], ds[i + 1], Doubled(|ds|, i, false));
    ShiftKeepsMultiple(Checksum(ds, false), shift);
  }

  lemma {:induction false} DigitsConcat(a: string, b: string)
    ensures Digits(a + b) == Digits(a) + Digits(b)
  {
    if b == [] {
      assert a + b == a;
    } else {
      var n := |b|;
      assert (a + b)[..|a + b| - 1] == a + b[..n - 1];
      DigitsConcat(a, b[..n - 1]);
    }
  }

  /** Separators carry no weight: inserting a non-digit anywhere changes nothing. */
  lemma SeparatorsIgnored(a: string, c: char, b: string)
    requires !IsDigit(c)
    ensures Valid(a + [c] + b) <==> Valid(a + b)
  {
    DigitsConcat(a + [c], b);
    DigitsConcat(a, [c]);
    DigitsConcat(a, b);
    assert [c][..0] == [];
    assert Digits([c]) == [];
  }

  lemma DigitsAround(a: string, c: char, b: string)
    requires IsDigit(c)
    ensures Digits(a + [c] + b) == Digits(a) + [DigitOf(c)] + Digits(b)
  {
    DigitsConcat(a + [c], b);
    DigitsConcat(a, [c]);
    assert [c][..0] == [];
    assert Digits([c]) == [DigitOf(c)];
  }

  /** On the text the redactor sees, separators included: mistyping one digit of a
      valid number always makes it invalid. */
  lemma MistypedDigitRejected(a: string, x: char, y: char, b: string)
    requires IsDigit(x) && IsDigit(y) && x != y
    requires Valid(a + [x] + b)
    ensures !Valid(a + [y] + b)
  {
    DigitsAround(a, x, b);
    DigitsAround(a, y, b);
    var ds := Digits(a + [x] + b);
    SingleDigitErrorRejected(ds, |Digits(a)|, DigitOf(y));
    assert ds[|Digits(a)| := DigitOf(y)] == Digits(a + [y] + b);
  }

  /** Swapping two neighbouring digits of a valid text, whatever separators m stand
      between them, is caught except for equal digits and 0 with 9. */
  lemma TransposedDigitsRejected(a: string, x: char, m: string, y: char, b: string)
    requires IsDigit(x) && IsDigit(y) && Digits(m) == []
    requires Valid(a + [x] + m + [y] + b)
    ensures Valid(a + [y] + m + [x] + b) <==> (x == y || {x, y} == {'0', '9'})
  {
    DigitsAround(a + [x] + m, y, b);
    DigitsAround(a, x, m);
    DigitsAround(a + [y] + m, x, b);
    DigitsAround(a, y, m);
    hide Digits, Checksum, Passes;
    var ds := Digits(a + [x] + m + [y] + b);
    var k := |Digits(a)|;
    assert ds == Digits(a) + [DigitOf(x)] + [DigitOf(y)] + Digits(b);
    assert SwapAt(ds, k) == Digits(a + [y] + m + [x] + b);
    AdjacentSwapDetection(ds, k);
    ZeroAndNine(x, y);
  }

  lemma ZeroAndNine(x: char, y: char)
    requires IsDigit(x) && IsDigit(y)
    ensures DigitOf(x) == DigitOf(y) <==> x == y
    ensures (DigitOf(x) == 0 && DigitOf(y) == 9) || (DigitOf(x) == 9 && DigitOf(y) == 0) <==> {x, y} == {'0', '9'}
  {
    assert x in {x, y} && y in {x, y} && '0' in {'0', '9'} && '9' in {'0', '9'};
  }
}
