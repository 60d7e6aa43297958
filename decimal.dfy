/**
 * Decimal digit strings: how Java prints a number with `%d`, `%02d` or string
 * concatenation, and the value a digit string denotes.
 */
module Decimal {

  predicate IsDigit(c: char) {
    '0' <= c <= '9'
  }

  predicate AllDigits(s: string) {
    forall i :: 0 <= i < |s| ==> IsDigit(s[i])
  }

  function DigitChar(d: nat): (c: char)
    requires d < 10
    ensures IsDigit(c)
  {
    (('0' as int) + d) as char
  }

  function DigitValue(c: char): (d: nat)
    requires IsDigit(c)
    ensures d < 10 && DigitChar(d) == c
  {
    (c as int) - ('0' as int)
  }

  /** The number a string of digits denotes (most significant digit first). */
  function Value(s: string): nat
    requires AllDigits(s)
  {
    if s == [] then 0 else Value(s[..|s| - 1]) * 10 + DigitValue(s[|s| - 1])
  }

  /** The shortest decimal representation of n, as `Long.toString` prints it. */
  function FromNat(n: nat): (s: string)
    ensures |s| >= 1 && AllDigits(s)
    ensures n < 10 <==> |s| == 1
  {
    if n < 10 then [DigitChar(n)] else FromNat(n / 10) + [DigitChar(n % 10)]
  }

  /** `Long.toString(i)` for any integer: a minus sign, then the digits of |i|. */
  function FromInt(i: int): string {
    if i < 0 then "-" + FromNat(-i) else FromNat(i)
  }

  function Zeros(k: nat): (s: string)
    ensures |s| == k && AllDigits(s)
    ensures forall j :: 0 <= j < k ==> s[j] == '0'
  {
    if k == 0 then [] else Zeros(k - 1) + "0"
  }

  /** `String.format("%0<width>d", n)` for a natural n. */
  function PadNat(n: nat, width: nat): (s: string)
    ensures AllDigits(s)
  {
    var digits := FromNat(n);
    if |digits| >= width then digits else Zeros(width - |digits|) + digits
  }

  /** `String.format("%0<width>d", i)`: the sign counts towards the width. */
  function PadInt(i: int, width: nat): string {
    if i < 0 then "-" + PadNat(-i, if width > 0 then width - 1 else 0) else PadNat(i, width)
  }

  lemma {:induction false} ValueAppend(s: string, c: char)
    requires AllDigits(s) && IsDigit(c)
    ensures AllDigits(s + [c]) && Value(s + [c]) == Value(s) * 10 + DigitValue(c)
  {
    assert (s + [c])[..|s|] == s;
  }

  /** Reading back what FromNat printed gives the number again. */
  lemma {:induction false} ValueFromNat(n: nat)
    ensures Value(FromNat(n)) == n
  {
    if n >= 10 {
      ValueFromNat(n / 10);
      ValueAppend(FromNat(n / 10), DigitChar(n % 10));
    } else {
      assert FromNat(n)[..0] == [];
    }
  }

  lemma FromNatInjective(a: nat, b: nat)
    requires FromNat(a) == FromNat(b)
    ensures a == b
  {
    ValueFromNat(a);
    ValueFromNat(b);
  }

  /** Leading zeros do not change the value of a digit string. */
  lemma {:induction false} ValueLeadingZeros(k: nat, s: string)
    requires AllDigits(s)
    ensures Value(Zeros(k) + s) == Value(s)
    decreases |s|
  {
    if s == [] {
      assert Zeros(k) + s == Zeros(k);
      ValueZeros(k);
    } else {
      var init := s[..|s| - 1];
      var last := s[|s| - 1];
      assert s == init + [last];
      assert Zeros(k) + s == (Zeros(k) + init) + [last];
      ValueLeadingZeros(k, init);
      ValueAppend(Zeros(k) + init, last);
      ValueAppend(init, last);
    }
  }

  lemma {:induction false} ValueZeros(k: nat)
    ensures Value(Zeros(k)) == 0
  {
    if k > 0 {
      ValueZeros(k - 1);
      ValueAppend(Zeros(k - 1), '0');
    }
  }

  /** A number below 10^w printed with `%0<w>d` is exactly w digits long and reads back as itself. */
  lemma PadNatExact(n: nat, w: nat)
    requires 1 <= w && n < Pow10(w)
    ensures |PadNat(n, w)| == w
    ensures Value(PadNat(n, w)) == n
  {
    FromNatLength(n, w);
    ValueFromNat(n);
    var digits := FromNat(n);
    if |digits| < w {
      ValueLeadingZeros(w - |digits|, digits);
    }
  }

  function Pow10(k: nat): (p: nat)
    ensures p >= 1
  {
    if k == 0 then 1 else 10 * Pow10(k - 1)
  }

  lemma {:induction false} FromNatLength(n: nat, w: nat)
    requires 1 <= w && n < Pow10(w)
    ensures |FromNat(n)| <= w
  {
    if n >= 10 {
      assert Pow10(1) == 10;
      FromNatLength(n / 10, w - 1);
    }
  }
}
