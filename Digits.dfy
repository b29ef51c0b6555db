/** Decimal rendering of integers as the JavaScript runtime does it:
    `Number.prototype.toString()` on a non-negative integer and
    `String.prototype.padStart(2, '0')`. */
module Digits {

  predicate IsDigit(c: char) {
    '0' <= c <= '9'
  }

  predicate AllDigits(s: string) {
    forall i :: 0 <= i < |s| ==> IsDigit(s[i])
  }

  /** The character of the decimal digit `d`. */
  function DigitChar(d: nat): (c: char)
    requires d < 10
    ensures IsDigit(c)
  {
    ('0' as int + d) as char
  }

  /** The numeric value of a digit character; inverse of DigitChar. */
  function DigitValue(c: char): (d: nat)
    requires IsDigit(c)
    ensures d < 10 && DigitChar(d) == c
  {
    c as int - '0' as int
  }

  /** `n.toString()` for a non-negative integer: most significant digit first,
      no leading zeros. */
  function DecimalDigits(n: nat): (s: string)
    ensures |s| >= 1 && AllDigits(s)
  {
    if n < 10 then [DigitChar(n)] else DecimalDigits(n / 10) + [DigitChar(n % 10)]
  }

  /** The number a string of digits denotes (the reference reading of a digit
      string, used to state what DecimalDigits produces). */
  function Value(s: string): nat
    requires AllDigits(s)
  {
    if |s| == 0 then 0 else Value(s[..|s| - 1]) * 10 + DigitValue(s[|s| - 1])
  }

  function Pow10(k: nat): (p: nat)
    ensures p >= 1
  {
    if k == 0 then 1 else 10 * Pow10(k - 1)
  }

  /** Reading back the rendering gives the number: toString is faithful. */
  lemma {:induction false} ValueOfDecimalDigits(n: nat)
    ensures Value(DecimalDigits(n)) == n
  {
    var s := DecimalDigits(n);
    if n >= 10 {
      ValueOfDecimalDigits(n / 10);
      assert s[..|s| - 1] == DecimalDigits(n / 10);
    }
  }

  /** Distinct numbers have distinct renderings. */
  lemma DecimalDigitsInjective(m: nat, n: nat)
    requires m != n
    ensures DecimalDigits(m) != DecimalDigits(n)
  {
    ValueOfDecimalDigits(m);
    ValueOfDecimalDigits(n);
  }

  /** The rendering has no leading zero: it starts with '0' only for 0 itself. */
  lemma {:induction false} NoLeadingZero(n: nat)
    ensures DecimalDigits(n)[0] == '0' <==> n == 0
  {
    if n >= 10 {
      NoLeadingZero(n / 10);
    }
  }

  /** The rendering has at most k digits exactly when n < 10^k. */
  lemma {:induction false} DigitCount(n: nat, k: nat)
    requires k >= 1
    ensures |DecimalDigits(n)| <= k <==> n < Pow10(k)
  {
    if n < 10 {
      PowAtLeastTen(k);
    } else if k > 1 {
      DigitCount(n / 10, k - 1);
    }
  }

  lemma {:induction false} PowAtLeastTen(k: nat)
    requires k >= 1
    ensures Pow10(k) >= 10
  {
    if k > 1 {
      PowAtLeastTen(k - 1);
    }
  }

  /** `s.padStart(2, '0')`: s itself when it already has two characters or
      more, otherwise s preceded by the zeros that bring it to length 2. */
  function PadStart2(s: string): (r: string)
    ensures |r| == if |s| >= 2 then |s| else 2
    ensures r[|r| - |s|..] == s
    ensures forall i :: 0 <= i < |r| - |s| ==> r[i] == '0'
  {
    if |s| >= 2 then s else if |s| == 1 then "0" + s else "00"
  }
}
