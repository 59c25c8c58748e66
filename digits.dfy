/**
 * Decimal text of integers, as Python's `str(int)` (used by f-strings) and
 * the fixed-width zero-padded fields of `strptime`/`strftime` produce and read it.
 */
module Digits {

  predicate IsDigit(c: char) {
    '0' <= c <= '9'
  }

  predicate AllDigits(s: string) {
    forall i :: 0 <= i < |s| ==> IsDigit(s[i])
  }

  function DigitChar(d: nat): (c: char)
    requires d < 10
    ensures IsDigit(c) && c as int - '0' as int == d
  {
    "0123456789"[d]
  }

  function DigitValue(c: char): (d: nat)
    requires IsDigit(c)
    ensures d < 10
  {
    c as int - '0' as int
  }

  /** The number a string of decimal digits denotes, leading zeros allowed. */
  function DigitsValue(s: string): (n: nat)
    requires AllDigits(s)
    ensures n < Pow10(|s|)
  {
    if |s| == 0 then 0 else DigitsValue(s[..|s| - 1]) * 10 + DigitValue(s[|s| - 1])
  }

  function Pow10(k: nat): (p: nat)
    ensures p >= 1
  {
    if k == 0 then 1 else 10 * Pow10(k - 1)
  }

  /** The shortest decimal text of a natural number: no leading zero. */
  function NatToDecimal(n: nat): (s: string)
    ensures |s| >= 1 && AllDigits(s)
    ensures s[0] != '0' || s == "0"
    decreases n
  {
    if n < 10 then [DigitChar(n)] else NatToDecimal(n / 10) + [DigitChar(n % 10)]
  }

  /** Python's `str()` of an integer: a minus sign, then the magnitude. */
  function IntToDecimal(n: int): (s: string)
    ensures |s| >= 1
    ensures s[0] == '-' <==> n < 0
  {
    if n < 0 then "-" + NatToDecimal(-n) else NatToDecimal(n)
  }

  /** Exactly `width` digits, zero-padded on the left, as `%02d`/`%04d` print them. */
  function ZeroPadded(n: nat, width: nat): (s: string)
    requires n < Pow10(width)
    ensures |s| == width && AllDigits(s)
    decreases width
  {
    if width == 0 then [] else ZeroPadded(n / 10, width - 1) + [DigitChar(n % 10)]
  }

  lemma {:induction false} DigitsValueOfSnoc(s: string, c: char)
    requires AllDigits(s) && IsDigit(c)
    ensures AllDigits(s + [c]) && DigitsValue(s + [c]) == DigitsValue(s) * 10 + DigitValue(c)
  {
    assert (s + [c])[..|s + [c]| - 1] == s;
  }

  /** Reading back the decimal text gives the number again. */
  lemma {:induction false} NatToDecimalRoundTrip(n: nat)
    ensures DigitsValue(NatToDecimal(n)) == n
    decreases n
  {
    if n >= 10 {
      NatToDecimalRoundTrip(n / 10);
      DigitsValueOfSnoc(NatToDecimal(n / 10), DigitChar(n % 10));
    }
  }

  /** Reading back a zero-padded field gives the number again. */
  lemma {:induction false} ZeroPaddedRoundTrip(n: nat, width: nat)
    requires n < Pow10(width)
    ensures DigitsValue(ZeroPadded(n, width)) == n
    decreases width
  {
    if width > 0 {
      assert n == (n / 10) * 10 + n % 10;
      ZeroPaddedRoundTrip(n / 10, width - 1);
      DigitsValueOfSnoc(ZeroPadded(n / 10, width - 1), DigitChar(n % 10));
    }
  }

  /** A field of digits is the zero-padded text of the number it denotes. */
  lemma {:induction false} DigitsAreZeroPadded(s: string)
    requires AllDigits(s)
    ensures ZeroPadded(DigitsValue(s), |s|) == s
    decreases |s|
  {
    if |s| > 0 {
      var init, last := s[..|s| - 1], s[|s| - 1];
      DigitsAreZeroPadded(init);
      ZeroPaddedSnoc(DigitsValue(init), DigitValue(last), |init|);
      assert DigitChar(DigitValue(last)) == last;
      assert s == init + [last];
    }
  }

  /** Padding `v * 10 + d` to one more place appends the digit `d` to the padding of `v`. */
  lemma ZeroPaddedSnoc(v: nat, d: nat, width: nat)
    requires d < 10 && v < Pow10(width)
    ensures v * 10 + d < Pow10(width + 1)
    ensures ZeroPadded(v * 10 + d, width + 1) == ZeroPadded(v, width) + [DigitChar(d)]
  {
    LastDigit(v, d);
  }

  /** Appending digit `d` to `v` shifts `v` up one place. */
  lemma LastDigit(v: nat, d: nat)
    requires d < 10
    ensures (v * 10 + d) / 10 == v && (v * 10 + d) % 10 == d
  {
  }
}
