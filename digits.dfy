/** Decimal digit strings: their value, and fixed-width rendering of a natural number. */
module Digits {

  predicate IsDigit(c: char) {
    '0' <= c <= '9'
  }

  predicate AllDigits(s: string) {
    forall i :: 0 <= i < |s| ==> IsDigit(s[i])
  }

  function DigitValue(c: char): (d: nat)
    requires IsDigit(c)
    ensures d < 10
  {
    c as int - '0' as int
  }

  function DigitChar(d: nat): (c: char)
    requires d < 10
    ensures IsDigit(c) && DigitValue(c) == d
  {
    ('0' as int + d) as char
  }

  function Pow10(k: nat): (p: nat)
    ensures p >= 1
  {
    if k == 0 then 1 else 10 * Pow10(k - 1)
  }

  /** The value of a digit string read most-significant digit first; "" reads as 0. */
  function DigitsValue(s: string): (n: nat)
    requires AllDigits(s)
    ensures n < Pow10(|s|)
    decreases |s|
  {
    if s == [] then 0 else DigitsValue(s[..|s| - 1]) * 10 + DigitValue(s[|s| - 1])
  }

  /** The last `width` decimal digits of `n`, zero-padded on the left. */
  function PadDigits(n: nat, width: nat): (s: string)
    ensures |s| == width && AllDigits(s)
  {
    if width == 0 then [] else PadDigits(n / 10, width - 1) + [DigitChar(n % 10)]
  }

  /** Number of decimal digits of `n` (at least one, for 0). */
  function DigitCount(n: nat): (w: nat)
    ensures 1 <= w && n < Pow10(w)
  {
    if n < 10 then 1 else 1 + DigitCount(n / 10)
  }

  /** The shortest decimal rendering of `n`. */
  function NatToString(n: nat): (s: string)
    ensures 1 <= |s| && AllDigits(s)
  {
    PadDigits(n, DigitCount(n))
  }

  /** Reading back a padded rendering gives the number, when it fits in the width. */
  lemma {:induction false} PadDigitsValue(n: nat, width: nat)
    requires n < Pow10(width)
    ensures DigitsValue(PadDigits(n, width)) == n
  {
    if width > 0 {
      var s := PadDigits(n, width);
      assert s[..width - 1] == PadDigits(n / 10, width - 1);
      PadDigitsValue(n / 10, width - 1);
    }
  }

  /** Rendering the value of a digit string at its own width gives the string back. */
  lemma {:induction false} DigitsValuePad(s: string)
    requires AllDigits(s)
    ensures PadDigits(DigitsValue(s), |s|) == s
  {
    if s != [] {
      var prefix := s[..|s| - 1];
      var n := DigitsValue(s);
      assert n / 10 == DigitsValue(prefix) && n % 10 == DigitValue(s[|s| - 1]);
      DigitsValuePad(prefix);
      assert DigitChar(n % 10) == s[|s| - 1];
      assert s == prefix + [s[|s| - 1]];
    }
  }

  lemma NatToStringValue(n: nat)
    ensures DigitsValue(NatToString(n)) == n
  {
    PadDigitsValue(n, DigitCount(n));
  }
}
