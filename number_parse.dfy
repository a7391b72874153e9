/**
 * `Number(val)` on the decimal strings an amount field carries. `None` is NaN.
 * The grammar is the plain decimal part of ECMAScript's StringNumericLiteral:
 * an optional sign, then digits with an optional fraction ("12", "12.", "12.5",
 * ".5"); the empty string reads as 0.
 */
module NumberParse {
  import opened Wrappers
  import opened Digits

  /** Index of the first '.' in `s`, or |s| when there is none. */
  function DotIndex(s: string): (k: nat)
    ensures k <= |s|
    ensures k < |s| ==> s[k] == '.'
    ensures forall i :: 0 <= i < k ==> s[i] != '.'
  {
    if s == [] || s[0] == '.' then 0 else 1 + DotIndex(s[1..])
  }

  /** The value of the literal with digits `whole` before the point and `frac` after it. */
  function DecimalValue(whole: string, frac: string): (v: real)
    requires AllDigits(whole) && AllDigits(frac)
    ensures v >= 0.0
  {
    var f := DigitsValue(frac) as real / Pow10(|frac|) as real;
    assert f >= 0.0;
    DigitsValue(whole) as real + f
  }

  /** The value of an unsigned decimal literal; at least one digit is required. */
  function ParseUnsigned(s: string): (r: Option<real>)
    ensures r.Some? ==> r.value >= 0.0
    ensures r.Some? <==> s != [] && s != "." && forall i :: 0 <= i < |s| ==> IsDigit(s[i]) || i == DotIndex(s)
  {
    var k := DotIndex(s);
    var whole := s[..k];
    var frac := if k < |s| then s[k + 1..] else [];
    if AllDigits(whole) && AllDigits(frac) && |whole| + |frac| > 0 then
      Some(DecimalValue(whole, frac))
    else
      None
  }

  /** An optional sign before an unsigned literal; "" reads as 0. */
  function ParseNumber(s: string): (r: Option<real>)
    ensures s == [] ==> r == Some(0.0)
    ensures s != [] && s[0] == '+' ==> r == ParseUnsigned(s[1..])
    ensures s != [] && s[0] == '-' ==>
              (r.Some? <==> ParseUnsigned(s[1..]).Some?) && (r.Some? ==> r.value == -ParseUnsigned(s[1..]).value)
    ensures s != [] && s[0] != '+' && s[0] != '-' ==> r == ParseUnsigned(s)
    ensures r.Some? && r.value > 0.0 ==> s != [] && s[0] != '-'
  {
    if s == [] then Some(0.0)
    else if s[0] == '-' then
      match ParseUnsigned(s[1..])
      case Some(v) => Some(-v)
      case None => None
    else if s[0] == '+' then ParseUnsigned(s[1..])
    else ParseUnsigned(s)
  }

  /** The decimal rendering of `cents / 100` with exactly two fraction digits. */
  function FormatCents(cents: nat): (s: string)
    ensures |s| >= 4 && IsDigit(s[0])
  {
    NatToString(cents / 100) + "." + PadDigits(cents % 100, 2)
  }

  lemma {:induction false} DotIndexAfterDigits(digits: string, rest: string)
    requires AllDigits(digits) && rest != [] && rest[0] == '.'
    ensures DotIndex(digits + rest) == |digits|
  {
    var s := digits + rest;
    var k := DotIndex(s);
    assert s[|digits|] == '.';
    assert forall i :: 0 <= i < |digits| ==> s[i] == digits[i];
  }

  /** A literal with a point splits into its whole and fraction digits. */
  lemma ParseUnsignedPointed(whole: string, frac: string)
    requires AllDigits(whole) && AllDigits(frac) && |whole| + |frac| > 0
    ensures ParseUnsigned(whole + "." + frac) == Some(DecimalValue(whole, frac))
  {
    var s := whole + "." + frac;
    assert s == whole + ("." + frac);
    DotIndexAfterDigits(whole, "." + frac);
    var k := DotIndex(s);
    assert k == |whole| < |s|;
    assert s[..k] == whole;
    assert s[k + 1..] == frac;
  }

  /** A literal without a point is read as the whole number it spells. */
  lemma ParseUnsignedWhole(s: string)
    requires AllDigits(s) && |s| > 0
    ensures ParseUnsigned(s) == Some(DigitsValue(s) as real)
  {
    DotIndexAfterDigits(s, ".");
    assert (s + ".")[..|s|] == s;
    DotIndexPrefix(s, ".");
    var k := DotIndex(s);
    assert k == |s|;
    assert s[..k] == s;
    assert DecimalValue(s, []) == DigitsValue(s) as real;
  }

  /** When the first point of `s + rest` lies within `s` or at its end, `s` alone gives the same index. */
  lemma {:induction false} DotIndexPrefix(s: string, rest: string)
    requires DotIndex(s + rest) <= |s|
    ensures DotIndex(s) == DotIndex(s + rest)
  {
    if s != [] && s[0] != '.' {
      assert (s + rest)[1..] == s[1..] + rest;
      DotIndexPrefix(s[1..], rest);
    }
  }

  lemma CentsValue(q: nat, m: nat)
    requires m < 100
    ensures DecimalValue(NatToString(q), PadDigits(m, 2)) == (q * 100 + m) as real / 100.0
  {
    NatToStringValue(q);
    PadDigitsValue(m, 2);
    TwoPlaceValue(NatToString(q), PadDigits(m, 2));
    ScaledSum(q, m);
  }

  lemma TwoPlaceValue(whole: string, frac: string)
    requires AllDigits(whole) && AllDigits(frac) && |frac| == 2
    ensures DecimalValue(whole, frac) == DigitsValue(whole) as real + DigitsValue(frac) as real / 100.0
  {
    assert Pow10(2) == 100;
  }

  lemma ScaledSum(q: nat, m: nat)
    ensures q as real + m as real / 100.0 == (q * 100 + m) as real / 100.0
  {
    assert (q * 100 + m) as real == q as real * 100.0 + m as real;
  }

  /** Two-decimal renderings read back as the amount they denote. */
  lemma ParseFormatCents(cents: nat)
    ensures ParseNumber(FormatCents(cents)) == Some(cents as real / 100.0)
  {
    var q, m := cents / 100, cents % 100;
    ParseUnsignedPointed(NatToString(q), PadDigits(m, 2));
    CentsValue(q, m);
  }

  /** "0" and "0.00" both read as zero. */
  lemma ZeroReadsAsZero()
    ensures ParseNumber("0") == Some(0.0)
    ensures ParseNumber("0.00") == Some(0.0)
  {
    assert ParseUnsigned("0") == Some(0.0) by {
      assert DigitsValue("0") == 0;
      ParseUnsignedWhole("0");
    }
    ZeroCentsReadsAsZero();
  }

  lemma ZeroCentsReadsAsZero()
    ensures ParseNumber("0.00") == Some(0.0)
  {
    ParseUnsignedPointed("0", "00");
    assert "0" + "." + "00" == "0.00";
    assert DigitsValue("0") == 0;
    assert DigitsValue("00") == 0 by { assert "00"[..1] == "0"; }
    assert DecimalValue("0", "00") == 0.0;
  }

  /** Strings that are not decimal literals, such as "abc", "1,5", "." and "1.2.3", read as NaN. */
  lemma NonLiteralsAreNaN()
    ensures ParseNumber("abc").None?
    ensures ParseNumber("1,5").None?
    ensures ParseNumber(".").None?
    ensures ParseNumber("1.2.3").None?
    ensures ParseNumber("-").None?
  {
    assert "1,5"[1] == ',' && DotIndex("1,5") != 1;
    assert DotIndex("1.2.3") == 1 && "1.2.3"[3] == '.';
    assert ("-")[1..] == [];
  }

  /** A leading minus sign never yields a positive number. */
  lemma NegatedNotPositive(s: string)
    ensures ParseNumber("-" + s).None? || ParseNumber("-" + s).value <= 0.0
  {
    assert ("-" + s)[1..] == s;
  }
}
