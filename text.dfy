/**
 * Text renderings of numbers and booleans, as JavaScript's `Number.prototype.toString`
 * and `Boolean.prototype.toString` produce them for booleans and for integers of magnitude
 * below 10^21 (from there on JavaScript switches to exponent notation).
 */
module Text {

  import opened Base

  predicate IsDigit(c: char) {
    '0' <= c <= '9'
  }

  /** Every character is a decimal digit. */
  predicate AllDigits(s: string) {
    forall i :: 0 <= i < |s| ==> IsDigit(s[i])
  }

  function DigitChar(d: nat): (c: char)
    requires d < 10
    ensures IsDigit(c) && c as int - '0' as int == d
  {
    "0123456789"[d]
  }

  /** Decimal digits of a natural number, most significant first, without leading zeros. */
  function NatToDecimal(n: nat): (s: string)
    decreases n
  {
    if n < 10 then [DigitChar(n)] else NatToDecimal(n / 10) + [DigitChar(n % 10)]
  }

  /**
   * `n.toString()` for an integer `n` with |n| < 10^21: a minus sign for negatives, then the
   * digits. Larger magnitudes, which JavaScript writes as `1e+21`, are not covered.
   */
  function IntToDecimal(n: int): (s: string)
    ensures |s| > 0 && (s[0] == '-' <==> n < 0)
  {
    NatToDecimalDigits(if n < 0 then -n else n);
    if n < 0 then "-" + NatToDecimal(-n) else NatToDecimal(n)
  }

  /** `b.toString()` for a boolean `b`. */
  function BoolToText(b: bool): (s: string)
    ensures s == "true" || s == "false"
    ensures b <==> s == "true"
  {
    if b then "true" else "false"
  }

  /** The value of a string of decimal digits (the reading a server applies to a numeric parameter). */
  function DigitsValue(s: string): nat
    requires AllDigits(s)
    decreases |s|
  {
    if s == [] then 0 else DigitsValue(s[..|s| - 1]) * 10 + (s[|s| - 1] as int - '0' as int)
  }

  /** The integer a decimal rendering denotes: an optional leading minus sign, then digits. */
  function DecimalValue(s: string): Option<int> {
    if |s| > 0 && s[0] == '-' && AllDigits(s[1..]) then Some(0 - DigitsValue(s[1..]) as int)
    else if AllDigits(s) then Some(DigitsValue(s))
    else None
  }

  lemma {:induction false} NatToDecimalDigits(n: nat)
    ensures |NatToDecimal(n)| > 0 && AllDigits(NatToDecimal(n))
    ensures DigitsValue(NatToDecimal(n)) == n
    decreases n
  {
    if n >= 10 {
      NatToDecimalDigits(n / 10);
      var s := NatToDecimal(n);
      assert s[..|s| - 1] == NatToDecimal(n / 10);
    }
  }

  /** Rendering an integer and reading it back yields the integer; the text is never empty. */
  lemma {:induction false} IntToDecimalRoundTrip(n: int)
    ensures |IntToDecimal(n)| > 0
    ensures DecimalValue(IntToDecimal(n)) == Some(n)
  {
    NatToDecimalDigits(if n < 0 then -n else n);
    if n < 0 {
      assert IntToDecimal(n)[1..] == NatToDecimal(-n);
    } else {
      assert IsDigit(IntToDecimal(n)[0]);
    }
  }

  /** A decimal rendering holds only digits and the minus sign, so no URL delimiter. */
  lemma IntToDecimalCharacters(n: int)
    ensures forall i :: 0 <= i < |IntToDecimal(n)| ==> IntToDecimal(n)[i] == '-' || IsDigit(IntToDecimal(n)[i])
    ensures '?' !in IntToDecimal(n)
  {
    NatToDecimalDigits(if n < 0 then -n else n);
  }
}
