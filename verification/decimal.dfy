/**
 * Canonical decimal text of Java integers, as `String.valueOf(long)` and
 * `String.valueOf(int)` produce it: an optional minus sign followed by the
 * digits of the magnitude, most significant first, with no leading zero and
 * no grouping separators.
 */
module Decimal {
  import opened Wrappers

  /** A Java `long`. */
  newtype Int64 = x: int | -0x8000_0000_0000_0000 <= x < 0x8000_0000_0000_0000

  /** A Java `int`. */
  newtype Int32 = x: int | -0x8000_0000 <= x < 0x8000_0000

  predicate IsDigit(c: char) {
    '0' <= c <= '9'
  }

  predicate AllDigits(s: string) {
    forall i :: 0 <= i < |s| ==> IsDigit(s[i])
  }

  function DigitValue(c: char): (d: nat)
    requires IsDigit(c)
    ensures d < 10
  {
    c as int - '0' as int
  }

  function DigitChar(d: nat): (c: char)
    requires d < 10
    ensures IsDigit(c) && DigitValue(c) == d
  {
    ('0' as int + d) as char
  }

  /** The decimal digits of `n`: never empty, and a leading `0` only for zero itself. */
  function Digits(n: nat): (s: string)
    ensures |s| >= 1 && AllDigits(s)
    ensures s[0] == '0' ==> n == 0
    decreases n
  {
    if n < 10 then [DigitChar(n)] else Digits(n / 10) + [DigitChar(n % 10)]
  }

  /** `String.valueOf` of an integer. */
  function DecimalText(n: int): (s: string)
    ensures |s| >= 1
    ensures (s[0] == '-') <==> n < 0
  {
    if n < 0 then "-" + Digits(-n) else Digits(n)
  }

  /**
   * The text is canonical: digits only after an optional minus sign, and no
   * leading zero except in "0" itself.
   */
  lemma DecimalTextCanonical(n: int)
    ensures var s := DecimalText(n);
      && (n < 0 ==> |s| >= 2 && AllDigits(s[1..]) && s[1] != '0')
      && (n >= 0 ==> AllDigits(s) && (s[0] == '0' ==> s == "0"))
  {
  }

  /** The number a string of decimal digits denotes (the partner of `Digits`). */
  function DigitsValue(s: string): nat
    requires AllDigits(s)
    decreases |s|
  {
    if s == [] then 0 else DigitsValue(s[..|s| - 1]) * 10 + DigitValue(s[|s| - 1])
  }

  /** Reads back an optionally signed decimal numeral; `None` for anything else. */
  function ParseDecimal(s: string): Option<int> {
    if |s| >= 2 && s[0] == '-' && AllDigits(s[1..]) then Some(0 - DigitsValue(s[1..]))
    else if |s| >= 1 && AllDigits(s) then Some(DigitsValue(s) as int)
    else None
  }

  lemma {:induction false} DigitsRoundTrip(n: nat)
    ensures DigitsValue(Digits(n)) == n
    decreases n
  {
    if n >= 10 {
      var s := Digits(n);
      assert s[..|s| - 1] == Digits(n / 10);
      DigitsRoundTrip(n / 10);
    }
  }

  /** The rendering loses nothing: the numeral reads back as the number it came from. */
  lemma DecimalRoundTrip(n: int)
    ensures ParseDecimal(DecimalText(n)) == Some(n)
  {
    if n < 0 {
      var d := Digits(-n);
      assert DecimalText(n) == "-" + d;
      assert ("-" + d)[1..] == d;
      DigitsRoundTrip(-n);
    } else {
      assert DecimalText(n) == Digits(n);
      assert Digits(n)[0] != '-';
      DigitsRoundTrip(n);
    }
  }

  /** Distinct numbers are rendered as distinct texts. */
  lemma DecimalTextInjective(a: int, b: int)
    ensures DecimalText(a) == DecimalText(b) ==> a == b
  {
    DecimalRoundTrip(a);
    DecimalRoundTrip(b);
  }
}
