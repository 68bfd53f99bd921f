/** Decimal text of a non-negative integer, as produced by the standard
    `to_string` of an unsigned integer: ASCII digits, most significant
    first, no sign and no leading zeros. Its partner is a parser, and the
    two are shown to be a bijection between bytes and canonical digit
    strings. */
module Decimal {

  import opened Consts
  import opened Wrappers

  predicate IsDigit(c: char) {
    '0' <= c <= '9'
  }

  predicate AllDigits(s: string) {
    forall i :: 0 <= i < |s| ==> IsDigit(s[i])
  }

  /** Non-empty, all digits, and no leading zero unless the number is 0. */
  predicate IsCanonical(s: string) {
    |s| > 0 && AllDigits(s) && (|s| > 1 ==> s[0] != '0')
  }

  function DigitChar(d: nat): (c: char)
    requires d < 10
    ensures IsDigit(c)
  {
    (d + '0' as int) as char
  }

  function DigitValue(c: char): (d: nat)
    requires IsDigit(c)
    ensures d < 10 && DigitChar(d) == c
  {
    (c as int - '0' as int) as nat
  }

  /** The decimal text of `n`. */
  function ToDecimal(n: nat): (s: string)
    ensures IsCanonical(s)
    ensures n < 10 <==> |s| == 1
    decreases n
  {
    if n < 10 then [DigitChar(n)] else ToDecimal(n / 10) + [DigitChar(n % 10)]
  }

  /** The number that a string of digits denotes, most significant first. */
  function ValueOf(s: string): nat
    requires AllDigits(s)
  {
    if s == [] then 0 else ValueOf(s[..|s| - 1]) * 10 + DigitValue(s[|s| - 1])
  }

  /** Reads one code back: canonical decimal text of a value below 256. */
  function ParseCode(s: string): Option<uint8> {
    if IsCanonical(s) && ValueOf(s) < 0x100 then Some(ValueOf(s) as uint8) else None
  }

  /** Reading back the decimal text of `n` gives `n`. */
  lemma {:induction false} ValueOfToDecimal(n: nat)
    ensures ValueOf(ToDecimal(n)) == n
    decreases n
  {
    if n >= 10 {
      var s := ToDecimal(n);
      assert s[..|s| - 1] == ToDecimal(n / 10);
      ValueOfToDecimal(n / 10);
    }
  }

  /** A digit string whose first digit is not 0 denotes at least 1. */
  lemma {:induction false} LeadingDigitBound(s: string)
    requires |s| > 0 && AllDigits(s) && s[0] != '0'
    ensures ValueOf(s) >= 1
  {
    if |s| > 1 {
      LeadingDigitBound(s[..|s| - 1]);
    } else {
      assert DigitValue(s[0]) != 0;
    }
  }

  /** A canonical digit string is the decimal text of the number it denotes. */
  lemma {:induction false} ToDecimalValueOf(s: string)
    requires IsCanonical(s)
    ensures ToDecimal(ValueOf(s)) == s
  {
    if |s| > 1 {
      var init := s[..|s| - 1];
      LeadingDigitBound(init);
      ToDecimalValueOf(init);
      var n := ValueOf(s);
      assert n / 10 == ValueOf(init) && n % 10 == DigitValue(s[|s| - 1]);
      assert s == init + [s[|s| - 1]];
    }
  }

  /** ToDecimal and ParseCode are inverse: a string parses to `n` exactly
      when it is the decimal text of `n`. */
  lemma ParseCodeIff(s: string, n: uint8)
    ensures ParseCode(s) == Some(n) <==> s == ToDecimal(n as nat)
  {
    if s == ToDecimal(n as nat) {
      ValueOfToDecimal(n as nat);
    }
    if ParseCode(s) == Some(n) {
      ToDecimalValueOf(s);
    }
  }

  /** The decimal text of a two-digit number, written out. */
  lemma TwoDigits(n: nat)
    requires 10 <= n < 100
    ensures ToDecimal(n) == [DigitChar(n / 10), DigitChar(n % 10)]
  {
  }

  /** Bytes have at most three decimal digits. */
  lemma ToDecimalLength(n: uint8)
    ensures 1 <= |ToDecimal(n as nat)| <= 3
    ensures (n as nat < 10) == (|ToDecimal(n as nat)| == 1)
    ensures (n as nat >= 100) == (|ToDecimal(n as nat)| == 3)
  {
  }
}
