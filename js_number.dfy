/** The few pieces of JavaScript's number semantics that the drawing utilities rely on:
    `Math.round`, the decimal text a template literal gives an integral number, and the
    "array index" test that decides where a string key goes in an object's property order.
    JavaScript numbers are modelled as exact reals, integral ones as `int`. */
module JsNumber {

  /** `Math.round(x)`: the integer nearest to `x`, halves rounded up towards +infinity
      (so 2.5 becomes 3 and -2.5 becomes -2). */
  function Round(x: real): (n: int)
    ensures n as real - 0.5 <= x < n as real + 0.5
  {
    (x + 0.5).Floor
  }

  predicate IsDigit(c: char) {
    '0' <= c <= '9'
  }

  function DigitChar(d: nat): (c: char)
    requires d < 10
    ensures IsDigit(c) && DigitValue(c) == d
  {
    ('0' as int + d) as char
  }

  function DigitValue(c: char): nat
    requires IsDigit(c)
  {
    c as int - '0' as int
  }

  predicate AllDigits(s: string) {
    forall i :: 0 <= i < |s| ==> IsDigit(s[i])
  }

  /** The text JavaScript produces for a non-negative integral number: decimal digits,
      no sign, no leading zero (except for 0 itself). */
  predicate IsCanonicalDecimal(s: string) {
    |s| >= 1 && AllDigits(s) && (s[0] == '0' ==> |s| == 1)
  }

  /** `String(n)` for a non-negative integral number. */
  function NatToDecimal(n: nat): string {
    if n < 10 then [DigitChar(n)] else NatToDecimal(n / 10) + [DigitChar(n % 10)]
  }

  /** The printed form is canonical, and it is "0" only for 0. */
  lemma {:induction false} NatToDecimalCanonical(n: nat)
    ensures IsCanonicalDecimal(NatToDecimal(n))
    ensures (NatToDecimal(n) == "0") == (n == 0)
  {
    if n >= 10 {
      NatToDecimalCanonical(n / 10);
      var p := NatToDecimal(n / 10);
      var s := NatToDecimal(n);
      assert s == p + [DigitChar(n % 10)];
      assert s[0] == p[0];
      assert |s| >= 2;
    }
  }

  /** The value of a string of decimal digits (an empty string reads as 0). */
  function DecimalValue(s: string): nat
    requires AllDigits(s)
  {
    if s == [] then 0 else DecimalValue(s[..|s| - 1]) * 10 + DigitValue(s[|s| - 1])
  }

  /** Reading back the printed digits gives the number. */
  lemma {:induction false} DecimalRoundTrip(n: nat)
    ensures AllDigits(NatToDecimal(n)) && DecimalValue(NatToDecimal(n)) == n
  {
    NatToDecimalCanonical(n);
    if n >= 10 {
      var s := NatToDecimal(n);
      assert s[..|s| - 1] == NatToDecimal(n / 10);
      DecimalRoundTrip(n / 10);
    }
  }

  /** Digits are worth at least their leading digit, and at least 10 when there are two
      or more of them and the first is not '0'. */
  lemma {:induction false} LeadingDigitBound(s: string)
    requires AllDigits(s) && |s| >= 1
    ensures DecimalValue(s) >= DigitValue(s[0])
    ensures |s| >= 2 && s[0] != '0' ==> DecimalValue(s) >= 10
  {
    if |s| >= 2 {
      var p := s[..|s| - 1];
      assert p[0] == s[0];
      LeadingDigitBound(p);
    }
  }

  /** Printing the value of canonical digits gives the digits back. */
  lemma {:induction false} CanonicalRoundTrip(s: string)
    requires IsCanonicalDecimal(s)
    ensures NatToDecimal(DecimalValue(s)) == s
  {
    if |s| == 1 {
      assert s[..0] == [];
      assert s == [DigitChar(DigitValue(s[0]))];
    } else {
      var p := s[..|s| - 1];
      assert p[0] == s[0];
      LeadingDigitBound(s);
      LeadingDigitBound(p);
      assert IsCanonicalDecimal(p);
      CanonicalRoundTrip(p);
      var v := DecimalValue(s);
      assert v / 10 == DecimalValue(p) && v % 10 == DigitValue(s[|s| - 1]);
      assert [DigitChar(v % 10)] == [s[|s| - 1]];
      assert s == p + [s[|s| - 1]];
    }
  }

  /** Two canonical decimal strings with the same value are the same string. */
  lemma CanonicalInjective(a: string, b: string)
    requires IsCanonicalDecimal(a) && IsCanonicalDecimal(b)
    requires DecimalValue(a) == DecimalValue(b)
    ensures a == b
  {
    CanonicalRoundTrip(a);
    CanonicalRoundTrip(b);
  }

  /** The text a template literal `${n}` gives an integral number `n`. */
  function IntToString(n: int): string {
    if n < 0 then "-" + NatToDecimal(-n) else NatToDecimal(n)
  }

  /** An optional minus sign followed by decimal digits. */
  predicate IsIntText(s: string) {
    |s| >= 1 && (if s[0] == '-' then AllDigits(s[1..]) else AllDigits(s))
  }

  /** Reads back an optionally signed string of decimal digits. */
  function ParseInt(s: string): int
    requires IsIntText(s)
  {
    if s[0] == '-' then -(DecimalValue(s[1..]) as int) else DecimalValue(s)
  }

  lemma IntToStringRoundTrip(n: int)
    ensures IsIntText(IntToString(n)) && ParseInt(IntToString(n)) == n
  {
    var s := IntToString(n);
    if n < 0 {
      assert s[1..] == NatToDecimal(-n);
      DecimalRoundTrip(-n);
    } else {
      DecimalRoundTrip(n);
    }
  }

  /** 2^32 - 1: array indices are the integers below it. */
  const ArrayIndexLimit: nat := 0xFFFF_FFFF

  /** ECMAScript's "array index" property key: the canonical text of an integer
      i with 0 <= i < 2^32 - 1 ("0", "7", "42", but not "007", "-1" or "4294967295"). */
  predicate IsArrayIndex(s: string) {
    IsCanonicalDecimal(s) && DecimalValue(s) < ArrayIndexLimit
  }

  /** The two readings of "array index" agree: a key is one exactly when it is the
      printed form of a number below 2^32 - 1. */
  lemma ArrayIndexIsPrintedIndex(s: string)
    ensures IsArrayIndex(s) <==> exists i: nat :: i < ArrayIndexLimit && s == NatToDecimal(i)
  {
    if IsArrayIndex(s) {
      CanonicalRoundTrip(s);
      NatToDecimalCanonical(DecimalValue(s));
      assert s == NatToDecimal(DecimalValue(s));
    }
    if i: nat :| i < ArrayIndexLimit && s == NatToDecimal(i) {
      NatToDecimalCanonical(i);
      DecimalRoundTrip(i);
    }
  }
}
