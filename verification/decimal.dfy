/**
 * Decimal text and 64-bit signed integers: the parts of Go's strconv that the
 * check-run URL parser relies on (`ParseInt(s, 10, 64)`), and the decimal
 * formatting used to build such URLs.
 */
module Decimal {
  import opened Wrappers

  const MaxInt64: int := 0x7FFF_FFFF_FFFF_FFFF
  const MinInt64: int := -0x8000_0000_0000_0000

  predicate IsDigit(c: char) {
    '0' <= c <= '9'
  }

  predicate AllDigits(s: string) {
    forall i :: 0 <= i < |s| ==> IsDigit(s[i])
  }

  function DigitValue(c: char): (d: nat)
    requires IsDigit(c)
    ensures d < 10
  {
    c as int - '0' as int
  }

  function DigitChar(d: nat): (c: char)
    requires d < 10
    ensures IsDigit(c) && DigitValue(c) == d
  {
    ('0' as int + d) as char
  }

  /** The value of a string of decimal digits, most significant digit first. */
  function DecimalValue(s: string): nat
    requires AllDigits(s)
  {
    if |s| == 0 then 0 else DecimalValue(s[..|s| - 1]) * 10 + DigitValue(s[|s| - 1])
  }

  /** Canonical decimal text of a natural number (no sign, no leading zeros). */
  function FormatDecimal(n: nat): (s: string)
    ensures |s| >= 1 && AllDigits(s)
    ensures |s| > 1 ==> s[0] != '0'
  {
    if n < 10 then [DigitChar(n)] else FormatDecimal(n / 10) + [DigitChar(n % 10)]
  }

  /** Reading back the formatted text gives the number. */
  lemma {:induction false} DecimalValueOfFormat(n: nat)
    ensures DecimalValue(FormatDecimal(n)) == n
  {
    var s := FormatDecimal(n);
    if n >= 10 {
      DecimalValueOfFormat(n / 10);
      assert s[..|s| - 1] == FormatDecimal(n / 10);
    }
  }

  /** Formatting the value of canonical decimal text gives the text back. */
  lemma {:induction false} FormatOfDecimalValue(s: string)
    requires |s| >= 1 && AllDigits(s)
    requires |s| > 1 ==> s[0] != '0'
    ensures FormatDecimal(DecimalValue(s)) == s
  {
    if |s| > 1 {
      var p := s[..|s| - 1];
      assert p[0] == s[0];
      FormatOfDecimalValue(p);
      DecimalValuePositive(p);
    }
  }

  lemma {:induction false} DecimalValuePositive(s: string)
    requires |s| >= 1 && AllDigits(s) && s[0] != '0'
    ensures DecimalValue(s) >= 1
  {
    if |s| > 1 {
      var p := s[..|s| - 1];
      assert p[0] == s[0];
      DecimalValuePositive(p);
    }
  }

  /**
   * `strconv.ParseInt(s, 10, 64)`: an optional sign, then one or more decimal
   * digits (base 10 admits no prefix and no underscores); a value outside the
   * int64 range is a range error, anything else malformed a syntax error. Both
   * errors are `None`.
   */
  function ParseInt64(s: string): (r: Option<int>)
    ensures r.Some? ==> MinInt64 <= r.value <= MaxInt64
    ensures |s| >= 1 && AllDigits(s) ==>
      (r.Some? <==> DecimalValue(s) <= MaxInt64) && (r.Some? ==> r.value == DecimalValue(s))
    ensures |s| == 0 ==> r.None?
    ensures |s| >= 1 && s[0] != '+' && s[0] != '-' && !AllDigits(s) ==> r.None?
    ensures |s| >= 2 && s[0] == '-' && AllDigits(s[1..]) ==>
      (r.Some? <==> DecimalValue(s[1..]) <= -MinInt64) && (r.Some? ==> r.value + DecimalValue(s[1..]) == 0)
    ensures |s| >= 2 && s[0] == '+' && AllDigits(s[1..]) ==>
      (r.Some? <==> DecimalValue(s[1..]) <= MaxInt64) && (r.Some? ==> r.value == DecimalValue(s[1..]))
    ensures |s| >= 1 && (s[0] == '+' || s[0] == '-') && !AllDigits(s[1..]) ==> r.None?
    ensures |s| == 1 && (s[0] == '+' || s[0] == '-') ==> r.None?
  {
    if |s| == 0 then None
    else
      var negative := s[0] == '-';
      var digits := if s[0] == '+' || s[0] == '-' then s[1..] else s;
      if |digits| == 0 || !AllDigits(digits) then None
      else
        var v: int := DecimalValue(digits);
        if negative then
          (if v > -MinInt64 then None else Some(-v))
        else
          (if v > MaxInt64 then None else Some(v))
  }
}
