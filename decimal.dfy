/**
 * Decimal integer text as Go's strconv reads and writes it: `strconv.ParseInt(s, 10, 64)`
 * (and `strconv.Atoi`, which is the same on a 64-bit platform) and `%d` formatting.
 */
module Decimal {
  import opened Wrappers
  import opened GoInt

  predicate IsDigit(c: char) {
    '0' <= c <= '9'
  }

  predicate AllDigits(s: string) {
    forall i :: 0 <= i < |s| ==> IsDigit(s[i])
  }

  function DigitValue(c: char): nat
    requires IsDigit(c)
  {
    (c as int) - ('0' as int)
  }

  function DigitChar(d: nat): (c: char)
    requires d < 10
    ensures IsDigit(c) && DigitValue(c) == d
  {
    ('0' as int + d) as char
  }

  /** The value of a run of decimal digits, most significant first. */
  function DigitsValue(s: string): nat
    requires AllDigits(s)
    decreases |s|
  {
    if s == [] then 0 else DigitsValue(s[..|s| - 1]) * 10 + DigitValue(s[|s| - 1])
  }

  /**
   * `strconv.ParseInt(s, 10, 64)`: an optional `+` or `-`, then at least one decimal digit
   * and nothing else; the value must lie in the int64 range. None stands for the returned error.
   */
  function ParseInt64(s: string): (r: Option<int>)
    ensures r.Some? ==> InInt64(r.value)
    ensures r.Some? ==> |s| > 0 && (forall i :: 0 < i < |s| ==> IsDigit(s[i])) && IsDigit(s[|s| - 1])
    ensures r.Some? ==> (IsDigit(s[0]) || s[0] == '+' || s[0] == '-')
    ensures r.Some? && r.value < 0 ==> s[0] == '-'
  {
    if |s| == 0 then None
    else
      var signed := s[0] == '+' || s[0] == '-';
      SignedDigits(s[0] == '-', if signed then s[1..] else s)
  }

  /** The value of `digits` read as a magnitude, negated when `negative`, if it is a digit run in the int64 range. */
  function SignedDigits(negative: bool, digits: string): (r: Option<int>)
    ensures r.Some? ==> InInt64(r.value) && |digits| > 0 && AllDigits(digits)
    ensures r.Some? && r.value < 0 ==> negative
  {
    if |digits| == 0 || !AllDigits(digits) then None
    else
      var magnitude: int := DigitsValue(digits);
      var v := if negative then -magnitude else magnitude;
      if InInt64(v) then Some(v) else None
  }

  /**
   * Every optional sign followed by a non-empty run of digits is accepted exactly when its value
   * lies in the int64 range, and then gives that value; leading zeros, "+" and "-0" included.
   */
  lemma ParseSignedDigits(sign: string, digits: string)
    requires sign == "" || sign == "+" || sign == "-"
    requires |digits| > 0 && AllDigits(digits)
    ensures var v: int := if sign == "-" then -(DigitsValue(digits) as int) else DigitsValue(digits);
            ParseInt64(sign + digits) == if InInt64(v) then Some(v) else None
  {
    if sign == "" {
      assert sign + digits == digits;
      ParseUnsigned(digits);
    } else {
      ParseSigned(sign[0], digits);
      assert sign + digits == [sign[0]] + digits;
    }
  }

  lemma ParseUnsigned(digits: string)
    requires |digits| > 0 && AllDigits(digits)
    ensures ParseInt64(digits) == if InInt64(DigitsValue(digits)) then Some(DigitsValue(digits) as int) else None
  {
    assert IsDigit(digits[0]);
  }

  lemma ParseSigned(sign: char, digits: string)
    requires sign == '+' || sign == '-'
    requires |digits| > 0 && AllDigits(digits)
    ensures var v: int := if sign == '-' then -(DigitsValue(digits) as int) else DigitsValue(digits);
            ParseInt64([sign] + digits) == if InInt64(v) then Some(v) else None
  {
    var s := [sign] + digits;
    assert s[1..] == digits;
    assert ParseInt64(s) == SignedDigits(sign == '-', digits);
  }

  /** Decimal digits of a natural number without leading zeros. */
  function FormatNat(n: nat): (s: string)
    decreases n
  {
    if n < 10 then [DigitChar(n)] else FormatNat(n / 10) + [DigitChar(n % 10)]
  }

  /** Go's `%d` (strconv.FormatInt(n, 10)): a minus sign for negative values, then the digits. */
  function FormatInt(n: int): string {
    if n < 0 then "-" + FormatNat(-n) else FormatNat(n)
  }

  lemma {:induction false} FormatNatReadsBack(n: nat)
    ensures |FormatNat(n)| > 0 && AllDigits(FormatNat(n))
    ensures DigitsValue(FormatNat(n)) == n
    decreases n
  {
    if n >= 10 {
      FormatNatReadsBack(n / 10);
      var s := FormatNat(n / 10) + [DigitChar(n % 10)];
      assert s[..|s| - 1] == FormatNat(n / 10);
    }
  }

  /** Every int64 written with `%d` parses back to itself. */
  lemma FormatThenParse(n: int)
    requires InInt64(n)
    ensures ParseInt64(FormatInt(n)) == Some(n)
  {
    if n < 0 {
      FormatNatReadsBack(-n);
      var s := FormatInt(n);
      assert s[1..] == FormatNat(-n);
    } else {
      FormatNatReadsBack(n);
    }
  }
}
