/**
 * Decimal text of unsigned integers, as the Rust standard library writes and
 * reads it: `format!("{n}")` and `u16::from_str` / `u32::from_str`.
 */
module Decimal {
  import opened Prelude

  /** `core::num::IntErrorKind`, restricted to the kinds an unsigned parse can report. */
  datatype IntErrorKind = Empty | InvalidDigit | PosOverflow

  predicate IsDigit(c: char) {
    '0' <= c <= '9'
  }

  predicate AllDigits(s: string) {
    forall i :: 0 <= i < |s| ==> IsDigit(s[i])
  }

  function DigitValue(c: char): (d: nat)
    requires IsDigit(c)
    ensures d < 10
  {
    c as int - '0' as int
  }

  function DigitChar(d: nat): (c: char)
    requires d < 10
    ensures IsDigit(c) && DigitValue(c) == d
  {
    ('0' as int + d) as char
  }

  /** The number a string of decimal digits denotes, read left to right. */
  function DigitsValue(s: string): nat
    requires AllDigits(s)
  {
    if s == [] then 0 else DigitsValue(s[..|s| - 1]) * 10 + DigitValue(s[|s| - 1])
  }

  /** `format!("{n}")`: the shortest decimal text of `n`, with no sign and no leading zero. */
  function DecimalString(n: nat): (s: string)
    ensures |s| >= 1 && AllDigits(s) && DigitsValue(s) == n
    ensures s[0] != '0' || n == 0
  {
    if n < 10 then [DigitChar(n)]
    else
      var s := DecimalString(n / 10) + [DigitChar(n % 10)];
      assert s[..|s| - 1] == DecimalString(n / 10);
      s
  }

  /**
   * The digit loop of Rust's `from_str_radix` for an unsigned type whose largest
   * value is `max`: each character is checked left to right, a non-digit being
   * reported before an overflow at the same position.
   */
  function AccumulateDigits(s: string, max: nat): (r: Result<nat, IntErrorKind>)
  {
    if s == [] then Ok(0)
    else
      match AccumulateDigits(s[..|s| - 1], max)
      case Err(k) => Err(k)
      case Ok(v) =>
        var c := s[|s| - 1];
        if !IsDigit(c) then Err(InvalidDigit)
        else if v * 10 + DigitValue(c) > max then Err(PosOverflow)
        else Ok(v * 10 + DigitValue(c))
  }

  /** `FromStr` for an unsigned integer type whose largest value is `max`. */
  function ParseUnsigned(s: string, max: nat): (r: Result<nat, IntErrorKind>)
  {
    if s == [] then Err(Empty)
    else if (s[0] == '+' || s[0] == '-') && |s| == 1 then Err(InvalidDigit)
    else if s[0] == '+' then AccumulateDigits(s[1..], max)
    else AccumulateDigits(s, max)
  }

  /** The digits of `s` once an optional leading `+` is removed. */
  function Unsigned(s: string): string {
    if |s| > 0 && s[0] == '+' then s[1..] else s
  }

  /** A prefix of a digit string never denotes more than the whole string. */
  lemma {:induction false} DigitsValuePrefix(s: string, k: nat)
    requires AllDigits(s) && k <= |s|
    ensures AllDigits(s[..k]) && DigitsValue(s[..k]) <= DigitsValue(s)
    decreases |s| - k
  {
    if k < |s| {
      DigitsValuePrefix(s, k + 1);
      var t := s[..k + 1];
      assert t[..|t| - 1] == s[..k];
      assert DigitsValue(t) == DigitsValue(s[..k]) * 10 + DigitValue(t[|t| - 1]);
    } else {
      assert s[..k] == s;
    }
  }

  /** The digit loop succeeds exactly on digit strings whose value fits, and then yields that value. */
  lemma {:induction false} AccumulateDigitsCorrect(s: string, max: nat)
    ensures AccumulateDigits(s, max).Ok? <==> AllDigits(s) && DigitsValue(s) <= max
    ensures AccumulateDigits(s, max).Ok? ==> AccumulateDigits(s, max).value == DigitsValue(s)
    ensures AccumulateDigits(s, max).Err? ==> AccumulateDigits(s, max).error != Empty
  {
    if s != [] {
      var p := s[..|s| - 1];
      AccumulateDigitsCorrect(p, max);
      if AllDigits(s) {
        assert AllDigits(p);
        DigitsValuePrefix(s, |s| - 1);
      } else if AllDigits(p) {
        assert !IsDigit(s[|s| - 1]);
      }
    }
  }

  /**
   * An unsigned parse succeeds exactly when, after one optional `+`, what is left
   * is a non-empty string of digits whose value is at most `max`; the result is that value.
   */
  lemma ParseUnsignedCorrect(s: string, max: nat)
    ensures ParseUnsigned(s, max).Ok? <==>
      |Unsigned(s)| > 0 && AllDigits(Unsigned(s)) && DigitsValue(Unsigned(s)) <= max
    ensures ParseUnsigned(s, max).Ok? ==> ParseUnsigned(s, max).value == DigitsValue(Unsigned(s))
    ensures ParseUnsigned(s, max) == Err(Empty) <==> s == []
  {
    AccumulateDigitsCorrect(Unsigned(s), max);
    if s != [] && s[0] == '-' {
      AccumulateDigitsCorrect(s, max);
      assert !IsDigit(s[0]);
    }
  }

  /** Decimal text parses back to the number it was written from, whenever that number fits. */
  lemma DecimalRoundTrip(n: nat, max: nat)
    requires n <= max
    ensures ParseUnsigned(DecimalString(n), max) == Ok(n)
  {
    var s := DecimalString(n);
    assert IsDigit(s[0]);
    AccumulateDigitsCorrect(s, max);
  }
}
