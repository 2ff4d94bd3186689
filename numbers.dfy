/** Rust's integer parsing (`str::parse::<i64>()`, `str::parse::<u8>()`)
    and decimal formatting (`to_string`, `format!("{}")`). */
module RustNum {
  import opened RustStr
  import opened Wrappers

  const I64_MIN: int := -0x8000_0000_0000_0000
  const I64_MAX: int := 0x7FFF_FFFF_FFFF_FFFF

  /** A value of Rust's `i64`. */
  type I64 = x: int | I64_MIN <= x <= I64_MAX

  /** A value of Rust's `f64`, kept opaque: only its bit pattern is carried,
      no floating-point arithmetic or parsing is modelled. */
  datatype F64 = F64(bits: bv64)

  /** `0.0_f64`. */
  const F64_ZERO: F64 := F64(0)

  predicate AllAsciiDigits(s: string) { forall i :: 0 <= i < |s| ==> IsAsciiDigit(s[i]) }

  function DigitValue(c: char): nat
    requires IsAsciiDigit(c)
  {
    c as int - '0' as int
  }

  function DigitChar(d: nat): (c: char)
    requires d < 10
    ensures IsAsciiDigit(c) && DigitValue(c) == d
  {
    ('0' as int + d) as char
  }

  /** The value of a string of decimal digits, most significant first. */
  function DigitsValue(s: string): nat
    requires AllAsciiDigits(s)
  {
    if |s| == 0 then 0 else DigitsValue(s[..|s| - 1]) * 10 + DigitValue(s[|s| - 1])
  }

  /** `str::parse::<i64>()`: an optional `+` or `-`, then one or more ASCII
      digits whose value fits in `i64`; anything else is an error. */
  function ParseI64(s: string): (r: Option<I64>)
  {
    if |s| == 0 then None
    else if (s[0] == '+' || s[0] == '-') && |s| == 1 then None
    else
      var negative := s[0] == '-';
      var digits := if s[0] == '+' || s[0] == '-' then s[1..] else s;
      if !AllAsciiDigits(digits) then None
      else
        var n: int := if negative then -(DigitsValue(digits) as int) else DigitsValue(digits);
        if I64_MIN <= n <= I64_MAX then Some(n) else None
  }

  /** `str::parse::<u8>()`: an optional `+` (a `-` is an invalid digit for an
      unsigned type), then one or more ASCII digits with value at most 255. */
  function ParseU8(s: string): (r: Option<nat>)
  {
    if |s| == 0 then None
    else if (s[0] == '+' || s[0] == '-') && |s| == 1 then None
    else
      var digits := if s[0] == '+' then s[1..] else s;
      if !AllAsciiDigits(digits) then None
      else if DigitsValue(digits) <= 255 then Some(DigitsValue(digits)) else None
  }

  /** Decimal digits of `n`, without leading zeros ("0" for zero). */
  function NatToString(n: nat): (s: string)
    ensures |s| >= 1 && AllAsciiDigits(s)
  {
    if n < 10 then [DigitChar(n)] else NatToString(n / 10) + [DigitChar(n % 10)]
  }

  /** `i64::to_string`: a `-` before the digits of a negative number. */
  function IntToString(n: int): (s: string)
  {
    if n < 0 then "-" + NatToString(-n) else NatToString(n)
  }

  lemma {:induction false} NatToStringValue(n: nat)
    ensures DigitsValue(NatToString(n)) == n
  {
    var s := NatToString(n);
    if n >= 10 {
      NatToStringValue(n / 10);
      assert s[..|s| - 1] == NatToString(n / 10);
    }
  }

  /** Every `i64` printed in decimal parses back to itself, so a buffer
      written from an integer is always accepted by the parser. */
  lemma ParsePrinted(n: I64)
    ensures ParseI64(IntToString(n)) == Some(n)
  {
    if n < 0 {
      ParsePrintedNegative(n);
    } else {
      ParsePrintedNonNegative(n);
    }
  }

  lemma ParsePrintedNegative(n: I64)
    requires n < 0
    ensures ParseI64(IntToString(n)) == Some(n)
  {
    var m: int := n;
    var d := NatToString(-m);
    NatToStringValue(-m);
    var s := IntToString(n);
    assert s == "-" + d;
    assert s[1..] == d;
    assert |s| > 1;
  }

  lemma ParsePrintedNonNegative(n: I64)
    requires n >= 0
    ensures ParseI64(IntToString(n)) == Some(n)
  {
    var s := NatToString(n);
    NatToStringValue(n);
    assert s[0] != '+' && s[0] != '-' by { assert IsAsciiDigit(s[0]); }
  }

  /** Decimal printing is injective: different numbers never share a text. */
  lemma NatToStringInjective(a: nat, b: nat)
    requires NatToString(a) == NatToString(b)
    ensures a == b
  {
    NatToStringValue(a);
    NatToStringValue(b);
  }

  /** Every printed byte value is accepted by the `u8` parser. */
  lemma ParseU8Printed(n: nat)
    requires n <= 255
    ensures ParseU8(NatToString(n)) == Some(n)
  {
    var s := NatToString(n);
    NatToStringValue(n);
    assert s[0] != '+' && s[0] != '-' by { assert IsAsciiDigit(s[0]); }
  }

  /** What the i64 parser accepts, stated without the parser's control flow:
      a success is a sign-then-digits text whose value is the result. */
  lemma ParseI64Accepts(s: string)
    requires ParseI64(s).Some?
    ensures |s| >= 1
    ensures var digits := if s[0] == '+' || s[0] == '-' then s[1..] else s;
      |digits| >= 1 && AllAsciiDigits(digits)
      && ParseI64(s).value == (if s[0] == '-' then -(DigitsValue(digits) as int) else DigitsValue(digits))
  {
  }
}
