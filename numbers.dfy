/** Rust's integer `from_str` for `u8`, `u32` and `i32`, as `str::parse` applies
    it to a trimmed value, and the `u8 != 0` reading of a boolean flag. */
module Numbers {
  import opened Wrappers

  const U8_MAX: int := 255
  const U32_MAX: int := 4294967295
  const I32_MIN: int := -2147483648
  const I32_MAX: int := 2147483647

  predicate IsDigit(c: char) {
    '0' <= c <= '9'
  }

  predicate AllDigits(s: string) {
    forall i :: 0 <= i < |s| ==> IsDigit(s[i])
  }

  function DigitValue(c: char): (d: nat)
    requires IsDigit(c)
    ensures d < 10
  {
    c as int - '0' as int
  }

  function Digit(d: nat): (c: char)
    requires d < 10
    ensures IsDigit(c) && DigitValue(c) == d
  {
    ('0' as int + d) as char
  }

  /** The number a string of decimal digits denotes; leading zeros allowed. */
  function DigitsValue(s: string): nat
    requires AllDigits(s)
  {
    if s == [] then 0 else DigitsValue(s[..|s| - 1]) * 10 + DigitValue(s[|s| - 1])
  }

  lemma DigitsValueSnoc(s: string, c: char)
    requires AllDigits(s) && IsDigit(c)
    ensures AllDigits(s + [c]) && DigitsValue(s + [c]) == DigitsValue(s) * 10 + DigitValue(c)
  {
    assert (s + [c])[..|s|] == s;
  }

  /** Leading zeros do not change the value. */
  lemma {:induction false} DigitsValueLeadingZero(s: string)
    requires AllDigits(s)
    ensures AllDigits("0" + s) && DigitsValue("0" + s) == DigitsValue(s)
    decreases |s|
  {
    if s != [] {
      var t := "0" + s;
      assert t[..|t| - 1] == "0" + s[..|s| - 1];
      DigitsValueLeadingZero(s[..|s| - 1]);
    }
  }

  /** Integer `from_str` with a range check: an optional `+` (or `-` when the
      type is signed), then one or more ASCII digits, nothing else, and a value
      inside [lo, hi].  An empty string, a sign alone, any other character and
      an out-of-range value all fail. */
  function ParseInteger(s: string, signed: bool, lo: int, hi: int): (r: Option<int>)
    ensures r.Some? ==> lo <= r.value <= hi
    ensures r.Some? ==> |s| >= 1 && AllDigits(s[1..])
                        && (IsDigit(s[0]) || s[0] == '+' || (signed && s[0] == '-'))
                        && (s[0] == '+' || s[0] == '-' ==> |s| >= 2)
  {
    if s == [] then None
    else if (s[0] == '+' || s[0] == '-') && |s| == 1 then None
    else
      var negative := signed && s[0] == '-';
      var digits := if s[0] == '+' || negative then s[1..] else s;
      if !AllDigits(digits) then None
      else
        var magnitude: int := DigitsValue(digits);
        var v := if negative then -magnitude else magnitude;
        if lo <= v <= hi then Some(v) else None
  }

  /** `str::parse::<u8>`. */
  function ParseU8(s: string): (r: Option<nat>)
    ensures r.Some? ==> r.value <= U8_MAX
    ensures r.Some? <==> ParseInteger(s, false, 0, U8_MAX).Some?
  {
    match ParseInteger(s, false, 0, U8_MAX)
    case None => None
    case Some(v) => Some(v)
  }

  /** `str::parse::<u32>`. */
  function ParseU32(s: string): (r: Option<nat>)
    ensures r.Some? ==> r.value <= U32_MAX
    ensures r.Some? <==> ParseInteger(s, false, 0, U32_MAX).Some?
  {
    match ParseInteger(s, false, 0, U32_MAX)
    case None => None
    case Some(v) => Some(v)
  }

  /** `str::parse::<i32>`. */
  function ParseI32(s: string): (r: Option<int>)
    ensures r.Some? ==> I32_MIN <= r.value <= I32_MAX
  {
    ParseInteger(s, true, I32_MIN, I32_MAX)
  }

  /** `str::parse::<u8>().unwrap() != 0`: any `u8` other than 0 reads as true. */
  function ParseFlag(s: string): (r: Option<bool>)
    ensures r.Some? <==> ParseU8(s).Some?
    ensures r.Some? ==> (r.value <==> 1 <= ParseU8(s).value <= U8_MAX)
  {
    match ParseU8(s)
    case None => None
    case Some(n) => Some(n != 0)
  }

  /** Shortest decimal rendering of a natural number. */
  function NatToString(n: nat): (r: string)
    ensures |r| >= 1 && AllDigits(r) && DigitsValue(r) == n
  {
    if n < 10 then
      assert [Digit(n)][..0] == [];
      [Digit(n)]
    else
      var r := NatToString(n / 10) + [Digit(n % 10)];
      DigitsValueSnoc(NatToString(n / 10), Digit(n % 10));
      r
  }

  /** Decimal rendering of an integer, with `-` for negatives. */
  function IntToString(i: int): (r: string)
  {
    if i < 0 then "-" + NatToString(-i) else NatToString(i)
  }

  /** A plain digit string is its own value, whatever the signedness. */
  lemma ParseDigits(d: string, signed: bool, lo: int, hi: int)
    requires |d| >= 1 && AllDigits(d)
    ensures ParseInteger(d, signed, lo, hi)
            == if lo <= DigitsValue(d) <= hi then Some(DigitsValue(d)) else None
  {
    assert IsDigit(d[0]);
  }

  /** A leading `+` is accepted and changes nothing. */
  lemma ParsePlus(d: string, signed: bool, lo: int, hi: int)
    requires |d| >= 1 && AllDigits(d)
    ensures ParseInteger("+" + d, signed, lo, hi) == ParseInteger(d, signed, lo, hi)
  {
    assert ("+" + d)[1..] == d;
    ParseDigits(d, signed, lo, hi);
  }

  /** A leading `-` negates for a signed type and fails for an unsigned one. */
  lemma ParseMinus(d: string, signed: bool, lo: int, hi: int)
    requires |d| >= 1 && AllDigits(d)
    ensures ParseInteger("-" + d, signed, lo, hi)
            == if signed && lo <= -(DigitsValue(d) as int) <= hi then Some(-(DigitsValue(d) as int)) else None
  {
    var s := "-" + d;
    assert s[0] == '-' && s[1..] == d && |s| >= 2;
    if !signed {
      assert !IsDigit(s[0]);
      assert !AllDigits(s);
    } else {
      var v: int := -(DigitsValue(d) as int);
      assert ParseInteger(s, signed, lo, hi) == if lo <= v <= hi then Some(v) else None;
    }
  }

  /** Rendering then parsing gives the number back for every `u32`. */
  lemma ParseU32RoundTrip(n: nat)
    requires n <= U32_MAX
    ensures ParseU32(NatToString(n)) == Some(n)
  {
    ParseDigits(NatToString(n), false, 0, U32_MAX);
  }

  /** ... and for every `u8`. */
  lemma ParseU8RoundTrip(n: nat)
    requires n <= U8_MAX
    ensures ParseU8(NatToString(n)) == Some(n)
  {
    ParseDigits(NatToString(n), false, 0, U8_MAX);
  }

  /** ... and for every `i32`, negatives included. */
  lemma ParseI32RoundTrip(i: int)
    requires I32_MIN <= i <= I32_MAX
    ensures ParseI32(IntToString(i)) == Some(i)
  {
    if i < 0 {
      ParseMinus(NatToString(-i), true, I32_MIN, I32_MAX);
    } else {
      ParseDigits(NatToString(i), true, I32_MIN, I32_MAX);
    }
  }
}
