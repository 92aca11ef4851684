/** `str::parse::<f32>`, as far as which strings it accepts and which number
    they spell.  The value is kept exact (a real); rounding to the nearest
    `f32`, overflow to infinity, underflow to zero and the sign of zero are not
    modelled. */
module Float32 {
  import opened Wrappers
  import opened Numbers

  datatype F32 = Finite(value: real) | Infinite(negative: bool) | NaN

  function Pow10(e: int): (r: real)
    ensures r > 0.0
    decreases if e >= 0 then e else -e
  {
    if e == 0 then 1.0
    else if e > 0 then 10.0 * Pow10(e - 1)
    else Pow10(e + 1) / 10.0
  }

  /** The number `m * 10^e`. */
  function Scale(m: nat, e: int): (r: real)
    ensures r >= 0.0
  {
    m as real * Pow10(e)
  }

  /** Length of the longest prefix made of ASCII digits. */
  function LeadingDigits(s: string): (n: nat)
    ensures n <= |s| && AllDigits(s[..n]) && (n == |s| || !IsDigit(s[n]))
  {
    if s != [] && IsDigit(s[0]) then
      var n := LeadingDigits(s[1..]) + 1;
      assert s[..n] == [s[0]] + s[1..][..n - 1];
      n
    else
      0
  }

  /** The exponent after `e`/`E`: an optional sign and at least one digit,
      ending the string. */
  function ParseExponent(s: string): (r: Option<int>)
  {
    var negative := s != [] && s[0] == '-';
    var digits := if s != [] && (s[0] == '+' || s[0] == '-') then s[1..] else s;
    if digits != [] && AllDigits(digits) then
      Some(if negative then -(DigitsValue(digits) as int) else DigitsValue(digits))
    else
      None
  }

  /** An unsigned decimal: digits, optionally `.` and more digits (at least one
      digit in all), optionally an exponent; nothing may follow. */
  function ParseDecimal(s: string): (r: Option<real>)
    ensures r.Some? ==> r.value >= 0.0
  {
    var a := LeadingDigits(s);
    ParseAfterInteger(s[..a], s[a..])
  }

  /** The optional `.` and fraction digits after the integer digits. */
  function ParseAfterInteger(intPart: string, rest: string): (r: Option<real>)
    requires AllDigits(intPart)
    ensures r.Some? ==> r.value >= 0.0
  {
    if rest != [] && rest[0] == '.' then
      var b := LeadingDigits(rest[1..]);
      ParseMantissaAndExponent(intPart, rest[1..][..b], rest[1..][b..])
    else
      ParseMantissaAndExponent(intPart, "", rest)
  }

  /** At least one digit, then nothing or an exponent. */
  function ParseMantissaAndExponent(intPart: string, fraction: string, tail: string): (r: Option<real>)
    requires AllDigits(intPart) && AllDigits(fraction)
    ensures r.Some? ==> r.value >= 0.0
  {
    if |intPart| + |fraction| == 0 then None
    else match ParseExponentPart(tail)
      case None => None
      case Some(e) => Some(Scale(DigitsValue(intPart + fraction), e - |fraction|))
  }

  /** Nothing (exponent 0) or `e`/`E` and an exponent. */
  function ParseExponentPart(tail: string): (r: Option<int>)
  {
    if tail == [] then Some(0)
    else if tail[0] == 'e' || tail[0] == 'E' then ParseExponent(tail[1..])
    else None
  }

  function ToAsciiLower(c: char): char {
    if 'A' <= c <= 'Z' then (c as int - 'A' as int + 'a' as int) as char else c
  }

  /** ASCII case-insensitive equality with a lower-case word. */
  predicate EqualsIgnoreAsciiCase(s: string, lower: string) {
    |s| == |lower| && forall i :: 0 <= i < |s| ==> ToAsciiLower(s[i]) == lower[i]
  }

  /** `f32::from_str`: an optional sign, then a decimal or one of the words
      `inf`, `infinity` or `nan` in any ASCII case.  No whitespace is
      accepted. */
  function ParseF32(s: string): (r: Option<F32>)
    ensures r.Some? ==> |s| >= 1 && (s[0] == '+' || s[0] == '-' ==> |s| >= 2)
    ensures r.Some? && r.value.Finite? && s[0] == '-' ==> r.value.value <= 0.0
    ensures r.Some? && r.value.Finite? && s[0] != '-' ==> r.value.value >= 0.0
  {
    if s == [] then None
    else
      var negative := s[0] == '-';
      var body := if s[0] == '+' || s[0] == '-' then s[1..] else s;
      if body == [] then None
      else match ParseDecimal(body)
        case Some(x) => Some(Finite(if negative then -x else x))
        case None =>
          if EqualsIgnoreAsciiCase(body, "inf") || EqualsIgnoreAsciiCase(body, "infinity") then
            Some(Infinite(negative))
          else if EqualsIgnoreAsciiCase(body, "nan") then
            Some(NaN)
          else
            None
  }

  /** An integer literal parses to its own value. */
  lemma ParseF32OfNat(n: nat)
    ensures ParseF32(NatToString(n)) == Some(Finite(n as real))
  {
    var s := NatToString(n);
    LeadingDigitsOf(s, |s|);
    assert s[..|s|] == s && s[|s|..] == [];
    assert s + [] == s;
    assert ParseDecimal(s) == Some(n as real);
  }

  /** `a.b` with digit strings `a` and `b` is `ab` scaled down by |b| places. */
  lemma ParseF32OfFixedPoint(a: string, b: string)
    requires |a| >= 1 && AllDigits(a) && AllDigits(b)
    ensures ParseF32(a + "." + b) == Some(Finite(Scale(DigitsValue(a + b), -|b|)))
  {
    var s := a + "." + b;
    ParseDecimalOfFixedPoint(a, b);
    assert s[0] == a[0];
    assert IsDigit(s[0]);
  }

  /** A digit, a dot and a digit: tenths. */
  lemma ParseF32OfTenths(a: char, b: char)
    requires IsDigit(a) && IsDigit(b)
    ensures ParseF32([a] + "." + [b]) == Some(Finite((10 * DigitValue(a) + DigitValue(b)) as real / 10.0))
  {
    ParseF32OfFixedPoint([a], [b]);
    assert DigitsValue([a] + [b]) == 10 * DigitValue(a) + DigitValue(b) by {
      assert DigitsValue([a]) == DigitValue(a) by {
        assert [a][..0] == [];
      }
      DigitsValueSnoc([a], b);
    }
    assert Scale(10 * DigitValue(a) + DigitValue(b), -1) == (10 * DigitValue(a) + DigitValue(b)) as real / 10.0 by {
      assert Pow10(-1) == 0.1;
    }
  }

  lemma ParseDecimalOfFixedPoint(a: string, b: string)
    requires AllDigits(a) && AllDigits(b) && |a| + |b| >= 1
    ensures ParseDecimal(a + "." + b) == Some(Scale(DigitsValue(a + b), -|b|))
  {
    var s := a + "." + b;
    assert s[..|a|] == a;
    assert s[|a|..] == "." + b;
    LeadingDigitsOf(s, |a|);
    ParseAfterDot(a, b);
  }

  lemma ParseAfterDot(a: string, b: string)
    requires AllDigits(a) && AllDigits(b) && |a| + |b| >= 1
    ensures ParseAfterInteger(a, "." + b) == Some(Scale(DigitsValue(a + b), -|b|))
  {
    var rest := "." + b;
    assert rest[1..] == b;
    assert b[..|b|] == b && b[|b|..] == [];
    LeadingDigitsOf(b, |b|);
    assert rest != [] && rest[0] == '.';
    assert ParseAfterInteger(a, rest) == ParseMantissaAndExponent(a, b, []);
    assert ParseExponentPart([]) == Some(0);
    assert 0 - |b| == -|b|;
  }

  lemma {:induction false} LeadingDigitsOf(s: string, n: nat)
    requires n <= |s| && AllDigits(s[..n]) && (n == |s| || !IsDigit(s[n]))
    ensures LeadingDigits(s) == n
    decreases n
  {
    if n > 0 {
      assert IsDigit(s[..n][0]);
      assert s[1..][..n - 1] == s[..n][1..];
      LeadingDigitsOf(s[1..], n - 1);
    } else if s != [] {
      assert !IsDigit(s[0]);
    }
  }
}
