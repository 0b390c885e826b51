/**
 * The pieces of Go's string handling and of package strconv that the chaincode
 * relies on: `len` of a string (its UTF-8 byte count), Itoa/Atoi, FormatBool/ParseBool
 * and the decimal forms ParseFloat accepts.  Money is modelled as `real`.
 */
module GoText {
  import opened Wrappers

  const MinInt64: int := -0x8000_0000_0000_0000
  const MaxInt64: int := 0x7FFF_FFFF_FFFF_FFFF

  // ---------------------------------------------------------------- byte length

  /** Bytes of the UTF-8 encoding of one character. */
  function Utf8Width(c: char): (w: nat)
    ensures 1 <= w <= 4
  {
    if c as int < 0x80 then 1
    else if c as int < 0x800 then 2
    else if c as int < 0x1_0000 then 3
    else 4
  }

  /** Go's `len(s)`: the number of bytes of the UTF-8 encoding of `s`. */
  function ByteLen(s: string): (n: nat)
    ensures |s| <= n <= 4 * |s|
    ensures (forall i :: 0 <= i < |s| ==> s[i] as int < 0x80) ==> n == |s|
  {
    if |s| == 0 then 0 else ByteLen(s[..|s| - 1]) + Utf8Width(s[|s| - 1])
  }

  lemma ByteLenEmpty(s: string)
    ensures ByteLen(s) == 0 <==> s == ""
  {
  }

  lemma {:induction false} ByteLenConcat(a: string, b: string)
    ensures ByteLen(a + b) == ByteLen(a) + ByteLen(b)
    decreases |b|
  {
    if |b| > 0 {
      assert (a + b)[..|a + b| - 1] == a + b[..|b| - 1];
      assert (a + b)[|a + b| - 1] == b[|b| - 1];
      ByteLenConcat(a, b[..|b| - 1]);
    } else {
      assert a + b == a;
    }
  }

  // ---------------------------------------------------------------- decimal digits

  predicate IsDigit(c: char) {
    '0' <= c <= '9'
  }

  predicate AllDigits(s: string) {
    forall i :: 0 <= i < |s| ==> IsDigit(s[i])
  }

  function DigitChar(d: nat): (c: char)
    requires d < 10
    ensures IsDigit(c)
  {
    ('0' as int + d) as char
  }

  function DigitValue(c: char): (d: nat)
    requires IsDigit(c)
    ensures d < 10 && DigitChar(d) == c
  {
    c as int - '0' as int
  }

  /** The value of a string of decimal digits, most significant first. */
  function DigitsValue(s: string): nat
    requires AllDigits(s)
  {
    if |s| == 0 then 0 else DigitsValue(s[..|s| - 1]) * 10 + DigitValue(s[|s| - 1])
  }

  /** The shortest decimal form of a natural number. */
  function NatToString(n: nat): (s: string)
    ensures |s| > 0 && AllDigits(s)
    ensures |s| > 1 ==> s[0] != '0'
  {
    if n < 10 then [DigitChar(n)] else NatToString(n / 10) + [DigitChar(n % 10)]
  }

  /** strconv.Itoa: decimal form, with a leading '-' for negative numbers. */
  function IntToString(n: int): (s: string)
    ensures |s| > 0 && (s[0] == '-' <==> n < 0)
    ensures AllDigits(Unsigned(s))
  {
    if n < 0 then "-" + NatToString(-n) else NatToString(n)
  }

  lemma {:induction false} NatToStringValue(n: nat)
    ensures DigitsValue(NatToString(n)) == n
  {
    if n >= 10 {
      var s := NatToString(n);
      assert s[..|s| - 1] == NatToString(n / 10);
      NatToStringValue(n / 10);
    }
  }

  // ---------------------------------------------------------------- strconv.Atoi

  /** The text after an optional leading '+' or '-'. */
  function Unsigned(s: string): string {
    if |s| > 0 && (s[0] == '+' || s[0] == '-') then s[1..] else s
  }

  /**
   * strconv.Atoi on a 64-bit platform: an optional sign and at least one decimal
   * digit, whose value must fit in an int64; anything else is an error.
   */
  function Atoi(s: string): (r: Option<int>)
    ensures r.Some? ==> MinInt64 <= r.value <= MaxInt64
    ensures r.Some? ==> |s| > 0 && AllDigits(Unsigned(s)) && |Unsigned(s)| > 0
  {
    var body := Unsigned(s);
    if |body| == 0 || !AllDigits(body) then None
    else
      var magnitude := DigitsValue(body) as int;
      var v := if s[0] == '-' then -magnitude else magnitude;
      if MinInt64 <= v <= MaxInt64 then Some(v) else None
  }

  /** Itoa and Atoi are inverse on the int64 range. */
  lemma AtoiOfIntToString(n: int)
    requires MinInt64 <= n <= MaxInt64
    ensures Atoi(IntToString(n)) == Some(n)
  {
    var s := IntToString(n);
    if n < 0 {
      assert Unsigned(s) == NatToString(-n);
      NatToStringValue(-n);
    } else {
      assert Unsigned(s) == NatToString(n);
      NatToStringValue(n);
    }
  }

  /** Re-rendering a parsed integer and parsing it again gives the same integer. */
  lemma AtoiCanonical(s: string)
    requires Atoi(s).Some?
    ensures Atoi(IntToString(Atoi(s).value)) == Atoi(s)
  {
    AtoiOfIntToString(Atoi(s).value);
  }

  // ---------------------------------------------------------------- booleans

  /** strconv.FormatBool. */
  function FormatBool(b: bool): string {
    if b then "true" else "false"
  }

  const TrueSpellings: set<string> := {"1", "t", "T", "TRUE", "true", "True"}
  const FalseSpellings: set<string> := {"0", "f", "F", "FALSE", "false", "False"}

  /** strconv.ParseBool: the boolean a spelling names, or None for its error. */
  function StrconvParseBool(s: string): Option<bool> {
    if s in TrueSpellings then Some(true)
    else if s in FalseSpellings then Some(false)
    else None
  }

  /**
   * parseBool of lib.go: strconv.ParseBool with its error discarded, so every
   * spelling other than the six true ones reads as false.
   */
  function ParseBool(s: string): (b: bool)
    ensures b <==> s in TrueSpellings
  {
    match StrconvParseBool(s)
    case Some(v) => v
    case None => false
  }

  lemma ParseBoolOfFormatBool(b: bool)
    ensures ParseBool(FormatBool(b)) == b
  {
  }

  // ---------------------------------------------------------------- floats

  /** The number of leading decimal digits of `s`. */
  function LeadingDigits(s: string): (n: nat)
    ensures n <= |s| && AllDigits(s[..n])
    ensures n < |s| ==> !IsDigit(s[n])
  {
    if |s| == 0 || !IsDigit(s[0]) then 0
    else
      var m := LeadingDigits(s[1..]);
      assert s[..1 + m] == [s[0]] + s[1..][..m];
      1 + m
  }

  lemma {:induction false} LeadingDigitsOfDigits(s: string)
    requires AllDigits(s)
    ensures LeadingDigits(s) == |s|
  {
    if |s| > 0 {
      LeadingDigitsOfDigits(s[1..]);
    }
  }

  /** v * 10^e for a possibly negative exponent, one power of ten at a time. */
  function Scale(v: real, e: int): real
    decreases if e >= 0 then e else -e
  {
    if e == 0 then v
    else if e > 0 then Scale(v, e - 1) * 10.0
    else Scale(v, e + 1) / 10.0
  }

  /** An optional exponent part `(e|E) [+-] digits`; the empty string is exponent 0. */
  function ScanExponent(s: string): Option<int> {
    if |s| == 0 then Some(0)
    else if s[0] != 'e' && s[0] != 'E' then None
    else
      var t := s[1..];
      var d := Unsigned(t);
      if |d| == 0 || !AllDigits(d) then None
      else Some(if t[0] == '-' then -(DigitsValue(d) as int) else DigitsValue(d) as int)
  }

  /**
   * The decimal forms strconv.ParseFloat accepts:
   * `[+-] digits [. digits] [(e|E) [+-] digits]`, with at least one mantissa digit
   * on either side of the point.
   */
  function ScanFloat(s: string): Option<real> {
    var t := Unsigned(s);
    var i := LeadingDigits(t);
    var afterInt := t[i..];
    var hasDot := |afterInt| > 0 && afterInt[0] == '.';
    var fracText := if hasDot then afterInt[1..] else "";
    var f := LeadingDigits(fracText);
    var rest := if hasDot then fracText[f..] else afterInt;
    if i + f == 0 then None
    else
      match ScanExponent(rest)
      case None => None
      case Some(e) =>
        var v := Scale(DigitsValue(t[..i] + fracText[..f]) as real, e - f);
        Some(if s[0] == '-' then -v else v)
  }

  /** parseFloat of lib.go: strconv.ParseFloat with its error discarded (0 on failure). */
  function ParseFloat(s: string): (r: real)
    ensures r != 0.0 ==> ScanFloat(s).Some?
  {
    match ScanFloat(s)
    case Some(v) => v
    case None => 0.0
  }

  /** A decimal integer reads back as the same amount. */
  lemma ParseFloatOfIntToString(n: int)
    ensures ParseFloat(IntToString(n)) == n as real
  {
    var s := IntToString(n);
    var digits := if n < 0 then NatToString(-n) else NatToString(n);
    assert Unsigned(s) == digits;
    LeadingDigitsOfDigits(digits);
    NatToStringValue(if n < 0 then -n else n);
    assert digits[..|digits|] + ""[..0] == digits;
  }

  /** A plain string of decimal digits reads as the number it denotes. */
  lemma ParseFloatOfDigits(d: string)
    requires |d| > 0 && AllDigits(d)
    ensures ParseFloat(d) == DigitsValue(d) as real
  {
    assert IsDigit(d[0]);
    assert Unsigned(d) == d;
    LeadingDigitsOfDigits(d);
    assert d[..|d|] + ""[..0] == d;
  }

  /**
   * Text that cannot start a number reads as the amount 0.  The spellings of
   * infinity and NaN, which start with i, I, n or N, are excluded.
   */
  lemma ParseFloatOfNonNumber(s: string)
    requires |s| > 0 && !IsDigit(s[0]) && s[0] != '+' && s[0] != '-' && s[0] != '.'
    requires s[0] != 'i' && s[0] != 'I' && s[0] != 'n' && s[0] != 'N'
    ensures ParseFloat(s) == 0.0
  {
    assert Unsigned(s) == s;
    assert LeadingDigits(s) == 0;
  }

  /** Digits followed by an exponent marker with no exponent digits read as 0. */
  lemma ParseFloatOfDanglingExponent()
    ensures ParseFloat("1e") == 0.0
  {
    assert LeadingDigits("1e") == 1 by {
      assert LeadingDigits("e") == 0;
      assert "1e"[1..] == "e";
    }
    assert ScanExponent("e") == None by { assert "e"[1..] == ""; }
    assert ScanFloat("1e") == None by { assert "1e"[1..] == "e"; }
  }

  /** Empty arguments silently become the zero values: amount 0 and flag false. */
  lemma ParseOfEmpty()
    ensures ParseFloat("") == 0.0 && !ParseBool("")
  {
    assert ScanFloat("") == None;
  }
}
