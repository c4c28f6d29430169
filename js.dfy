/**
 * The pieces of JavaScript semantics the news pipeline depends on:
 * the values a query schema produces, `Number(string)` coercion,
 * ASCII `toLowerCase`, and the difference between a missing field,
 * an explicit `null` and a present value.
 */
module Js {
  import opened Wrappers

  /** A field of a JSON record: key missing (`undefined`), `null`, or a value. */
  datatype JsField<+T> = Absent | Null | Present(value: T)

  /** A JavaScript number, without binary64 rounding: a finite real, an infinity or NaN. */
  datatype JsNumber = Finite(r: real) | PosInfinity | NegInfinity | NaN

  /** A value a query schema yields: a string or a (coerced) number. */
  datatype Value = Text(s: string) | Number(n: JsNumber)

  // ---------------------------------------------------------------------------
  // Number(string)
  // ---------------------------------------------------------------------------

  predicate IsDigit(c: char) { '0' <= c <= '9' }

  predicate AllDigits(s: string) { forall i :: 0 <= i < |s| ==> IsDigit(s[i]) }

  /** The white space `Number` strips from both ends (the ASCII part of it). */
  predicate IsSpace(c: char) {
    c == ' ' || c == '\t' || c == '\n' || c == '\r' || c == '\U{000B}' || c == '\U{000C}'
  }

  /** The value of a string of decimal digits, most significant digit first. */
  function DigitsValue(s: string): nat
    requires AllDigits(s)
  {
    if s == [] then 0 else DigitsValue(s[..|s| - 1]) * 10 + (s[|s| - 1] as int - '0' as int)
  }

  function Pow10(n: nat): (r: nat)
    ensures r >= 1
  {
    if n == 0 then 1 else 10 * Pow10(n - 1)
  }

  function TrimStart(s: string): (r: string)
    ensures |r| <= |s|
    ensures r == s[|s| - |r|..]
    ensures r != [] ==> !IsSpace(r[0])
    ensures forall i :: 0 <= i < |s| - |r| ==> IsSpace(s[i])
  {
    if s != [] && IsSpace(s[0]) then TrimStart(s[1..]) else s
  }

  function TrimEnd(s: string): (r: string)
    ensures |r| <= |s|
    ensures r == s[..|r|]
    ensures r != [] ==> !IsSpace(r[|r| - 1])
    ensures forall i :: |r| <= i < |s| ==> IsSpace(s[i])
  {
    if s != [] && IsSpace(s[|s| - 1]) then TrimEnd(s[..|s| - 1]) else s
  }

  /** `String.prototype.trim` restricted to ASCII white space. */
  function Trim(s: string): string {
    TrimEnd(TrimStart(s))
  }

  /** The first index of the character `c` in `s`, or `|s|` when there is none. */
  function IndexOf(s: string, c: char): (i: nat)
    ensures i <= |s|
    ensures i < |s| ==> s[i] == c
    ensures forall j :: 0 <= j < i ==> s[j] != c
  {
    if s == [] then 0 else if s[0] == c then 0 else 1 + IndexOf(s[1..], c)
  }

  function IndexOfExponent(s: string): (i: nat)
    ensures i <= |s|
    ensures i < |s| ==> s[i] == 'e' || s[i] == 'E'
    ensures forall j :: 0 <= j < i ==> s[j] != 'e' && s[j] != 'E'
  {
    var lower := IndexOf(s, 'e');
    var upper := IndexOf(s, 'E');
    if lower <= upper then lower else upper
  }

  /** The value of an exponent `[+-]digits`, or None when it is malformed. */
  function ExponentValue(s: string): Option<int> {
    if s != [] && (s[0] == '+' || s[0] == '-') then
      if s[1..] != [] && AllDigits(s[1..]) then
        var d: int := DigitsValue(s[1..]);
        Some(if s[0] == '-' then -d else d)
      else None
    else if s != [] && AllDigits(s) then Some(DigitsValue(s))
    else None
  }

  function Scale(x: real, e: int): real {
    if e >= 0 then x * Pow10(e) as real else x / Pow10(-e) as real
  }

  /**
   * The value of a mantissa: digits with at most one decimal point and at
   * least one digit in all; None when it is not of that form.
   */
  function MantissaValue(m: string): Option<real> {
    var dot := IndexOf(m, '.');
    var whole := m[..dot];
    var fraction := if dot < |m| then m[dot + 1..] else [];
    if !AllDigits(whole) || !AllDigits(fraction) || |whole| + |fraction| == 0 then None
    else Some(DigitsValue(whole + fraction) as real / Pow10(|fraction|) as real)
  }

  /** An unsigned literal: `Infinity`, or a mantissa with an optional exponent. */
  function ParseUnsigned(s: string): JsNumber {
    if s == "Infinity" then PosInfinity
    else
      var e := IndexOfExponent(s);
      var mantissa := MantissaValue(s[..e]);
      var exponent := if e < |s| then ExponentValue(s[e + 1..]) else Some(0);
      if mantissa.None? || exponent.None? then NaN else Finite(Scale(mantissa.value, exponent.value))
  }

  function Negate(n: JsNumber): JsNumber {
    match n
    case Finite(r) => Finite(-r)
    case PosInfinity => NegInfinity
    case NegInfinity => PosInfinity
    case NaN => NaN
  }

  /**
   * `Number(s)` for a string: white space around the literal is ignored,
   * a blank string is 0, one leading sign is allowed, anything else is NaN.
   */
  function ToNumber(s: string): (r: JsNumber)
    ensures (forall i :: 0 <= i < |s| ==> IsSpace(s[i])) ==> r == Finite(0.0)
  {
    SignedLiteral(Trim(s))
  }

  /** The value of an already trimmed literal: blank is 0, then an optional sign. */
  function SignedLiteral(t: string): JsNumber {
    if t == [] then Finite(0.0)
    else if t[0] == '+' then ParseUnsigned(t[1..])
    else if t[0] == '-' then Negate(ParseUnsigned(t[1..]))
    else ParseUnsigned(t)
  }

  /** The decimal rendering of a natural number, without leading zeros. */
  function NatToDecimal(n: nat): (s: string)
    ensures s != [] && AllDigits(s)
  {
    var last := [('0' as int + n % 10) as char];
    if n < 10 then last else NatToDecimal(n / 10) + last
  }

  lemma {:induction false} NatToDecimalValue(n: nat)
    ensures DigitsValue(NatToDecimal(n)) == n
  {
    var s := NatToDecimal(n);
    if n >= 10 {
      NatToDecimalValue(n / 10);
      assert s[..|s| - 1] == NatToDecimal(n / 10);
    }
  }

  /** A string without white space at either end is its own trim. */
  lemma Untrimmed(s: string)
    requires s != [] && !IsSpace(s[0]) && !IsSpace(s[|s| - 1])
    ensures Trim(s) == s
  {
    assert TrimStart(s) == s;
  }

  /** Without an exponent marker, an unsigned literal other than `Infinity` is its mantissa. */
  lemma UnsignedWithoutExponent(s: string)
    requires s != "Infinity"
    requires forall i :: 0 <= i < |s| ==> s[i] != 'e' && s[i] != 'E'
    requires MantissaValue(s).Some?
    ensures ParseUnsigned(s) == Finite(MantissaValue(s).value)
  {
    var e := IndexOfExponent(s);
    assert e == |s|;
    assert s[..e] == s;
    assert Scale(MantissaValue(s).value, 0) == MantissaValue(s).value;
  }

  /**
   * A literal that starts with a digit and has no exponent marker is read
   * as its mantissa.
   */
  lemma PlainLiteral(s: string)
    requires s != [] && IsDigit(s[0]) && !IsSpace(s[|s| - 1])
    requires forall i :: 0 <= i < |s| ==> s[i] != 'e' && s[i] != 'E'
    requires MantissaValue(s).Some?
    ensures ToNumber(s) == Finite(MantissaValue(s).value)
  {
    Untrimmed(s);
    assert SignedLiteral(s) == ParseUnsigned(s);
    assert s != "Infinity" by { assert s[0] != 'I'; }
    UnsignedWithoutExponent(s);
  }

  lemma {:induction false} NoDotInDigits(s: string)
    requires AllDigits(s)
    ensures IndexOf(s, '.') == |s|
  {
    if s != [] {
      assert IsDigit(s[0]);
      assert AllDigits(s[1..]) by {
        assert forall i :: 0 <= i < |s| - 1 ==> s[1..][i] == s[i + 1];
      }
      NoDotInDigits(s[1..]);
    }
  }

  /** Coercing the decimal rendering of a natural number gives that number back. */
  lemma {:induction false} ToNumberOfDecimal(n: nat)
    ensures ToNumber(NatToDecimal(n)) == Finite(n as real)
  {
    var s := NatToDecimal(n);
    NoDotInDigits(s);
    var dot := IndexOf(s, '.');
    assert s[..dot] == s;
    assert s + [] == s;
    NatToDecimalValue(n);
    assert MantissaValue(s) == Some(n as real);
    PlainLiteral(s);
  }

  /** A literal with a fractional part is read as the exact decimal it writes; no integer is required. */
  lemma {:induction false} ToNumberOfFraction(whole: string, fraction: string)
    requires whole != [] && AllDigits(whole) && AllDigits(fraction)
    ensures ToNumber(whole + "." + fraction)
         == Finite(DigitsValue(whole + fraction) as real / Pow10(|fraction|) as real)
  {
    var s := whole + "." + fraction;
    assert forall i :: 0 <= i < |s| && i != |whole| ==> IsDigit(s[i]) by {
      forall i | 0 <= i < |s| && i != |whole| ensures IsDigit(s[i]) {
        if i < |whole| { assert s[i] == whole[i]; } else { assert s[i] == fraction[i - |whole| - 1]; }
      }
    }
    assert s[|whole|] == '.';
    var dot := IndexOf(s, '.');
    assert dot == |whole| by {
      assert dot < |whole| ==> IsDigit(s[dot]);
    }
    assert s[..dot] == whole;
    assert s[dot + 1..] == fraction;
    assert MantissaValue(s).Some?;
    PlainLiteral(s);
  }

  /** Any amount of surrounding blank space is ignored by the coercion. */
  lemma {:induction false} ToNumberIgnoresSpace(pre: string, s: string, post: string)
    requires forall i :: 0 <= i < |pre| ==> IsSpace(pre[i])
    requires forall i :: 0 <= i < |post| ==> IsSpace(post[i])
    requires s != [] && !IsSpace(s[0]) && !IsSpace(s[|s| - 1])
    ensures ToNumber(pre + s + post) == ToNumber(s)
  {
    assert pre + s + post == pre + (s + post);
    TrimStartPad(pre, s + post);
    TrimEndPad(s, post);
    assert Trim(pre + s + post) == s;
    TrimStartPad([], s);
    TrimEndPad(s, []);
    assert Trim(s) == s;
  }

  lemma {:induction false} TrimStartPad(pad: string, s: string)
    requires forall i :: 0 <= i < |pad| ==> IsSpace(pad[i])
    requires s != [] && !IsSpace(s[0])
    ensures TrimStart(pad + s) == s
  {
    if pad != [] {
      assert (pad + s)[1..] == pad[1..] + s;
      TrimStartPad(pad[1..], s);
    }
  }

  lemma {:induction false} TrimEndPad(s: string, pad: string)
    requires forall i :: 0 <= i < |pad| ==> IsSpace(pad[i])
    requires s != [] && !IsSpace(s[|s| - 1])
    ensures TrimEnd(s + pad) == s
  {
    if pad != [] {
      assert (s + pad)[..|s + pad| - 1] == s + pad[..|pad| - 1];
      TrimEndPad(s, pad[..|pad| - 1]);
    }
  }

  // ---------------------------------------------------------------------------
  // String length
  // ---------------------------------------------------------------------------

  /** A character outside the Basic Multilingual Plane, stored as a surrogate pair in UTF-16. */
  predicate IsAstral(c: char) { c as int >= 0x1_0000 }

  /**
   * `String.prototype.length`: the number of UTF-16 code units, one per
   * character of the Basic Multilingual Plane and two per astral character.
   */
  function Utf16Length(s: string): (r: nat)
    ensures |s| <= r <= 2 * |s|
    ensures r == |s| <==> forall i :: 0 <= i < |s| ==> !IsAstral(s[i])
  {
    if s == [] then 0
    else
      var rest := Utf16Length(s[1..]);
      assert forall i :: 1 <= i < |s| ==> s[i] == s[1..][i - 1];
      (if IsAstral(s[0]) then 2 else 1) + rest
  }

  // ---------------------------------------------------------------------------
  // toLowerCase
  // ---------------------------------------------------------------------------

  predicate IsUpper(c: char) { 'A' <= c <= 'Z' }

  /** The lower-case letter of an upper-case ASCII letter, at the same offset from 'a' as `c` from 'A'. */
  function LowerChar(c: char): (r: char)
    ensures !IsUpper(r)
    ensures IsUpper(c) ==> 'a' <= r <= 'z' && r as int - 'a' as int == c as int - 'A' as int
    ensures !IsUpper(c) ==> r == c
  {
    if IsUpper(c) then (c as int - 'A' as int + 'a' as int) as char else c
  }

  /** `String.prototype.toLowerCase` on the ASCII letters; every other character is kept. */
  function ToLower(s: string): (r: string)
    ensures |r| == |s|
    ensures forall i :: 0 <= i < |s| ==> !IsUpper(r[i])
    ensures forall i :: 0 <= i < |s| && IsUpper(s[i]) ==> r[i] as int == s[i] as int - 'A' as int + 'a' as int
    ensures forall i :: 0 <= i < |s| && !IsUpper(s[i]) ==> r[i] == s[i]
  {
    seq(|s|, i requires 0 <= i < |s| => LowerChar(s[i]))
  }

  /** Lower-casing twice is lower-casing once. */
  lemma ToLowerIdempotent(s: string)
    ensures ToLower(ToLower(s)) == ToLower(s)
  {
  }
}
