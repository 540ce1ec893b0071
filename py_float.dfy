/**
 * Python's `float(token)` restricted to decimal literals, as a partial
 * function into the reals: `[+|-] (digits [. [digits]] | . digits) [(e|E) [+|-] digits]`.
 * A token outside that grammar has no value (`None`), which is where
 * Python raises `ValueError`.
 */
module PyFloat {
  import opened Wrappers

  predicate IsDigit(c: char) {
    '0' <= c <= '9'
  }

  predicate AllDigits(s: string) {
    forall k :: 0 <= k < |s| ==> IsDigit(s[k])
  }

  /** The natural number a string of decimal digits denotes. */
  function DigitsValue(s: string): nat
    requires AllDigits(s)
  {
    if s == [] then 0
    else 10 * DigitsValue(s[..|s| - 1]) + (s[|s| - 1] as int - '0' as int)
  }

  function Pow10(e: nat): (p: nat)
    ensures p >= 1
  {
    if e == 0 then 1 else 10 * Pow10(e - 1)
  }

  /** `m * 10^e` for an exponent of either sign. */
  function ScaleByPow10(m: real, e: int): real {
    if e >= 0 then m * Pow10(e) as real else m / Pow10(-e) as real
  }

  predicate IsExponentMark(c: char) {
    c == 'e' || c == 'E'
  }

  /** The position of the first exponent mark in `s`, or `|s|`. */
  function ExponentAt(s: string): (n: nat)
    ensures n <= |s|
    ensures forall k :: 0 <= k < n ==> !IsExponentMark(s[k])
    ensures n < |s| ==> IsExponentMark(s[n])
  {
    if s == [] || IsExponentMark(s[0]) then 0 else 1 + ExponentAt(s[1..])
  }

  /** The position of the first decimal point in `s`, or `|s|`. */
  function PointAt(s: string): (n: nat)
    ensures n <= |s|
    ensures forall k :: 0 <= k < n ==> s[k] != '.'
    ensures n < |s| ==> s[n] == '.'
  {
    if s == [] || s[0] == '.' then 0 else 1 + PointAt(s[1..])
  }

  /** The characters a token that `float` accepts can contain. */
  predicate IsLiteralChar(c: char) {
    IsDigit(c) || c == '+' || c == '-' || c == '.' || c == 'e' || c == 'E'
  }

  predicate LiteralCharsOnly(s: string) {
    forall k :: 0 <= k < |s| ==> IsLiteralChar(s[k])
  }

  /** A token without its leading sign, and whether that sign was a minus. */
  function SplitSign(tok: string): (r: (bool, string))
    ensures tok == (if |tok| > 0 && (tok[0] == '+' || tok[0] == '-') then [tok[0]] else []) + r.1
    ensures r.0 <==> |tok| > 0 && tok[0] == '-'
  {
    if |tok| > 0 && (tok[0] == '+' || tok[0] == '-') then (tok[0] == '-', tok[1..]) else (false, tok)
  }

  /** An optional sign followed by at least one digit. */
  function ParseExponent(s: string): (r: Option<int>)
    ensures r.Some? ==> s != [] && LiteralCharsOnly(s)
  {
    var (neg, digits) := SplitSign(s);
    if digits == [] || !AllDigits(digits) then None
    else Some(if neg then -(DigitsValue(digits) as int) else DigitsValue(digits))
  }

  /** The value of the decimal `whole.frac`. */
  function FixedPoint(whole: string, frac: string): real
    requires AllDigits(whole) && AllDigits(frac)
  {
    DigitsValue(whole) as real + DigitsValue(frac) as real / Pow10(|frac|) as real
  }

  /** `digits [. [digits]]` or `. digits`: the part of a literal before its exponent. */
  function ParseMantissa(m: string): (r: Option<real>)
    ensures r.Some? ==> m != [] && LiteralCharsOnly(m)
  {
    var dot := PointAt(m);
    var whole := m[..dot];
    var frac := if dot < |m| then m[dot + 1..] else [];
    assert m == whole + (if dot < |m| then "." + frac else []);
    if !AllDigits(whole) || !AllDigits(frac) || (whole == [] && frac == []) then None
    else Some(FixedPoint(whole, frac))
  }

  /** An unsigned literal: a mantissa and an optional exponent introduced by `e` or `E`. */
  function ParseUnsigned(body: string): (r: Option<real>)
    ensures r.Some? ==> body != [] && LiteralCharsOnly(body)
  {
    var e := ExponentAt(body);
    assert body == body[..e] + body[e..];
    assert e < |body| ==> body[e..] == [body[e]] + body[e + 1..];
    var exponent := if e < |body| then ParseExponent(body[e + 1..]) else Some(0);
    match ParseMantissa(body[..e])
    case None => None
    case Some(m) =>
      if exponent.None? then None else Some(ScaleByPow10(m, exponent.value))
  }

  /** `float(tok)` for a decimal literal; `None` for anything else. */
  function ParseFloat(tok: string): (r: Option<real>)
    ensures r.Some? ==> tok != [] && LiteralCharsOnly(tok)
  {
    var sign := SplitSign(tok);
    match ParseUnsigned(sign.1)
    case None => None
    case Some(v) => Some(if sign.0 then -v else v)
  }

  /** The decimal rendering of a natural number, the partner of `DigitsValue`. */
  function NatToDigits(n: nat): (s: string)
    ensures s != [] && AllDigits(s)
  {
    if n < 10 then ['0' + n as char]
    else NatToDigits(n / 10) + ['0' + (n % 10) as char]
  }

  lemma {:induction false} DigitsRoundTrip(n: nat)
    ensures DigitsValue(NatToDigits(n)) == n
  {
    if n >= 10 {
      DigitsRoundTrip(n / 10);
      var s := NatToDigits(n);
      assert s[..|s| - 1] == NatToDigits(n / 10);
    }
  }

  lemma {:induction false} NoExponentMark(s: string)
    requires forall k :: 0 <= k < |s| ==> !IsExponentMark(s[k])
    ensures ExponentAt(s) == |s|
    decreases |s|
  {
    if s != [] {
      NoExponentMark(s[1..]);
    }
  }

  lemma {:induction false} PointAfter(whole: string, s: string)
    requires AllDigits(whole) && |whole| < |s| && s[..|whole|] == whole && s[|whole|] == '.'
    ensures PointAt(s) == |whole|
    decreases |whole|
  {
    if whole != [] {
      assert s[0] == whole[0];
      assert s[1..][..|whole| - 1] == whole[1..];
      PointAfter(whole[1..], s[1..]);
    }
  }

  lemma {:induction false} NoPoint(ds: string)
    requires AllDigits(ds)
    ensures PointAt(ds) == |ds|
    decreases |ds|
  {
    if ds != [] {
      NoPoint(ds[1..]);
    }
  }

  /** Without an exponent mark, an unsigned literal is its mantissa. */
  lemma UnsignedWithoutExponent(body: string)
    requires forall k :: 0 <= k < |body| ==> !IsExponentMark(body[k])
    ensures ParseUnsigned(body) == ParseMantissa(body)
  {
    NoExponentMark(body);
    assert body[..|body|] == body;
  }

  lemma MantissaOfDigits(ds: string)
    requires ds != [] && AllDigits(ds)
    ensures ParseMantissa(ds) == Some(DigitsValue(ds) as real)
  {
    NoPoint(ds);
    assert ds[..|ds|] == ds;
    assert FixedPoint(ds, []) == DigitsValue(ds) as real;
  }

  /** A plain run of digits parses to the number it denotes. */
  lemma ParseDigits(ds: string)
    requires ds != [] && AllDigits(ds)
    ensures ParseFloat(ds) == Some(DigitsValue(ds) as real)
  {
    MantissaOfDigits(ds);
    UnsignedWithoutExponent(ds);
    assert SplitSign(ds) == (false, ds);
  }

  /** `float(str(n)) == n` for every natural number. */
  lemma ParseNatRoundTrip(n: nat)
    ensures ParseFloat(NatToDigits(n)) == Some(n as real)
  {
    DigitsRoundTrip(n);
    ParseDigits(NatToDigits(n));
  }

  lemma MantissaFixedPoint(whole: string, frac: string)
    requires AllDigits(whole) && AllDigits(frac) && (whole != [] || frac != [])
    ensures ParseMantissa(whole + "." + frac) == Some(FixedPoint(whole, frac))
  {
    var m := whole + "." + frac;
    PointAfter(whole, m);
    assert PointAt(m) == |whole|;
    assert m[..|whole|] == whole;
    assert m[|whole| + 1..] == frac;
  }

  /** A fixed-point literal `whole.frac` parses to the decimal it spells. */
  lemma ParseFixedPoint(whole: string, frac: string)
    requires whole != [] && AllDigits(whole) && AllDigits(frac)
    ensures ParseFloat(whole + "." + frac) == Some(FixedPoint(whole, frac))
  {
    var tok := whole + "." + frac;
    assert SplitSign(tok) == (false, tok) by {
      assert tok[0] == whole[0];
    }
    assert forall k :: 0 <= k < |tok| ==> tok[k] == '.' || IsDigit(tok[k]);
    UnsignedWithoutExponent(tok);
    MantissaFixedPoint(whole, frac);
  }

  lemma {:induction false} ExponentAfter(ds: string, s: string)
    requires AllDigits(ds) && |ds| < |s| && s[..|ds|] == ds && IsExponentMark(s[|ds|])
    ensures ExponentAt(s) == |ds|
    decreases |ds|
  {
    if ds != [] {
      assert s[0] == ds[0];
      assert s[1..][..|ds| - 1] == ds[1..];
      ExponentAfter(ds[1..], s[1..]);
    }
  }

  lemma ExponentDigits(ex: string)
    requires ex != [] && AllDigits(ex)
    ensures ParseExponent(ex) == Some(DigitsValue(ex) as int)
  {
    assert SplitSign(ex) == (false, ex);
  }

  lemma ExponentSplit(ds: string, ex: string)
    requires AllDigits(ds)
    ensures var body := ds + "e" + ex; var e := ExponentAt(body);
      e == |ds| && e < |body| && body[..e] == ds && body[e + 1..] == ex
  {
    var body := ds + "e" + ex;
    assert body[..|ds|] == ds;
    ExponentAfter(ds, body);
    assert body[|ds| + 1..] == ex;
  }

  lemma UnsignedScientific(ds: string, ex: string, m: real, p: int)
    requires ds != [] && AllDigits(ds) && ex != [] && AllDigits(ex)
    requires m == DigitsValue(ds) as real && p == DigitsValue(ex)
    ensures ParseUnsigned(ds + "e" + ex) == Some(ScaleByPow10(m, p))
  {
    ExponentSplit(ds, ex);
    ExponentDigits(ex);
    MantissaOfDigits(ds);
  }

  /** Without a sign, `float` reads the token as an unsigned literal. */
  lemma UnsignedFloat(tok: string)
    requires tok != [] && tok[0] != '+' && tok[0] != '-'
    ensures ParseFloat(tok) == ParseUnsigned(tok)
  {
    assert SplitSign(tok) == (false, tok);
  }

  /**
   * `float("<ds>e<ex>")` is the integer `ds` scaled by ten to the power
   * that the exponent digits `ex` spell.
   */
  lemma ParseScientific(ds: string, ex: string)
    requires ds != [] && AllDigits(ds) && ex != [] && AllDigits(ex)
    ensures ParseFloat(ds + "e" + ex) == Some(ScaleByPow10(DigitsValue(ds) as real, DigitsValue(ex)))
  {
    var tok := ds + "e" + ex;
    assert tok[0] == ds[0];
    UnsignedFloat(tok);
    UnsignedScientific(ds, ex, DigitsValue(ds) as real, DigitsValue(ex));
  }

  /** A leading minus sign negates the value of an unsigned literal. */
  lemma ParseNegated(tok: string)
    requires tok != [] && tok[0] != '+' && tok[0] != '-'
    ensures ParseFloat("-" + tok) == (match ParseFloat(tok) case None => None case Some(v) => Some(-v))
  {
    MinusFloat(tok);
    UnsignedFloat(tok);
  }

  lemma MinusFloat(tok: string)
    ensures ParseFloat("-" + tok) == (match ParseUnsigned(tok) case None => None case Some(v) => Some(-v))
  {
    assert SplitSign("-" + tok) == (true, tok) by {
      assert ("-" + tok)[1..] == tok;
    }
  }

}
