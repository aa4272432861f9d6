/**
 * PHP's conversions on the values of module Json: truthiness (`(bool)`, `empty`,
 * `array_filter` without a callback), the string cast, `is_numeric` and the
 * numeric cast. Numbers are exact decimals; IEEE rounding is not modelled.
 */
module Php {
  import opened Wrappers
  import opened Text
  import opened Json

  /** PHP `(bool)$v`: false for null, false, zero, "", "0" and the empty array. */
  predicate Truthy(v: Json)
  {
    match v
    case JNull => false
    case JBool(b) => b
    case JNum(d) => d.digits != 0
    case JStr(s) => s != "" && s != "0"
    case JList(items) => items != []
    case JObject(fields) => fields != []
  }

  /** The same number with trailing zero digits after the point removed. */
  function Normalize(d: Decimal): (r: Decimal)
    ensures r.scale <= d.scale
    ensures r.scale == 0 || r.digits % 10 != 0
    decreases d.scale
  {
    if d.scale > 0 && d.digits % 10 == 0 then Normalize(Decimal(d.digits / 10, d.scale - 1)) else d
  }

  // Quotient and Remainder name `/` and `%` on naturals so that DecimalToString and
  // NumericRoundTrip share one term the solver can match, instead of nonlinear arithmetic inline.
  /** The integer part `a / p` of a non-negative magnitude scaled by `p`. */
  function Quotient(a: nat, p: nat): nat
    requires p > 0
  {
    a / p
  }

  /** The fractional digits `a % p` of a non-negative magnitude scaled by `p`. */
  function Remainder(a: nat, p: nat): nat
    requires p > 0
  {
    a % p
  }

  lemma QuotientRemainder(a: nat, p: nat)
    requires p > 0
    ensures Quotient(a, p) * p + Remainder(a, p) == a && Remainder(a, p) < p
  {
  }

  function Magnitude(d: Decimal): nat
  {
    if d.digits < 0 then -d.digits else d.digits
  }

  function Sign(d: Decimal): string
  {
    if d.digits < 0 then "-" else ""
  }

  /** The digits before the point of a number with a fractional part. */
  function WholeDigits(d: Decimal): string
  {
    NatToString(Quotient(Magnitude(d), Pow10(d.scale)))
  }

  /** The `scale` digits after the point, with leading zeros. */
  function FractionDigits(d: Decimal): string
  {
    PadZeros(NatToString(Remainder(Magnitude(d), Pow10(d.scale))), d.scale)
  }

  /** How PHP prints a number: no exponent, no trailing zeros after the point. */
  function DecimalToString(d: Decimal): string
  {
    var n := Normalize(d);
    if n.scale == 0 then IntToString(n.digits)
    else Sign(n) + (WholeDigits(n) + "." + FractionDigits(n))
  }

  /** PHP `(string)$v`. An array converts to "Array" (with a warning the model does not carry). */
  function ToPhpString(v: Json): string
  {
    match v
    case JNull => ""
    case JBool(b) => if b then "1" else ""
    case JNum(d) => DecimalToString(d)
    case JStr(s) => s
    case _ => "Array"
  }

  /** The whitespace PHP 8 allows before and after a numeric string. */
  const NumericWhitespace: set<char> := {' ', '\t', '\n', '\r', '\U{000B}', '\U{000C}'}

  function Signed(negative: bool, n: nat): int
  {
    var m: int := n;
    if negative then -m else m
  }

  /** Digits with at most one decimal point and at least one digit. */
  function ParseUnsigned(u: string, negative: bool): Option<Decimal>
  {
    match IndexOf(u, '.')
    case None =>
      if u != [] && AllDigits(u) then Some(Decimal(Signed(negative, DigitsValue(u)), 0)) else None
    case Some(i) =>
      var whole, fraction := u[..i], u[i + 1..];
      if AllDigits(whole) && AllDigits(fraction) && |whole| + |fraction| > 0
      then Some(Decimal(Signed(negative, DigitsValue(whole + fraction)), |fraction|))
      else None
  }

  /**
   * A numeric string in PHP 8's sense, and its value: optional surrounding
   * whitespace, an optional sign, digits with an optional decimal point.
   */
  function ParseNumeric(s: string): Option<Decimal>
  {
    var t := TrimOf(s, NumericWhitespace);
    if t != [] && (t[0] == '+' || t[0] == '-') then ParseUnsigned(t[1..], t[0] == '-')
    else ParseUnsigned(t, false)
  }

  /** PHP `is_numeric`: ints, floats and numeric strings. */
  predicate IsNumeric(v: Json)
  {
    v.JNum? || (v.JStr? && ParseNumeric(v.s).Some?)
  }

  /** PHP `(float)$v` for a numeric `$v`. */
  function ToNumber(v: Json): Decimal
    requires IsNumeric(v)
  {
    if v.JNum? then v.n else ParseNumeric(v.s).value
  }

  // ---------------------------------------------------------------------------
  // Printing a number and reading it back gives the same number.
  // ---------------------------------------------------------------------------

  lemma {:induction false} DigitsAppend(x: string, y: string)
    requires AllDigits(x) && AllDigits(y)
    ensures AllDigits(x + y)
    ensures DigitsValue(x + y) == DigitsValue(x) * Pow10(|y|) + DigitsValue(y)
  {
    if y != [] {
      var y' := y[..|y| - 1];
      var last := DigitValue(y[|y| - 1]);
      assert (x + y)[..|x + y| - 1] == x + y';
      assert (x + y)[|x + y| - 1] == y[|y| - 1];
      DigitsAppend(x, y');
      var vx, vy', p := DigitsValue(x), DigitsValue(y'), Pow10(|y'|);
      calc {
        DigitsValue(x + y);
        DigitsValue(x + y') * 10 + last;
        (vx * p + vy') * 10 + last;
        { MulAssoc(vx, p, 10); }
        vx * (p * 10) + (vy' * 10 + last);
        vx * Pow10(|y|) + DigitsValue(y);
      }
    } else {
      assert x + y == x;
    }
  }

  lemma MulAssoc(a: int, b: int, c: int)
    ensures (a * b) * c == a * (b * c)
  {
  }

  lemma {:induction false} PadZerosDigits(s: string, width: nat)
    requires AllDigits(s)
    ensures AllDigits(PadZeros(s, width))
    ensures DigitsValue(PadZeros(s, width)) == DigitsValue(s)
    decreases width - |s|
  {
    if |s| < width {
      DigitsAppend("0", s);
      PadZerosDigits("0" + s, width);
    }
  }

  lemma {:induction false} NatToStringShort(n: nat, k: nat)
    requires 1 <= k && n < Pow10(k)
    ensures |NatToString(n)| <= k
  {
    if n >= 10 {
      NatToStringShort(n / 10, k - 1);
    }
  }

  lemma {:induction false} ParseNat(digits: string, negative: bool)
    requires digits != [] && AllDigits(digits)
    ensures ParseUnsigned(digits, negative) == Some(Decimal(Signed(negative, DigitsValue(digits)), 0))
  {
    assert forall i | 0 <= i < |digits| :: digits[i] != '.';
  }

  lemma {:induction false} ParsePointed(whole: string, fraction: string, negative: bool)
    requires whole != [] && AllDigits(whole) && AllDigits(fraction)
    ensures ParseUnsigned(whole + "." + fraction, negative)
         == Some(Decimal(Signed(negative, DigitsValue(whole + fraction)), |fraction|))
  {
    var u := whole + "." + fraction;
    assert u[..|whole|] == whole && u[|whole| + 1..] == fraction;
    assert '.' !in whole by {
      assert forall i | 0 <= i < |whole| :: whole[i] != '.';
    }
    assert u == whole + ("." + fraction);
    IndexOfAfter(whole, "." + fraction, '.');
  }

  /** A sign, when there is one, followed by an unsigned number, with no surrounding whitespace. */
  lemma ParseSigned(u: string, negative: bool)
    requires u != [] && u[0] != '+' && u[0] != '-'
    requires u[0] !in NumericWhitespace && u[|u| - 1] !in NumericWhitespace
    ensures ParseNumeric((if negative then "-" else "") + u) == ParseUnsigned(u, negative)
  {
    var s := (if negative then "-" else "") + u;
    TrimOfUntouched(s, NumericWhitespace);
    var t := TrimOf(s, NumericWhitespace);
    assert t == s;
    if negative {
      assert t[0] == '-' && t[1..] == u;
    } else {
      assert t == u;
    }
  }

  lemma FractionDigitsValue(n: Decimal)
    requires n.scale > 0
    ensures AllDigits(FractionDigits(n)) && |FractionDigits(n)| == n.scale
    ensures DigitsValue(WholeDigits(n) + FractionDigits(n)) == Magnitude(n)
  {
    var a, p := Magnitude(n), Pow10(n.scale);
    QuotientRemainder(a, p);
    NatToStringShort(Remainder(a, p), n.scale);
    PadZerosDigits(NatToString(Remainder(a, p)), n.scale);
    DigitsAppend(WholeDigits(n), FractionDigits(n));
  }

  lemma ParseSignedPointed(whole: string, fraction: string, n: Decimal)
    requires n.digits != 0 && whole != [] && AllDigits(whole) && AllDigits(fraction)
    requires |fraction| == n.scale > 0 && DigitsValue(whole + fraction) == Magnitude(n)
    ensures ParseNumeric(Sign(n) + (whole + "." + fraction)) == Some(n)
  {
    var u := whole + "." + fraction;
    var negative := n.digits < 0;
    assert u != [] && u[0] != '+' && u[0] != '-' && u[0] !in NumericWhitespace by {
      assert u[0] == whole[0] && IsDigit(whole[0]);
    }
    assert u[|u| - 1] !in NumericWhitespace by {
      assert u[|u| - 1] == fraction[|fraction| - 1] && IsDigit(fraction[|fraction| - 1]);
    }
    ParsePointed(whole, fraction, negative);
    ParseSigned(u, negative);
    assert Sign(n) == (if negative then "-" else "");
    assert Signed(negative, Magnitude(n)) == n.digits;
  }

  lemma ParseFraction(n: Decimal)
    requires n.scale > 0 && n.digits != 0
    ensures ParseNumeric(Sign(n) + (WholeDigits(n) + "." + FractionDigits(n))) == Some(n)
  {
    FractionDigitsValue(n);
    ParseSignedPointed(WholeDigits(n), FractionDigits(n), n);
  }

  /** `ParseNumeric` reads what `DecimalToString` prints as the same (normalized) number. */
  lemma NumericRoundTrip(d: Decimal)
    ensures ParseNumeric(DecimalToString(d)) == Some(Normalize(d))
  {
    var n := Normalize(d);
    if n.scale == 0 {
      var neg := n.digits < 0;
      var u := NatToString(if neg then -n.digits else n.digits);
      assert DecimalToString(d) == (if neg then "-" else "") + u;
      ParseSigned(u, neg);
      ParseNat(u, neg);
    } else {
      assert n.digits != 0 by {
        assert n.digits % 10 != 0;
      }
      ParseFraction(n);
    }
  }

  /** Every decimal integer string, signed or not, is numeric and reads as itself. */
  lemma IntegerStringIsNumeric(n: int)
    ensures ParseNumeric(IntToString(n)) == Some(Decimal(n, 0))
  {
    assert DecimalToString(Decimal(n, 0)) == IntToString(n);
    NumericRoundTrip(Decimal(n, 0));
  }
}
