/**
 * Numbers as the frontend's JavaScript sees them, and the rounding helpers
 * that the backend and the frontend apply before display.
 *
 * A JavaScript number is an exact real here, or NaN, or an infinity.
 * Binary floating-point rounding and the sign of zero are not modelled.
 */
module Numeric {

  datatype Num = Finite(v: real) | NaN | Infinity(negative: bool)

  /** JavaScript truthiness of a number: NaN and 0 are falsy. */
  predicate Truthy(n: Num)
  {
    !(n.NaN? || (n.Finite? && n.v == 0.0))
  }

  /** `x || 0` applied to the result of parseFloat (finite or NaN). */
  function OrZero(n: Num): (r: real)
    requires n.Finite? || n.NaN?
    ensures Truthy(n) ==> r == n.v
    ensures !Truthy(n) ==> r == 0.0
  {
    if n.Finite? then n.v else 0.0
  }

  /** JavaScript `a * b`. */
  function Mul(a: Num, b: Num): Num
  {
    match (a, b)
    case (NaN, _) => NaN
    case (_, NaN) => NaN
    case (Finite(x), Finite(y)) => Finite(x * y)
    case (Infinity(s), Finite(y)) => if y == 0.0 then NaN else Infinity(s != (y < 0.0))
    case (Finite(x), Infinity(s)) => if x == 0.0 then NaN else Infinity(s != (x < 0.0))
    case (Infinity(s), Infinity(t)) => Infinity(s != t)
  }

  /** JavaScript `a / b` (a zero divisor counts as +0). */
  function Div(a: Num, b: Num): Num
  {
    match (a, b)
    case (NaN, _) => NaN
    case (_, NaN) => NaN
    case (Finite(x), Finite(y)) =>
      if y != 0.0 then Finite(x / y)
      else if x == 0.0 then NaN
      else Infinity(x < 0.0)
    case (Finite(_), Infinity(_)) => Finite(0.0)
    case (Infinity(s), Finite(y)) => Infinity(s != (y < 0.0))
    case (Infinity(_), Infinity(_)) => NaN
  }

  lemma DivByZeroIsNotFinite(x: real)
    ensures !Div(Finite(x), Finite(0.0)).Finite?
    ensures x == 0.0 <==> Div(Finite(x), Finite(0.0)).NaN?
  {
  }

  predicate IsDigit(c: char)
  {
    '0' <= c <= '9'
  }

  function DigitValue(c: char): (d: nat)
    requires IsDigit(c)
    ensures d <= 9
  {
    (c as int) - ('0' as int)
  }

  predicate AllDigits(s: string)
  {
    forall i :: 0 <= i < |s| ==> IsDigit(s[i])
  }

  /** Number of leading decimal digits of `s`. */
  function LeadingDigits(s: string): (k: nat)
    ensures k <= |s|
    ensures AllDigits(s[..k])
    ensures k < |s| ==> !IsDigit(s[k])
  {
    if |s| == 0 || !IsDigit(s[0]) then 0
    else
      var k := 1 + LeadingDigits(s[1..]);
      assert s[..k] == [s[0]] + s[1..][..k - 1];
      k
  }

  /** The value of a string of decimal digits. */
  function DigitsValue(d: string): nat
    requires AllDigits(d)
  {
    if |d| == 0 then 0 else DigitsValue(d[..|d| - 1]) * 10 + DigitValue(d[|d| - 1])
  }

  /** The value of the digits after a decimal point. */
  function FractionValue(f: string): (r: real)
    requires AllDigits(f)
    ensures 0.0 <= r <= 1.0
  {
    if |f| == 0 then 0.0 else (DigitValue(f[0]) as real + FractionValue(f[1..])) / 10.0
  }

  function LeadingWhitespace(s: string): (k: nat)
    ensures k <= |s|
  {
    if |s| == 0 || !(s[0] == ' ' || 9 <= s[0] as int <= 13) then 0
    else 1 + LeadingWhitespace(s[1..])
  }

  /**
   * JavaScript parseFloat, simplified: leading white space, an optional sign,
   * digits, and an optional '.' followed by digits; whatever follows the
   * longest such prefix is ignored, and a prefix without any digit gives NaN.
   * Exponents and the literal "Infinity" are not recognised.
   */
  function ParseFloat(s: string): (r: Num)
    ensures r.Finite? || r.NaN?
  {
    var t := s[LeadingWhitespace(s)..];
    if |t| > 0 && t[0] == '-' then
      var m := ParseUnsigned(t[1..]);
      if m.Finite? then Finite(-m.v) else NaN
    else if |t| > 0 && t[0] == '+' then ParseUnsigned(t[1..])
    else ParseUnsigned(t)
  }

  /** Digits, then optionally '.' and digits; NaN when there is no digit. */
  function ParseUnsigned(u: string): (r: Num)
    ensures r.NaN? || (r.Finite? && r.v >= 0.0)
  {
    var i := LeadingDigits(u);
    var rest := u[i..];
    var frac := if |rest| > 0 && rest[0] == '.' then rest[1..][..LeadingDigits(rest[1..])] else "";
    if i + |frac| == 0 then NaN
    else Finite(DigitsValue(u[..i]) as real + FractionValue(frac))
  }

  /** A string without a minus sign never parses to a negative number. */
  lemma ParseFloatNonNegative(s: string)
    requires '-' !in s
    ensures ParseFloat(s).Finite? ==> ParseFloat(s).v >= 0.0
  {
    var t := s[LeadingWhitespace(s)..];
    assert |t| > 0 ==> t[0] in s;
  }

  /** A non-empty string of digits parses to its decimal value. */
  lemma ParseFloatDigits(d: string)
    requires |d| > 0 && AllDigits(d)
    ensures ParseFloat(d) == Finite(DigitsValue(d) as real)
  {
    assert IsDigit(d[0]);
    assert LeadingWhitespace(d) == 0;
    assert d[0..] == d;
    ParseUnsignedDigits(d);
  }

  lemma ParseUnsignedDigits(d: string)
    requires |d| > 0 && AllDigits(d)
    ensures ParseUnsigned(d) == Finite(DigitsValue(d) as real)
  {
    LeadingDigitsAll(d);
    var i := LeadingDigits(d);
    var rest := d[i..];
    assert rest == "";
    assert d[..i] == d;
    assert FractionValue("") == 0.0;
  }

  lemma {:induction false} LeadingDigitsAll(d: string)
    requires AllDigits(d)
    ensures LeadingDigits(d) == |d|
  {
    if |d| > 0 {
      LeadingDigitsAll(d[1..]);
    }
  }

  /** The empty string parses to NaN. */
  lemma ParseFloatEmpty()
    ensures ParseFloat("").NaN?
  {
  }

  /** An exact multiple of 0.01. */
  predicate IsCents(x: real)
  {
    (x * 100.0).Floor as real == x * 100.0
  }

  /**
   * Python's round(x, 2): the nearest multiple of 0.01, ties to the even
   * multiple, computed on the exact value.
   */
  function PyRound2(x: real): (r: real)
    ensures IsCents(r)
    ensures -0.005 <= r - x <= 0.005
    ensures (r - x == 0.005 || x - r == 0.005) ==> (r * 100.0).Floor % 2 == 0
  {
    var y := x * 100.0;
    var f := y.Floor;
    var d := y - f as real;
    var n := if d < 0.5 then f else if d > 0.5 then f + 1 else if f % 2 == 0 then f else f + 1;
    assert (n as real / 100.0) * 100.0 == n as real;
    n as real / 100.0
  }

  /** Half-up rounding of a non-negative value to the nearest multiple of 0.01. */
  function HalfUpCents(m: real): (r: real)
    requires m >= 0.0
    ensures IsCents(r) && IsCents(-r)
    ensures -0.005 < r - m <= 0.005
    ensures r >= 0.0
  {
    var y := m * 100.0;
    var n := (y + 0.5).Floor;
    WholeCents(n);
    WholeCents(-n);
    assert y - 0.5 < n as real <= y + 0.5;
    n as real / 100.0
  }

  /** A whole number of hundredths, and its negation, is an exact multiple of 0.01. */
  lemma WholeCents(n: int)
    ensures IsCents(n as real / 100.0)
    ensures (-n) as real / 100.0 == -(n as real / 100.0)
  {
    assert (n as real / 100.0) * 100.0 == n as real;
  }

  /**
   * JavaScript x.toFixed(2) read back as a number: the nearest multiple of
   * 0.01, ties away from zero, computed on the exact value.
   */
  function JsFixed2(x: real): (r: real)
    ensures IsCents(r)
    ensures -0.005 <= r - x <= 0.005
    ensures (x >= 0.0) == (r >= 0.0) || r == 0.0
    ensures x >= 0.0 ==> r - x > -0.005
    ensures x < 0.0 ==> r - x < 0.005
  {
    if x < 0.0 then -HalfUpCents(-x) else HalfUpCents(x)
  }

  /** Both roundings leave an exact multiple of 0.01 unchanged. */
  lemma RoundingKeepsCents(x: real)
    requires IsCents(x)
    ensures PyRound2(x) == x
    ensures JsFixed2(x) == x
  {
    var n := (x * 100.0).Floor;
    assert x == n as real / 100.0;
    if x < 0.0 {
      assert ((-x) * 100.0 + 0.5).Floor == -n;
    } else {
      assert (x * 100.0 + 0.5).Floor == n;
    }
  }
}
