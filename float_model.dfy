/** How the engine's Float and CGFloat arithmetic is seen by its comparisons.
    Rounding is abstracted away: a finite result is an exact real. What is kept
    is IEEE 754's answer for a zero divisor (an infinity, or NaN for 0/0) and the
    rule that every ordered comparison involving NaN is false. Signed zeros are
    not distinguished: a zero divisor is taken as +0. */
module FloatModel {

  datatype FloatValue = Finite(value: real) | PosInfinity | NegInfinity | NaN

  function Abs(x: real): (r: real)
    ensures r >= 0.0 && (r == x || r == -x)
  {
    if x < 0.0 then -x else x
  }

  function Max(a: real, b: real): (m: real)
    ensures m >= a && m >= b && (m == a || m == b)
  {
    if a >= b then a else b
  }

  function Min(a: real, b: real): (m: real)
    ensures m <= a && m <= b && (m == a || m == b)
  {
    if a <= b then a else b
  }

  /** A quotient whose dividend is at least its positive divisor is at least 1. */
  lemma QuotientAtLeastOne(a: real, b: real)
    requires a >= b > 0.0
    ensures a / b >= 1.0
  {
    var q := a / b;
    assert q * b == a;
    assert (q - 1.0) * b == a - b;
  }

  /** Comparing a quotient by a positive divisor with c is comparing the
      dividend with c times the divisor. */
  lemma QuotientCompare(a: real, b: real, c: real)
    requires b > 0.0
    ensures a / b > c <==> a > c * b
    ensures a / b < c <==> a < c * b
  {
    var q := a / b;
    assert q * b == a;
    assert (q - c) * b == a - c * b;
  }

  /** a / b in floating point. */
  function Divide(a: real, b: real): (q: FloatValue)
    ensures q.Finite? <==> b != 0.0
    ensures q.Finite? ==> q.value * b == a
    ensures q.PosInfinity? <==> b == 0.0 && a > 0.0
    ensures q.NegInfinity? <==> b == 0.0 && a < 0.0
    ensures q.NaN? <==> b == 0.0 && a == 0.0
  {
    if b != 0.0 then Finite(a / b)
    else if a > 0.0 then PosInfinity
    else if a < 0.0 then NegInfinity
    else NaN
  }

  /** `q > c` for a finite constant c. */
  predicate Greater(q: FloatValue, c: real)
  {
    match q
    case Finite(v) => v > c
    case PosInfinity => true
    case NegInfinity => false
    case NaN => false
  }

  /** `q < c` for a finite constant c. */
  predicate Less(q: FloatValue, c: real)
  {
    match q
    case Finite(v) => v < c
    case PosInfinity => false
    case NegInfinity => true
    case NaN => false
  }

  /** `q * k` for a positive finite factor k: it keeps infinities and NaN,
      and moves every comparison threshold by the same factor. */
  function Scale(q: FloatValue, k: real): (r: FloatValue)
    requires k > 0.0
    ensures r.Finite? <==> q.Finite?
    ensures r.NaN? <==> q.NaN?
    ensures forall c :: Greater(r, c * k) <==> Greater(q, c)
    ensures forall c :: Less(r, c * k) <==> Less(q, c)
  {
    match q
    case Finite(v) => Finite(v * k)
    case _ => q
  }
}
