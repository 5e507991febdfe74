/** The part of JavaScript's number semantics the dashboard arithmetic relies on.
    Finite values are exact reals (rounding of IEEE-754 doubles is not modelled, nor is
    the sign of zero); division by zero and arithmetic on infinities follow the language. */
module JsNumber {

  datatype Number = Finite(value: real) | PosInf | NegInf | NaN

  /** `a / b` for two finite operands. A zero divisor yields an infinity with the sign of
      the dividend, or NaN for `0 / 0`. */
  function Div(a: real, b: real): (r: Number)
    ensures r.Finite? <==> b != 0.0
    ensures r.Finite? ==> r.value * b == a
    ensures r.NaN? <==> a == 0.0 && b == 0.0
    ensures r.PosInf? <==> b == 0.0 && a > 0.0
    ensures r.NegInf? <==> b == 0.0 && a < 0.0
  {
    if b != 0.0 then Finite(a / b)
    else if a > 0.0 then PosInf
    else if a < 0.0 then NegInf
    else NaN
  }

  /** `n * k` for a finite factor `k`; an infinity times zero is NaN. */
  function Mul(n: Number, k: real): (r: Number)
    ensures n.Finite? ==> r == Finite(n.value * k)
    ensures r.NaN? <==> n.NaN? || (!n.Finite? && k == 0.0)
    ensures k > 0.0 ==> (r.PosInf? <==> n.PosInf?) && (r.NegInf? <==> n.NegInf?)
  {
    match n
    case Finite(_) => Finite(n.value * k)
    case PosInf => if k > 0.0 then PosInf else if k < 0.0 then NegInf else NaN
    case NegInf => if k > 0.0 then NegInf else if k < 0.0 then PosInf else NaN
    case NaN => NaN
  }

  /** `n > 0` under JavaScript comparison: false for NaN. */
  predicate IsPositive(n: Number) {
    match n
    case Finite(v) => v > 0.0
    case PosInf => true
    case _ => false
  }

  /** `n < 0` under JavaScript comparison: false for NaN. */
  predicate IsNegative(n: Number) {
    match n
    case Finite(v) => v < 0.0
    case NegInf => true
    case _ => false
  }

  /** `n <= bound` for a finite bound: false for NaN. */
  predicate AtMost(n: Number, bound: real) {
    match n
    case Finite(v) => v <= bound
    case NegInf => true
    case _ => false
  }

  /** `Math.min(bound, n)` for a finite `bound`: NaN is contagious, and the result never
      exceeds the bound. */
  function Min(bound: real, n: Number): (r: Number)
    ensures r.NaN? <==> n.NaN?
    ensures !r.NaN? ==> AtMost(r, bound)
    ensures AtMost(n, bound) ==> r == n
    ensures !n.NaN? && !AtMost(n, bound) ==> r == Finite(bound)
  {
    match n
    case Finite(v) => if v <= bound then n else Finite(bound)
    case PosInf => Finite(bound)
    case NegInf => NegInf
    case NaN => NaN
  }

  /** A number is positive, negative, or neither (zero or NaN) — never two of these. */
  lemma SignsExclusive(n: Number)
    ensures !(IsPositive(n) && IsNegative(n))
    ensures !IsPositive(n) && !IsNegative(n) <==> n == Finite(0.0) || n.NaN?
  {
  }
}
