/** IEEE 754 binary32 values with their special values kept and their rounding idealised:
    a finite float is the real number it denotes and finite arithmetic is exact. */
module Floats {

  datatype Float = Fin(v: real) | NaN | PosInf | NegInf {
    predicate IsFinite() {
      Fin?
    }
  }

  const ZERO := Fin(0.0)

  function Negate(a: Float): Float {
    match a
    case Fin(x) => Fin(-x)
    case NaN => NaN
    case PosInf => NegInf
    case NegInf => PosInf
  }

  function Sub(a: Float, b: Float): Float {
    match (a, b)
    case (NaN, _) => NaN
    case (_, NaN) => NaN
    case (Fin(x), Fin(y)) => Fin(x - y)
    case (Fin(_), _) => Negate(b)
    case (_, Fin(_)) => a
    case (_, _) => if a == b then NaN else a
  }

  /** `a < b` of the language: false whenever an operand is NaN. */
  predicate Less(a: Float, b: Float) {
    match (a, b)
    case (Fin(x), Fin(y)) => x < y
    case (Fin(_), PosInf) => true
    case (NegInf, Fin(_)) => true
    case (NegInf, PosInf) => true
    case _ => false
  }

  predicate AtMost(a: Float, b: Float) {
    Less(a, b) || (a == b && a != NaN)
  }

  /** `std::isfinite(a) ? a : 0`. */
  function OrZero(a: Float): real {
    if a.Fin? then a.v else 0.0
  }

  function Abs(x: real): real {
    if x < 0.0 then -x else x
  }

  function Max(x: real, y: real): real {
    if x < y then y else x
  }

  function Min(x: real, y: real): real {
    if x < y then x else y
  }

  /** Two-sided clamp in the order the sources write it: the upper test first. */
  function ClampSym(x: real, limit: real): real {
    var top := if x > limit then limit else x;
    if top < -limit then -limit else top
  }

  /** The float nearest to 3.14159265359; twice it is the float nearest to 6.28318530718. */
  const PI: real := 13176795.0 / 4194304.0
  const TWO_PI: real := 2.0 * PI

  // Nonlinear facts the proofs lean on, one product at a time.

  lemma MulNonneg(a: real, b: real)
    requires 0.0 <= a && 0.0 <= b
    ensures 0.0 <= a * b
  {
  }

  lemma MulPos(a: real, b: real)
    requires 0.0 < a && 0.0 < b
    ensures 0.0 < a * b
  {
  }

  lemma Distribute(a: real, x: real, y: real)
    ensures a * (x + y) == a * x + a * y
    ensures a * (x - y) == a * x - a * y
  {
  }

  lemma MulMonotone(a: real, x: real, y: real)
    requires 0.0 <= a && x <= y
    ensures a * x <= a * y
  {
    MulNonneg(a, y - x);
    Distribute(a, y, x);
  }

  lemma NegTimes(a: real, b: real)
    ensures -a * b == -(a * b)
  {
  }

  lemma NegQuotient(a: real, b: real)
    requires b != 0.0
    ensures -a / b == -(a / b)
  {
  }

  lemma PiIsNear()
    ensures Abs(PI - 3.14159265359) < 0.0000001 && TWO_PI == PI + PI
  {
  }
}
