/** JavaScript numbers on the exact reals: the finite values, the two infinities
    and NaN, with the operators the generators apply to them. Binary
    floating-point rounding is not modelled: a finite number is an exact real. */
module JsNumbers {

  datatype JsNumber = Fin(r: real) | PosInf | NegInf | NaN

  /** Number.EPSILON, 2^-52. */
  const Epsilon: real := 1.0 / 4503599627370496.0

  predicate IsInteger(x: real) {
    x.Floor as real == x
  }

  function Neg(a: JsNumber): JsNumber {
    match a
    case Fin(x) => Fin(-x)
    case PosInf => NegInf
    case NegInf => PosInf
    case NaN => NaN
  }

  /** `a + b`: an infinity absorbs a finite operand, opposite infinities give NaN. */
  function Add(a: JsNumber, b: JsNumber): (r: JsNumber)
    ensures a.Fin? && b.Fin? ==> r == Fin(a.r + b.r)
    ensures (a.NaN? || b.NaN?) ==> r.NaN?
  {
    match (a, b)
    case (NaN, _) => NaN
    case (_, NaN) => NaN
    case (Fin(x), Fin(y)) => Fin(x + y)
    case (PosInf, NegInf) => NaN
    case (NegInf, PosInf) => NaN
    case (PosInf, _) => PosInf
    case (NegInf, _) => NegInf
    case (_, PosInf) => PosInf
    case (_, NegInf) => NegInf
  }

  function Sub(a: JsNumber, b: JsNumber): JsNumber {
    Add(a, Neg(b))
  }

  /** `a / 2`. */
  function Half(a: JsNumber): JsNumber {
    match a
    case Fin(x) => Fin(x / 2.0)
    case _ => a
  }

  /** `Math.floor(a)`. */
  function Floor(a: JsNumber): JsNumber {
    match a
    case Fin(x) => Fin(x.Floor as real)
    case _ => a
  }

  /** `Math.round(a)`: the nearest integer, ties towards +Infinity. */
  function Round(a: JsNumber): JsNumber {
    match a
    case Fin(x) => Fin((x + 0.5).Floor as real)
    case _ => a
  }

  /** `a === b`: NaN equals nothing, not even itself. */
  predicate StrictEquals(a: JsNumber, b: JsNumber) {
    !a.NaN? && !b.NaN? && a == b
  }

  /** `Math.ceil(x)` on a finite value. */
  function Ceil(x: real): int {
    -((-x).Floor)
  }

  /** `a % m === 0` for finite `a` and `m`: the remainder is NaN when `m` is 0
      and zero exactly when `a / m` is a whole number. */
  predicate RemIsZero(a: real, m: real) {
    m != 0.0 && IsInteger(a / m)
  }
}
