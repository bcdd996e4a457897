/** Just enough of a C++ `double` to follow what the deck does with the
    result of a division: a finite value (rounding is not modelled), an
    infinity, or NaN. Zero is unsigned here. */
module Doubles {

  datatype Double = Finite(value: real) | Infinity(negative: bool) | NaN

  /** IEEE 754 division of two finite operands: x / 0 is an infinity
      carrying the sign of x, and 0 / 0 is NaN. */
  function Quotient(a: real, b: real): (q: Double)
    ensures b != 0.0 ==> q == Finite(a / b)
    ensures b == 0.0 ==> (q.NaN? <==> a == 0.0)
    ensures b == 0.0 && a != 0.0 ==> q == Infinity(a < 0.0)
  {
    if b != 0.0 then Finite(a / b)
    else if a == 0.0 then NaN
    else Infinity(a < 0.0)
  }

  /** The C++ comparison `d > 0`; false for NaN. */
  predicate IsGreaterThanZero(d: Double) {
    match d
    case Finite(v) => v > 0.0
    case Infinity(negative) => !negative
    case NaN => false
  }

  /** The C++ comparison `d >= 0`; false for NaN. */
  predicate IsNonNegative(d: Double) {
    match d
    case Finite(v) => v >= 0.0
    case Infinity(negative) => !negative
    case NaN => false
  }

  /** The C++ comparison `a != b`; true whenever either side is NaN. */
  predicate NotEqual(a: Double, b: Double) {
    a.NaN? || b.NaN? || a != b
  }
}
