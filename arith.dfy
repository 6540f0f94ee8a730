/** Facts about the ratios the scores and rates are made of. */
module Arith {

  /** `a / b` for a count `a` out of a positive total `b`: it lies in [0, 1] and times `b` gives `a` back. */
  lemma Fraction(a: real, b: real)
    requires 0.0 <= a <= b && 0.0 < b
    ensures 0.0 <= a / b <= 1.0
    ensures (a / b) * b == a
    ensures a / b == 1.0 <==> a == b
    ensures a / b == 0.0 <==> a == 0.0
  {
  }
}
