/** Sign facts about products of reals that the solver does not find unaided. */
module Arith {

  /** The product of two positive numbers is positive. */
  lemma ProductPositive(a: real, b: real)
    requires 0.0 < a && 0.0 < b
    ensures a * b > 0.0
  {
  }

  /** A non-positive number times a positive one is non-positive. */
  lemma NonPositiveProduct(a: real, m: real)
    requires a <= 0.0 < m
    ensures a * m <= 0.0
  {
  }
}
