/** Material type codes: 0 is empty, [64, 128) is liquid and every other
    code is solid. */
module Materials {

  /** A code is liquid exactly when it lies in the band [64, 128). */
  predicate IsLiquid(t: int) {
    64 <= t < 128
  }

  /** Everything below 64 or from 128 upward counts as solid; the test does
      not exclude the empty code 0. */
  predicate IsSolid(t: int)
    ensures IsSolid(t) == !IsLiquid(t)
  {
    t < 64 || t >= 128
  }
}
