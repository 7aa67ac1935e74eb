/**
 * What the model assumes of the C math library. Its functions (`sqrt`,
 * `atan2`, `sin`, `cos`) are not modelled; members that call one take it as a
 * function-valued parameter, and lemmas state the facts they need with the
 * predicates here.
 */
module MathLibrary {

  /** `sqrt` returns the non-negative square root of x at x. */
  ghost predicate IsSqrtAt(sqrt: real -> real, x: real) {
    0.0 <= sqrt(x) && sqrt(x) * sqrt(x) == x
  }
}
