/**
 * Tolerance equality, the single test that every nodata guard of the
 * library uses to recognise the caller's sentinel value.
 */
module Tolerance {

  /** Real absolute value, standing in for the floating-point `abs` overload. */
  function Abs(x: real): (r: real)
    ensures 0.0 <= r
    ensures r == x || r == -x
    ensures x <= r && -x <= r
  {
    if x < 0.0 then -x else x
  }

  /** `are_equal`: a and b are equal when they differ by strictly less than the tolerance. */
  predicate AreEqual(a: real, b: real, tolerance: real)
    ensures AreEqual(a, b, tolerance) ==> 0.0 < tolerance
  {
    Abs(a - b) < tolerance
  }

  /** The same test written without an absolute value: b lies in the open interval around a. */
  lemma AreEqualIsOpenInterval(a: real, b: real, tolerance: real)
    ensures AreEqual(a, b, tolerance) <==> a - tolerance < b < a + tolerance
  {
  }

  /** The boundary is excluded: a difference of exactly the tolerance is not equality. */
  lemma AreEqualExcludesBoundary(a: real, b: real, tolerance: real)
    requires Abs(a - b) == tolerance
    ensures !AreEqual(a, b, tolerance)
  {
  }

  /** The test does not depend on the order of its two operands. */
  lemma AreEqualSymmetric(a: real, b: real, tolerance: real)
    ensures AreEqual(a, b, tolerance) <==> AreEqual(b, a, tolerance)
  {
  }

  /** A value matches itself exactly when the tolerance is positive. */
  lemma AreEqualReflexive(a: real, tolerance: real)
    ensures AreEqual(a, a, tolerance) <==> 0.0 < tolerance
  {
  }

  /** The four tolerance scenarios of the test suite, evaluated over exact reals. */
  lemma AreEqualScenarios()
    ensures AreEqual(9999.0, 9999.001, 0.01)
    ensures !AreEqual(9999.0, 9999.001, 0.001)
    ensures AreEqual(-9.0, -9.001, 0.01)
    ensures !AreEqual(9.0, 9.001, 0.001)
  {
  }
}
