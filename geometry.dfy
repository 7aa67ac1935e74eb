/**
 * Planar vector geometry: magnitude and direction, in-place translation and
 * rotation of 2-element point buffers, the 4-element row-major rotation
 * matrix, unit-vector normalisation, dot and cross products, and the
 * components of a vector parallel and normal to a reference line.
 *
 * `sqrt`, `atan2`, `sin` and `cos` are parameters (see MathLibrary).
 */
module Geometry {
  import opened Tolerance
  import opened MathLibrary

  /** A point or a vector, the value held by a 2-element buffer. */
  datatype Vec2 = Vec2(x: real, y: real)

  /** A 2 by 2 matrix, the value held by a 4-element row-major buffer. */
  datatype Mat2 = Mat2(m0: real, m1: real, m2: real, m3: real)

  /** Below this magnitude a vector is normalised to the zero vector (1e-7 in the source). */
  const MinUnitMagnitude: real := 1.0e-7

  /** The point held by the first two elements of a buffer. */
  function Point(a: array<real>): Vec2
    reads a
    requires 2 <= a.Length
  {
    Vec2(a[0], a[1])
  }

  /** The matrix held by the first four elements of a buffer. */
  function Matrix(a: array<real>): Mat2
    reads a
    requires 4 <= a.Length
  {
    Mat2(a[0], a[1], a[2], a[3])
  }

  /** The guard shared by every point- or vector-guarded safe variant. */
  predicate PointIsNodata(p: Vec2, nodata: real, tolerance: real) {
    AreEqual(p.x, nodata, tolerance) || AreEqual(p.y, nodata, tolerance)
  }

  /** x*x + y*y, the argument `calculate_magnitude` hands to `sqrt`. */
  function SumOfSquares(x: real, y: real): real {
    x * x + y * y
  }

  function SquaredLength(v: Vec2): real {
    SumOfSquares(v.x, v.y)
  }

  function Negated(v: Vec2): Vec2 {
    Vec2(-v.x, -v.y)
  }

  // ---------------------------------------------------------------------
  // Magnitude and direction

  /** `calculate_magnitude`: the magnitude is a non-negative root of the squared length. */
  function CalculateMagnitude(x: real, y: real, sqrt: real -> real): (r: real)
    ensures IsSqrtAt(sqrt, SumOfSquares(x, y)) ==> 0.0 <= r && r * r == SumOfSquares(x, y)
  {
    sqrt(SumOfSquares(x, y))
  }

  /** `calculate_magnitude_safe`: nodata when either coordinate matches it. */
  function CalculateMagnitudeSafe(x: real, y: real, nodata: real, tolerance: real, sqrt: real -> real): (r: real)
    ensures PointIsNodata(Vec2(x, y), nodata, tolerance) ==> r == nodata
    ensures !PointIsNodata(Vec2(x, y), nodata, tolerance) ==> r == CalculateMagnitude(x, y, sqrt)
  {
    if AreEqual(x, nodata, tolerance) || AreEqual(y, nodata, tolerance) then nodata
    else CalculateMagnitude(x, y, sqrt)
  }

  /** `calculate_direction`: the angle of (x, y), obtained from `atan2(y, x)`. */
  function CalculateDirection(x: real, y: real, atan2: (real, real) -> real): real {
    atan2(y, x)
  }

  /** `calculate_direction_safe`: nodata when either coordinate matches it. */
  function CalculateDirectionSafe(x: real, y: real, nodata: real, tolerance: real,
                                  atan2: (real, real) -> real): (r: real)
    ensures PointIsNodata(Vec2(x, y), nodata, tolerance) ==> r == nodata
    ensures !PointIsNodata(Vec2(x, y), nodata, tolerance) ==> r == CalculateDirection(x, y, atan2)
  {
    if AreEqual(x, nodata, tolerance) || AreEqual(y, nodata, tolerance) then nodata
    else CalculateDirection(x, y, atan2)
  }

  /** The 3-4-5 triangle: the magnitude of (3, 4) is 5. */
  lemma MagnitudeOfThreeFour(sqrt: real -> real)
    requires IsSqrtAt(sqrt, 25.0)
    ensures CalculateMagnitude(3.0, 4.0, sqrt) == 5.0
  {
    assert SumOfSquares(3.0, 4.0) == 25.0;
    var r := CalculateMagnitude(3.0, 4.0, sqrt);
    assert (r - 5.0) * (r + 5.0) == r * r - 25.0 == 0.0;
    ZeroFactor(r - 5.0, r + 5.0);
  }

  /** A product is zero only when one of its factors is. */
  lemma ZeroFactor(a: real, b: real)
    requires a * b == 0.0 && b != 0.0
    ensures a == 0.0
  {
  }

  /** The guard scenario: with sentinel 999, (999, 1) yields 999 whatever `sqrt` is. */
  lemma MagnitudeSafeNodataScenario(sqrt: real -> real)
    ensures CalculateMagnitudeSafe(999.0, 1.0, 999.0, 0.01, sqrt) == 999.0
  {
  }

  // ---------------------------------------------------------------------
  // Translation

  function Translated(p: Vec2, t: Vec2): Vec2 {
    Vec2(p.x + t.x, p.y + t.y)
  }

  /** `translate_point`: adds the translation to the point in place. */
  method TranslatePoint(point: array<real>, translation: array<real>)
    requires 2 <= point.Length && 2 <= translation.Length
    modifies point
    ensures Point(point) == Translated(old(Point(point)), old(Point(translation)))
    ensures point[2..] == old(point[2..])
    ensures translation != point ==> translation[..] == old(translation[..])
  {
    point[0] := point[0] + translation[0];
    point[1] := point[1] + translation[1];
  }

  /** `translate_point_safe`: a point with a nodata coordinate is left untouched. */
  method TranslatePointSafe(point: array<real>, translation: array<real>, nodata: real, tolerance: real)
    requires 2 <= point.Length && 2 <= translation.Length
    modifies point
    ensures PointIsNodata(old(Point(point)), nodata, tolerance) ==> point[..] == old(point[..])
    ensures !PointIsNodata(old(Point(point)), nodata, tolerance) ==>
              Point(point) == Translated(old(Point(point)), old(Point(translation))) &&
              point[2..] == old(point[2..])
    ensures translation != point ==> translation[..] == old(translation[..])
  {
    if AreEqual(point[0], nodata, tolerance) || AreEqual(point[1], nodata, tolerance) {
      return;
    }
    TranslatePoint(point, translation);
  }

  /** Translating by t and then by -t gives back the original point. */
  lemma TranslateInverse(p: Vec2, t: Vec2)
    ensures Translated(Translated(p, t), Negated(t)) == p
  {
  }

  // ---------------------------------------------------------------------
  // Rotation

  /** The rotation matrix for an angle: [cos, -sin, sin, cos] in row-major order. */
  function RotationMatrix(angleRad: real, sin: real -> real, cos: real -> real): Mat2 {
    Mat2(cos(angleRad), -sin(angleRad), sin(angleRad), cos(angleRad))
  }

  /** `set_rotation_matrix`: fills the first four elements of the buffer with the rotation matrix. */
  method SetRotationMatrix(rotationMatrix: array<real>, angleRad: real, sin: real -> real, cos: real -> real)
    requires 4 <= rotationMatrix.Length
    modifies rotationMatrix
    ensures Matrix(rotationMatrix) == RotationMatrix(angleRad, sin, cos)
    ensures rotationMatrix[4..] == old(rotationMatrix[4..])
  {
    rotationMatrix[0] := cos(angleRad);
    rotationMatrix[1] := -sin(angleRad);
    rotationMatrix[2] := sin(angleRad);
    rotationMatrix[3] := cos(angleRad);
  }

  /** The product M p of a matrix and a column vector. */
  function Rotated(m: Mat2, p: Vec2): Vec2 {
    Vec2(m.m0 * p.x + m.m1 * p.y, m.m2 * p.x + m.m3 * p.y)
  }

  /**
   * `rotate_point`: both new coordinates come from the saved old ones, so the
   * result is the matrix product of the old point even when the matrix
   * buffer is the point buffer itself.
   */
  method RotatePoint(point: array<real>, rotationMatrix: array<real>)
    requires 2 <= point.Length && 4 <= rotationMatrix.Length
    modifies point
    ensures Point(point) == Rotated(old(Matrix(rotationMatrix)), old(Point(point)))
    ensures point[2..] == old(point[2..])
    ensures rotationMatrix != point ==> rotationMatrix[..] == old(rotationMatrix[..])
  {
    var p0 := point[0];
    var p1 := point[1];
    point[0] := rotationMatrix[0] * p0 + rotationMatrix[1] * p1;
    point[1] := rotationMatrix[2] * p0 + rotationMatrix[3] * p1;
  }

  /** `rotate_point_safe`: a point with a nodata coordinate is left untouched. */
  method RotatePointSafe(point: array<real>, rotationMatrix: array<real>, nodata: real, tolerance: real)
    requires 2 <= point.Length && 4 <= rotationMatrix.Length
    modifies point
    ensures PointIsNodata(old(Point(point)), nodata, tolerance) ==> point[..] == old(point[..])
    ensures !PointIsNodata(old(Point(point)), nodata, tolerance) ==>
              Point(point) == Rotated(old(Matrix(rotationMatrix)), old(Point(point))) &&
              point[2..] == old(point[2..])
    ensures rotationMatrix != point ==> rotationMatrix[..] == old(rotationMatrix[..])
  {
    if AreEqual(point[0], nodata, tolerance) || AreEqual(point[1], nodata, tolerance) {
      return;
    }
    RotatePoint(point, rotationMatrix);
  }

  /** The identity matrix [1, 0, 0, 1] leaves every point where it is. */
  lemma RotatedByIdentity(p: Vec2)
    ensures Rotated(Mat2(1.0, 0.0, 0.0, 1.0), p) == p
  {
  }

  /** The rotation matrix of angle 0 is the identity whenever sin 0 = 0 and cos 0 = 1. */
  lemma RotationByZeroIsIdentity(p: Vec2, sin: real -> real, cos: real -> real)
    requires sin(0.0) == 0.0 && cos(0.0) == 1.0
    ensures Rotated(RotationMatrix(0.0, sin, cos), p) == p
  {
    RotatedByIdentity(p);
  }

  /** A matrix [c, -s, s, c] with c*c + s*s = 1 preserves squared length. */
  lemma RotationPreservesLength(c: real, s: real, p: Vec2)
    requires c * c + s * s == 1.0
    ensures SquaredLength(Rotated(Mat2(c, -s, s, c), p)) == SquaredLength(p)
  {
    var q := Rotated(Mat2(c, -s, s, c), p);
    calc {
      SquaredLength(q);
      (c * p.x - s * p.y) * (c * p.x - s * p.y) + (s * p.x + c * p.y) * (s * p.x + c * p.y);
      (c * c + s * s) * (p.x * p.x) + (c * c + s * s) * (p.y * p.y);
      SquaredLength(p);
    }
  }

  // ---------------------------------------------------------------------
  // Rotation about a pivot

  /** Translation by minus the origin, rotation, translation back by the origin. */
  function RotatedAbout(p: Vec2, origin: Vec2, m: Mat2): Vec2 {
    Translated(Rotated(m, Translated(p, Negated(origin))), origin)
  }

  /**
   * `rotate_point_about`: rotates the point about the origin in place; the
   * translation by minus the origin goes through a local 2-element buffer.
   */
  method RotatePointAbout(point: array<real>, origin: array<real>, rotationMatrix: array<real>)
    requires 2 <= point.Length && 2 <= origin.Length && 4 <= rotationMatrix.Length
    requires point != origin && point != rotationMatrix
    modifies point
    ensures Point(point) == RotatedAbout(old(Point(point)), old(Point(origin)), old(Matrix(rotationMatrix)))
    ensures point[2..] == old(point[2..])
    ensures origin[..] == old(origin[..]) && rotationMatrix[..] == old(rotationMatrix[..])
  {
    var negatedOrigin := new real[2];
    negatedOrigin[0], negatedOrigin[1] := -origin[0], -origin[1];
    TranslatePoint(point, negatedOrigin);
    RotatePoint(point, rotationMatrix);
    TranslatePoint(point, origin);
  }

  /** `rotate_point_about_safe`: guards the point only, never the origin. */
  method RotatePointAboutSafe(point: array<real>, origin: array<real>, rotationMatrix: array<real>,
                              nodata: real, tolerance: real)
    requires 2 <= point.Length && 2 <= origin.Length && 4 <= rotationMatrix.Length
    requires point != origin && point != rotationMatrix
    modifies point
    ensures PointIsNodata(old(Point(point)), nodata, tolerance) ==> point[..] == old(point[..])
    ensures !PointIsNodata(old(Point(point)), nodata, tolerance) ==>
              Point(point) == RotatedAbout(old(Point(point)), old(Point(origin)), old(Matrix(rotationMatrix))) &&
              point[2..] == old(point[2..])
    ensures origin[..] == old(origin[..]) && rotationMatrix[..] == old(rotationMatrix[..])
  {
    if AreEqual(point[0], nodata, tolerance) || AreEqual(point[1], nodata, tolerance) {
      return;
    }
    RotatePointAbout(point, origin, rotationMatrix);
  }

  /** The pivot is a fixed point of every rotation about it. */
  lemma OriginIsFixedPoint(origin: Vec2, m: Mat2)
    ensures RotatedAbout(origin, origin, m) == origin
  {
  }

  lemma TranslatedByZero(p: Vec2)
    ensures Translated(p, Vec2(0.0, 0.0)) == p
  {
  }

  /** Rotation about the coordinate origin is plain rotation. */
  lemma RotatedAboutZero(p: Vec2, m: Mat2)
    ensures RotatedAbout(p, Vec2(0.0, 0.0), m) == Rotated(m, p)
  {
    var zero := Vec2(0.0, 0.0);
    TranslatedByZero(p);
    TranslatedByZero(Rotated(m, p));
    calc {
      RotatedAbout(p, zero, m);
      Translated(Rotated(m, Translated(p, Negated(zero))), zero);
      { assert Negated(zero) == zero; }
      Translated(Rotated(m, Translated(p, zero)), zero);
      Translated(Rotated(m, p), zero);
      Rotated(m, p);
    }
  }

  /** With the identity matrix, rotation about any pivot leaves the point where it is. */
  lemma RotatedAboutByIdentity(p: Vec2, origin: Vec2)
    ensures RotatedAbout(p, origin, Mat2(1.0, 0.0, 0.0, 1.0)) == p
  {
  }

  // ---------------------------------------------------------------------
  // Unit vector, dot and cross products

  /** The normalised vector, or the zero vector when the magnitude is below 1e-7. */
  function UnitVector(v: Vec2, sqrt: real -> real): Vec2 {
    var mag := CalculateMagnitude(v.x, v.y, sqrt);
    if mag < MinUnitMagnitude then Vec2(0.0, 0.0) else Vec2(v.x / mag, v.y / mag)
  }

  /**
   * `calculate_unit_vector`: writes the normalised original vector to the
   * first two elements of the output buffer; the original is read before
   * either write, so the buffers may be the same.
   */
  method CalculateUnitVector(unitVec: array<real>, originalVec: array<real>, sqrt: real -> real)
    requires 2 <= unitVec.Length && 2 <= originalVec.Length
    modifies unitVec
    ensures Point(unitVec) == UnitVector(old(Point(originalVec)), sqrt)
    ensures unitVec[2..] == old(unitVec[2..])
    ensures originalVec != unitVec ==> originalVec[..] == old(originalVec[..])
  {
    var mag := CalculateMagnitude(originalVec[0], originalVec[1], sqrt);
    if mag < MinUnitMagnitude {
      unitVec[0] := 0.0;
      unitVec[1] := 0.0;
    } else {
      unitVec[0] := originalVec[0] / mag;
      unitVec[1] := originalVec[1] / mag;
    }
  }

  /** A vector of magnitude at least 1e-7 normalises to squared length 1. */
  lemma UnitVectorHasUnitLength(v: Vec2, sqrt: real -> real)
    requires IsSqrtAt(sqrt, SquaredLength(v))
    requires MinUnitMagnitude <= CalculateMagnitude(v.x, v.y, sqrt)
    ensures SquaredLength(UnitVector(v, sqrt)) == 1.0
  {
    var mag := CalculateMagnitude(v.x, v.y, sqrt);
    var u := UnitVector(v, sqrt);
    assert u.x * mag == v.x && u.y * mag == v.y;
    NormalisedLength(v.x, v.y, u.x, u.y, mag);
  }

  /** If (a, b) = m (p, q) and m is a positive root of a*a + b*b, then (p, q) has squared length 1. */
  lemma NormalisedLength(a: real, b: real, p: real, q: real, m: real)
    requires 0.0 < m && m * m == SumOfSquares(a, b)
    requires p * m == a && q * m == b
    ensures SumOfSquares(p, q) == 1.0
  {
    calc {
      (p * p + q * q) * (m * m);
      (p * m) * (p * m) + (q * m) * (q * m);
      a * a + b * b;
      m * m;
    }
    assert 0.0 < m * m;
  }

  /** Scaling the unit vector back by the magnitude recovers the original vector. */
  lemma UnitVectorScalesBack(v: Vec2, sqrt: real -> real)
    requires MinUnitMagnitude <= CalculateMagnitude(v.x, v.y, sqrt)
    ensures var mag := CalculateMagnitude(v.x, v.y, sqrt);
            UnitVector(v, sqrt).x * mag == v.x && UnitVector(v, sqrt).y * mag == v.y
  {
  }

  /** A vector below the magnitude threshold normalises to exactly the zero vector. */
  lemma UnitVectorOfShortVector(v: Vec2, sqrt: real -> real)
    requires CalculateMagnitude(v.x, v.y, sqrt) < MinUnitMagnitude
    ensures UnitVector(v, sqrt) == Vec2(0.0, 0.0)
  {
  }

  /** `dot_product`. */
  function DotProduct(a: Vec2, b: Vec2): real {
    a.x * b.x + a.y * b.y
  }

  /** `cross_product`: the z-component of the cross product of two planar vectors. */
  function CrossProduct(a: Vec2, b: Vec2): real {
    a.x * b.y - a.y * b.x
  }

  /** The dot product is symmetric, the cross product antisymmetric and zero on a vector with itself. */
  lemma ProductSymmetries(a: Vec2, b: Vec2)
    ensures DotProduct(a, b) == DotProduct(b, a)
    ensures CrossProduct(a, b) == -CrossProduct(b, a)
    ensures CrossProduct(a, a) == 0.0
    ensures DotProduct(a, a) == SquaredLength(a)
  {
  }

  /** Lagrange's identity in the plane: dot squared plus cross squared is the product of squared lengths. */
  lemma LagrangeIdentity(a: Vec2, b: Vec2)
    ensures DotProduct(a, b) * DotProduct(a, b) + CrossProduct(a, b) * CrossProduct(a, b)
            == SquaredLength(a) * SquaredLength(b)
  {
    calc {
      DotProduct(a, b) * DotProduct(a, b) + CrossProduct(a, b) * CrossProduct(a, b);
      (a.x * b.x + a.y * b.y) * (a.x * b.x + a.y * b.y) + (a.x * b.y - a.y * b.x) * (a.x * b.y - a.y * b.x);
      (a.x * a.x) * (b.x * b.x) + (a.x * a.x) * (b.y * b.y) + (a.y * a.y) * (b.x * b.x) + (a.y * a.y) * (b.y * b.y);
      (a.x * a.x + a.y * a.y) * (b.x * b.x + b.y * b.y);
    }
  }

  // ---------------------------------------------------------------------
  // Components along and across a reference line

  /** The vector from the line's start to its end. */
  function LineVector(lineStart: Vec2, lineEnd: Vec2): Vec2 {
    Vec2(lineEnd.x - lineStart.x, lineEnd.y - lineStart.y)
  }

  /** The component of v along the line: its dot product with the line's unit vector. */
  function ParallelComponent(v: Vec2, lineStart: Vec2, lineEnd: Vec2, sqrt: real -> real): real {
    DotProduct(v, UnitVector(LineVector(lineStart, lineEnd), sqrt))
  }

  /** The component of v across the line: the line's unit vector crossed with v. */
  function NormalComponent(v: Vec2, lineStart: Vec2, lineEnd: Vec2, sqrt: real -> real): real {
    CrossProduct(UnitVector(LineVector(lineStart, lineEnd), sqrt), v)
  }

  /** `calculate_parallel_component`: normalises the line vector in a local buffer, then takes the dot product. */
  method CalculateParallelComponent(vec: array<real>, refLineStart: array<real>, refLineEnd: array<real>,
                                    sqrt: real -> real) returns (r: real)
    requires 2 <= vec.Length && 2 <= refLineStart.Length && 2 <= refLineEnd.Length
    ensures r == ParallelComponent(Point(vec), Point(refLineStart), Point(refLineEnd), sqrt)
  {
    var lineVec := new real[2];
    lineVec[0], lineVec[1] := refLineEnd[0] - refLineStart[0], refLineEnd[1] - refLineStart[1];
    var unitLineVec := new real[2];
    CalculateUnitVector(unitLineVec, lineVec, sqrt);
    r := DotProduct(Point(vec), Point(unitLineVec));
  }

  /** `calculate_parallel_component_safe`: guards the vector only, not the line endpoints. */
  method CalculateParallelComponentSafe(vec: array<real>, refLineStart: array<real>, refLineEnd: array<real>,
                                        nodata: real, tolerance: real, sqrt: real -> real) returns (r: real)
    requires 2 <= vec.Length && 2 <= refLineStart.Length && 2 <= refLineEnd.Length
    ensures PointIsNodata(Point(vec), nodata, tolerance) ==> r == nodata
    ensures !PointIsNodata(Point(vec), nodata, tolerance) ==>
              r == ParallelComponent(Point(vec), Point(refLineStart), Point(refLineEnd), sqrt)
  {
    if AreEqual(vec[0], nodata, tolerance) || AreEqual(vec[1], nodata, tolerance) {
      return nodata;
    }
    r := CalculateParallelComponent(vec, refLineStart, refLineEnd, sqrt);
  }

  /** `calculate_normal_component`: normalises the line vector in a local buffer, then takes the cross product. */
  method CalculateNormalComponent(vec: array<real>, refLineStart: array<real>, refLineEnd: array<real>,
                                  sqrt: real -> real) returns (r: real)
    requires 2 <= vec.Length && 2 <= refLineStart.Length && 2 <= refLineEnd.Length
    ensures r == NormalComponent(Point(vec), Point(refLineStart), Point(refLineEnd), sqrt)
  {
    var lineVec := new real[2];
    lineVec[0], lineVec[1] := refLineEnd[0] - refLineStart[0], refLineEnd[1] - refLineStart[1];
    var unitLineVec := new real[2];
    CalculateUnitVector(unitLineVec, lineVec, sqrt);
    r := CrossProduct(Point(unitLineVec), Point(vec));
  }

  /** `calculate_normal_component_safe`: guards the vector only, not the line endpoints. */
  method CalculateNormalComponentSafe(vec: array<real>, refLineStart: array<real>, refLineEnd: array<real>,
                                      nodata: real, tolerance: real, sqrt: real -> real) returns (r: real)
    requires 2 <= vec.Length && 2 <= refLineStart.Length && 2 <= refLineEnd.Length
    ensures PointIsNodata(Point(vec), nodata, tolerance) ==> r == nodata
    ensures !PointIsNodata(Point(vec), nodata, tolerance) ==>
              r == NormalComponent(Point(vec), Point(refLineStart), Point(refLineEnd), sqrt)
  {
    if AreEqual(vec[0], nodata, tolerance) || AreEqual(vec[1], nodata, tolerance) {
      return nodata;
    }
    r := CalculateNormalComponent(vec, refLineStart, refLineEnd, sqrt);
  }

  /**
   * For a line of magnitude at least 1e-7 the two components decompose the
   * vector: their squares add up to the vector's squared length.
   */
  lemma ComponentsDecomposeVector(v: Vec2, lineStart: Vec2, lineEnd: Vec2, sqrt: real -> real)
    requires IsSqrtAt(sqrt, SquaredLength(LineVector(lineStart, lineEnd)))
    requires MinUnitMagnitude <= CalculateMagnitude(LineVector(lineStart, lineEnd).x, LineVector(lineStart, lineEnd).y, sqrt)
    ensures var p := ParallelComponent(v, lineStart, lineEnd, sqrt);
            var n := NormalComponent(v, lineStart, lineEnd, sqrt);
            p * p + n * n == SquaredLength(v)
  {
    var u := UnitVector(LineVector(lineStart, lineEnd), sqrt);
    UnitVectorHasUnitLength(LineVector(lineStart, lineEnd), sqrt);
    LagrangeIdentity(u, v);
  }

  /** For a line shorter than 1e-7 both components are zero, whatever the vector. */
  lemma DegenerateLineComponents(v: Vec2, lineStart: Vec2, lineEnd: Vec2, sqrt: real -> real)
    requires CalculateMagnitude(LineVector(lineStart, lineEnd).x, LineVector(lineStart, lineEnd).y, sqrt) < MinUnitMagnitude
    ensures ParallelComponent(v, lineStart, lineEnd, sqrt) == 0.0
    ensures NormalComponent(v, lineStart, lineEnd, sqrt) == 0.0
  {
  }

  /** The line's own vector lies wholly along the line: its parallel component is its magnitude, its normal one zero. */
  lemma LineVectorComponents(lineStart: Vec2, lineEnd: Vec2, sqrt: real -> real)
    requires IsSqrtAt(sqrt, SquaredLength(LineVector(lineStart, lineEnd)))
    requires MinUnitMagnitude <= CalculateMagnitude(LineVector(lineStart, lineEnd).x, LineVector(lineStart, lineEnd).y, sqrt)
    ensures var l := LineVector(lineStart, lineEnd);
            ParallelComponent(l, lineStart, lineEnd, sqrt) == CalculateMagnitude(l.x, l.y, sqrt)
    ensures NormalComponent(LineVector(lineStart, lineEnd), lineStart, lineEnd, sqrt) == 0.0
  {
    var l := LineVector(lineStart, lineEnd);
    var mag := CalculateMagnitude(l.x, l.y, sqrt);
    var u := UnitVector(l, sqrt);
    assert u == Vec2(l.x / mag, l.y / mag);
    assert SquaredLength(l) == l.x * l.x + l.y * l.y;
    assert IsSqrtAt(sqrt, l.x * l.x + l.y * l.y);
    assert mag * mag == l.x * l.x + l.y * l.y;
    calc {
      DotProduct(l, u);
      l.x * (l.x / mag) + l.y * (l.y / mag);
      (l.x * l.x + l.y * l.y) / mag;
      (mag * mag) / mag;
      mag;
    }
    calc {
      CrossProduct(u, l);
      (l.x / mag) * l.y - (l.y / mag) * l.x;
      0.0;
    }
  }
}
