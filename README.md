# common_operations in Dafny

`common_operations.h` is a header-only C++ template library. It gathers the per-cell formulas that hydrodynamic and flood-hazard codes share:

- tolerance equality and unit and angle conversions;
- 2-D point and vector geometry: translation, rotation (also about a pivot), unit vectors, dot and cross products, and the components of a vector along and across a reference line;
- hydraulic quantities: depth, velocity with a minimum-depth floor, Froude number, kinetic and potential energy, the 1-D and 2-D Courant numbers, the flood hazard rating and the land-cover debris coefficient.

Almost every operation has a `_safe` variant. It checks a fixed set of its inputs against a caller-supplied nodata sentinel, using `are_equal` with a tolerance. When one of those inputs matches, the variant returns the sentinel, or leaves its output buffer untouched. Otherwise it delegates to the raw operation.

The model has five modules:

| module | file | models |
|---|---|---|
| `Tolerance` | `tolerance.dfy` | `abs` on reals, `are_equal` |
| `MathLibrary` | `math.dfy` | what a lemma may assume about a `sqrt` parameter |
| `Conversions` | `conversions.dfy` | `change_unit_system` (in place), `deg_to_rad`, `rad_to_deg` |
| `Geometry` | `geometry.dfy` | magnitude, direction, translate/rotate/rotate-about (in place), rotation matrix, unit vector, dot, cross, parallel/normal components |
| `Hydraulics` | `hydraulics.dfy` | depth, velocity, Froude, energies, Courant numbers, hazard rating, debris coefficient |

How the C++ is represented:

- **Numbers.** Every template instance `T` is modelled as Dafny's exact `real`.
- **Pointer buffers.** A `T*` that the library writes is an `array<real>`. `*val` is `val[0]`, a point is elements 0 and 1, and a rotation matrix is elements 0 to 3 in row-major order. Every in-place method states the new values of those elements and that the rest of the array is unchanged. Buffers the source only reads are left unchanged.
- **Read-only vectors.** The `const T*` inputs of the pure `dot_product` and `cross_product` are `Vec2` values.
- **Math functions.** `sqrt`, `atan2`, `sin` and `cos` come from the C math library, so they are function-valued parameters. A lemma that needs `sqrt` to be a true square root at one argument says so with the predicate `MathLibrary.IsSqrtAt`.
- **Pi.** `M_PI` is the exact real 3.14159265358979323846.
- **Division.** A division by zero, possible in velocity, Froude and Courant, is a precondition. In the safe variants that precondition binds only on the path that actually divides.

## Model

| member | source | states |
|---|---|---|
| Tolerance.Abs | common_operations.h:12 | the absolute value is non-negative, is x or -x, and bounds both x and -x |
| Tolerance.AreEqual | common_operations.h:10-13 | `are_equal`: a and b match when their difference is strictly smaller than the tolerance; a match implies a positive tolerance |
| Tolerance.AreEqualIsOpenInterval | common_operations.h:10-13 | `are_equal(a, b, tol)` holds exactly when b lies strictly between a - tol and a + tol (both directions) |
| Tolerance.AreEqualExcludesBoundary | common_operations.h:10-13 | a difference of exactly the tolerance is not equality (strict comparison) |
| Tolerance.AreEqualSymmetric | common_operations.h:10-13 | the test does not depend on the order of a and b |
| Tolerance.AreEqualReflexive | common_operations.h:10-13 | a value matches itself exactly when the tolerance is positive |
| Tolerance.AreEqualScenarios | test_main.cpp:9-27 | 9999 vs 9999.001 is equal at tolerance 0.01 and not at 0.001; -9 vs -9.001 is equal at 0.01; 9 vs 9.001 is not at 0.001 |
| Conversions.ChangeUnitSystem | common_operations.h:15-18 | `*val` becomes its old value times the factor; the rest of the buffer is unchanged |
| Conversions.ChangeUnitSystemSafe | common_operations.h:20-27 | a value matching nodata leaves the whole buffer unchanged; any other value is rescaled and nothing else changes |
| Conversions.ChangeUnitSystemScenarios | test_main.cpp:33-49 | 1 with factor 0.33 becomes 0.33; 999 with sentinel 999 stays 999; 8 with factor 0.4 becomes 3.2 |
| Conversions.DegToRad | common_operations.h:29-32 | the closed formula deg * pi / 180; its properties: Conversions.AngleRoundTrip, Conversions.HalfTurn |
| Conversions.DegToRadSafe | common_operations.h:34-40 | nodata degrees return nodata; any other value returns its conversion to radians |
| Conversions.RadToDeg | common_operations.h:42-45 | the closed formula rad * 180 / pi; its properties: Conversions.AngleRoundTrip, Conversions.HalfTurn |
| Conversions.RadToDegSafe | common_operations.h:47-53 | nodata radians return nodata; any other value returns its conversion to degrees |
| Conversions.AngleRoundTrip | common_operations.h:29-45 | degrees to radians and radians to degrees are inverse to each other, in both orders |
| Conversions.HalfTurn | common_operations.h:29-45 | 180 degrees is pi radians, and pi radians is 180 degrees |
| Conversions.DegToRadSafeNodataScenario | common_operations.h:34-40 | -999 with sentinel -999 passes through as -999 |
| Geometry.CalculateMagnitude | common_operations.h:55-58 | with an exact root, the magnitude is non-negative and its square is x*x + y*y |
| Geometry.CalculateMagnitudeSafe | common_operations.h:60-68 | nodata when x or y matches it, whatever the other coordinate; the magnitude otherwise |
| Geometry.CalculateDirection | common_operations.h:70-73 | `atan2(y, x)`, with y as the first argument; nothing further is stated, since `atan2` is a parameter |
| Geometry.CalculateDirectionSafe | common_operations.h:75-83 | nodata when x or y matches it; the direction `atan2(y, x)` otherwise |
| Geometry.MagnitudeOfThreeFour | common_operations.h:55-58 | with an exact root of 25, the magnitude of (3, 4) is 5 |
| Geometry.MagnitudeSafeNodataScenario | common_operations.h:60-68 | (999, 1) with sentinel 999 yields 999 whatever `sqrt` is |
| Geometry.Translated | common_operations.h:85-89 | the closed formula p + t, the value `translate_point` writes; its properties: Geometry.TranslateInverse, Geometry.OriginIsFixedPoint |
| Geometry.TranslatePoint | common_operations.h:85-89 | the point becomes the old point plus the translation; elements past the point and a separate translation buffer are unchanged |
| Geometry.TranslatePointSafe | common_operations.h:91-99 | a point with a nodata coordinate is left entirely unchanged; otherwise it is translated; the translation buffer is never modified and never checked |
| Geometry.TranslateInverse | common_operations.h:85-89 | translating by t and then by -t returns the original point |
| Geometry.RotationMatrix | common_operations.h:101-107 | the matrix [cos a, -sin a, sin a, cos a] that `set_rotation_matrix` writes; its properties: Geometry.RotationByZeroIsIdentity, Geometry.RotationPreservesLength |
| Geometry.SetRotationMatrix | common_operations.h:101-107 | the buffer holds [cos a, -sin a, sin a, cos a]; the rest is unchanged |
| Geometry.Rotated | common_operations.h:109-116 | the matrix product M p, the value `rotate_point` writes |
| Geometry.RotatePoint | common_operations.h:109-116 | the point becomes M times the old point, computed from the saved old coordinates (even when the matrix buffer is the point buffer); a separate matrix buffer is unchanged |
| Geometry.RotatePointSafe | common_operations.h:118-126 | a point with a nodata coordinate is left entirely unchanged; otherwise it is rotated; the matrix buffer is never modified |
| Geometry.RotatedByIdentity | common_operations.h:109-116 | the identity matrix [1, 0, 0, 1] leaves every point unchanged |
| Geometry.RotationByZeroIsIdentity | common_operations.h:101-116 | rotating by the matrix of angle 0 leaves every point unchanged, given sin 0 = 0 and cos 0 = 1 |
| Geometry.RotationPreservesLength | common_operations.h:101-116 | a matrix [c, -s, s, c] with c*c + s*s = 1 preserves squared length |
| Geometry.RotatedAbout | common_operations.h:128-133 | M (p - o) + o, the value `rotate_point_about` writes |
| Geometry.RotatePointAbout | common_operations.h:128-133 | the point becomes M (p - o) + o; origin and matrix buffers are unchanged |
| Geometry.RotatePointAboutSafe | common_operations.h:135-142 | a point with a nodata coordinate is left unchanged; otherwise it is rotated about the origin; the origin is never checked and never modified |
| Geometry.OriginIsFixedPoint | common_operations.h:128-133 | the pivot is a fixed point of rotation about it, for any matrix |
| Geometry.RotatedAboutZero | common_operations.h:128-133 | rotation about (0, 0) is plain rotation |
| Geometry.RotatedAboutByIdentity | common_operations.h:128-133 | the identity matrix leaves every point unchanged, whatever the pivot |
| Geometry.UnitVector | common_operations.h:144-155 | (0, 0) below magnitude 1e-7, otherwise the vector divided by its magnitude; the value `calculate_unit_vector` writes |
| Geometry.CalculateUnitVector | common_operations.h:144-155 | the output is (0, 0) below magnitude 1e-7 and original / magnitude otherwise; only the output buffer's first two elements change |
| Geometry.UnitVectorHasUnitLength | common_operations.h:144-155 | with an exact root, a vector of magnitude at least 1e-7 normalises to squared length 1 |
| Geometry.UnitVectorScalesBack | common_operations.h:144-155 | the unit vector times the magnitude gives back the original vector |
| Geometry.UnitVectorOfShortVector | common_operations.h:144-155 | a vector of magnitude below 1e-7 normalises to exactly (0, 0) |
| Geometry.DotProduct | common_operations.h:157-160 | the closed formula a.x * b.x + a.y * b.y; its properties: Geometry.ProductSymmetries, Geometry.LagrangeIdentity |
| Geometry.CrossProduct | common_operations.h:162-165 | the closed formula a.x * b.y - a.y * b.x; its properties: Geometry.ProductSymmetries, Geometry.LagrangeIdentity |
| Geometry.ProductSymmetries | common_operations.h:157-165 | the dot product is symmetric; the cross product is antisymmetric and zero for a vector with itself; a vector dotted with itself is its squared length |
| Geometry.LagrangeIdentity | common_operations.h:157-165 | dot squared plus cross squared equals the product of the squared lengths |
| Geometry.ParallelComponent | common_operations.h:167-176 | the vector dotted with the unit vector of the line from start to end |
| Geometry.CalculateParallelComponent | common_operations.h:167-176 | the result is the vector dotted with the unit vector of the line from start to end |
| Geometry.CalculateParallelComponentSafe | common_operations.h:178-187 | nodata when vec[0] or vec[1] matches it, the line endpoints unchecked; the parallel component otherwise |
| Geometry.NormalComponent | common_operations.h:189-197 | the line's unit vector crossed with the vector, in the operand order of the source |
| Geometry.CalculateNormalComponent | common_operations.h:189-197 | the result is the line's unit vector crossed with the vector |
| Geometry.CalculateNormalComponentSafe | common_operations.h:199-208 | nodata when vec[0] or vec[1] matches it, the line endpoints unchecked; the normal component otherwise |
| Geometry.ComponentsDecomposeVector | common_operations.h:167-197 | for a line of magnitude at least 1e-7, parallel squared plus normal squared is the vector's squared length |
| Geometry.DegenerateLineComponents | common_operations.h:144-197 | for a line shorter than 1e-7, both components are 0 |
| Geometry.LineVectorComponents | common_operations.h:167-197 | the line's own vector has parallel component equal to its magnitude and normal component 0 |
| Hydraulics.Max | common_operations.h:230 | `std::max` returns one of its arguments and bounds both |
| Hydraulics.CalculateDepth | common_operations.h:210-214 | the closed formula bed + conv * water; its properties: Hydraulics.DepthConventions, Hydraulics.DepthRecoversWaterElevation |
| Hydraulics.DepthConventions | common_operations.h:210-214 | convention 1 (the default) adds the water elevation to the bed elevation; convention -1 subtracts it |
| Hydraulics.DepthRecoversWaterElevation | common_operations.h:210-214 | for a non-zero convention, the water elevation is recovered from depth, bed elevation and convention |
| Hydraulics.CalculateDepthSafe | common_operations.h:216-225 | nodata when either elevation matches it; the depth otherwise |
| Hydraulics.CalculateVelocity | common_operations.h:227-231 | the closed formula discharge / max(depth, min_depth); its properties: Hydraulics.VelocityTimesFlooredDepth, Hydraulics.VelocityFlooredBelowMinDepth, Hydraulics.VelocityAboveMinDepth |
| Hydraulics.VelocityTimesFlooredDepth | common_operations.h:227-231 | velocity times max(depth, min_depth) is the discharge |
| Hydraulics.VelocityFlooredBelowMinDepth | common_operations.h:227-231 | at or below the minimum depth, the velocity is discharge over min_depth, whatever the depth |
| Hydraulics.VelocityAboveMinDepth | common_operations.h:227-231 | above the minimum depth, the velocity is discharge over depth |
| Hydraulics.CalculateVelocitySafe | common_operations.h:233-241 | nodata when the discharge or the depth matches it, the floor unchecked; the velocity otherwise |
| Hydraulics.CalculateFroudeNumber | common_operations.h:243-247 | the closed formula velocity / sqrt(gravity * max(depth, min_depth)); its properties: Hydraulics.FroudeNumberSquared |
| Hydraulics.FroudeNumberSquared | common_operations.h:243-247 | with an exact root, Fr squared times gravity times the floored depth is velocity squared |
| Hydraulics.CalculateFroudeNumberSafe | common_operations.h:249-257 | nodata when the velocity or the depth matches it, gravity and floor unchecked; the Froude number otherwise |
| Hydraulics.CalculateKineticEnergy | common_operations.h:259-262 | the closed formula 0.5 * v * v; its properties: Hydraulics.KineticEnergyProperties |
| Hydraulics.KineticEnergyProperties | common_operations.h:259-262 | kinetic energy is non-negative, is the same for v and -v, and doubled equals v squared |
| Hydraulics.CalculateKineticEnergySafe | common_operations.h:264-270 | nodata when the velocity matches it; the kinetic energy otherwise |
| Hydraulics.CalculatePotentialEnergy | common_operations.h:272-275 | the closed formula water_elevation * gravity; its properties: Hydraulics.PotentialEnergyAdditive |
| Hydraulics.PotentialEnergyAdditive | common_operations.h:272-275 | potential energy is additive in the elevation and is 0 at elevation 0 |
| Hydraulics.CalculatePotentialEnergySafe | common_operations.h:277-283 | nodata when the water elevation matches it, gravity unchecked; the potential energy otherwise |
| Hydraulics.CalculateCourantNumber | common_operations.h:285-289 | the closed formula v * dt / dx; its properties: Hydraulics.CourantNumberTimesCellSize |
| Hydraulics.CalculateCourantNumber2D | common_operations.h:291-297 | the sum of the 1-D numbers along x and along y; its properties: Hydraulics.CourantNumber2DAlongAxis |
| Hydraulics.CourantNumberTimesCellSize | common_operations.h:285-289 | the Courant number times the cell size is the distance travelled in one time step |
| Hydraulics.CourantNumber2DAlongAxis | common_operations.h:291-297 | with one velocity component zero, the 2-D number equals the 1-D number along the other axis |
| Hydraulics.CalculateCourantNumberSafe | common_operations.h:299-306 | nodata when the velocity matches it, the resolutions unchecked; the 1-D number otherwise |
| Hydraulics.CalculateCourantNumber2DSafe | common_operations.h:308-317 | nodata when velocity_x or velocity_y matches it; the sum of the two 1-D numbers otherwise |
| Hydraulics.CalculateFloodHazardRating | common_operations.h:320-324 | the closed formula as written, depth + (velocity + const_coef) + debris_coef; its properties: Hydraulics.HazardRatingOfDryCell, Hydraulics.HazardRatingAsWrittenVersusMethod (see "## Findings") |
| Hydraulics.FloodHazardRating | common_operations.h:318-324 | defines the hazard rating of the cited method, depth * (velocity + const_coef) + debris_coef; its properties are the lemmas in the next rows |
| Hydraulics.HazardRatingOfDryCell | common_operations.h:319-324 | as written, a dry cell at 2 m/s with constant 0.5 and no debris is rated 2.5; the cited formula rates it 0 |
| Hydraulics.HazardRatingAsWrittenVersusMethod | common_operations.h:318-324 | for all inputs, the rating as written minus the cited one is depth + (velocity + c) - depth * (velocity + c); they agree exactly when that sum equals that product |
| Hydraulics.DryCellHazardIsDebrisOnly | common_operations.h:318-324 | under the cited formula, a dry cell's rating is its debris factor, whatever the velocity |
| Hydraulics.HazardRatingMonotoneInDepth | common_operations.h:318-324 | under the cited formula, the rating does not decrease with depth when velocity + constant is non-negative |
| Hydraulics.CalculateFloodHazardRatingSafe | common_operations.h:326-334 | nodata when the velocity or the depth matches it, the coefficients unchecked; the rating as written otherwise |
| Hydraulics.CalculateDebrisCoefficient | common_operations.h:336-374 | the coefficient is always 0, 0.5 or 1 |
| Hydraulics.DebrisBand | common_operations.h:339-367 | the severity band: 2 (high) exactly when depth > 0.75 or velocity > 2, otherwise 1 (mid) exactly when depth > 0.25, otherwise 0 (low) |
| Hydraulics.DebrisTable | common_operations.h:340-373 | the debris coefficient of each land cover per band: pasture 0/0/0.5, woodland 0/0.5/1, urban 0/1/1, unknown codes 0; every entry is 0, 0.5 or 1 and every row is non-decreasing across the bands |
| Hydraulics.DebrisCoefficientIsTableLookup | common_operations.h:336-374 | for every input, the coefficient is the land-cover table entry of its band (high: depth > 0.75 or velocity > 2; mid: 0.25 < depth <= 0.75; low otherwise, including negative depths), with 0 for unknown codes; in particular a negative depth at velocity up to 2 gives 0 |
| Hydraulics.DebrisBoundaryScenarios | common_operations.h:336-374 | 0.75 is still mid band and 0.751 is high band; 0.25 is still low band; a velocity of exactly 2 is not high; a negative depth scores 0; an unknown code scores 0 |
| Hydraulics.DebrisMonotoneInDepth | common_operations.h:336-374 | deeper water never lowers the coefficient |
| Hydraulics.DebrisMonotoneInVelocity | common_operations.h:336-374 | faster flow never lowers the coefficient |
| Hydraulics.DebrisOrderedByLandCover | common_operations.h:336-374 | in every band, pasture scores at most woodland, and woodland at most urban |

## Left out

- Floating-point rounding, the difference between `float` and `double`, and the template genericity are not modelled. Everything is an exact real. In particular, the `float` instances of the tests at test_main.cpp:19-27 and 45-49 are evaluated over exact reals. Under that reading, 9 vs 9.001 differs by exactly the tolerance, so it is unequal.
- `are_equal` returns `int` (0 or 1) in C++; here it is a predicate.
- `sqrt`, `atan2`, `sin` and `cos` are parameters, not definitions. Trigonometric identities, such as rotation by an angle and then by its negation, are not proved. Only three facts about these parameters are ever required, each locally:
  - the square-root fact named by `IsSqrtAt`, in the magnitude, unit-vector, component and Froude lemmas;
  - `sin(0) = 0` and `cos(0) = 1`, in Geometry.RotationByZeroIsIdentity;
  - a non-zero `sqrt(gravity * max(depth, min_depth))`, required by Hydraulics.CalculateFroudeNumber and by its safe variant on the computing path.
- Geometry.CalculateDirection: carries no contract of its own. It is `atan2(y, x)` of a parameter, and nothing is stated about `atan2`.
- Hydraulics.CalculateDepth, CalculateVelocity, CalculateFroudeNumber, CalculateKineticEnergy, CalculatePotentialEnergy, CalculateCourantNumber, CalculateCourantNumber2D, CalculateFloodHazardRating, Conversions.DegToRad, Conversions.RadToDeg, Geometry.Translated, Geometry.RotationMatrix, Geometry.DotProduct and Geometry.CrossProduct: carry no contract of their own. Each is modelled and has a row in "## Model"; its properties are the lemmas that row names.
- Division by zero is undefined behaviour in C++. It is a precondition here wherever the source can divide by zero: velocity, Froude and Courant. The unit vector needs none, because it divides only by a magnitude of at least 1e-7.
- common_operations.h:130 passes a braced list where `const T*` is expected, which does not compile once instantiated. The model takes the evident intent, translation by minus the origin, through a local 2-element buffer.
- Geometry.RotatePointAbout and Geometry.RotatePointAboutSafe: require the point buffer to differ from the origin and matrix buffers. The source does not exclude such aliasing, but rotating a point about itself in place is not modelled.
- The default argument `bed_elevation_conv = 1` is an explicit parameter here. The default case is stated by Hydraulics.DepthConventions.
- The debris characterisation stays a plain `int`. Any code other than 1, 2 or 3 takes the `default` branches of the two switches and yields 0.
- The Boost.Test harness in test_main.cpp is not modelled. Its cases appear only as the scenario lemmas and the scenario method.

## Findings

| source | as written | input that shows it | evidently intended | confidence | as-written member | corrected member |
|---|---|---|---|---|---|---|
| common_operations.h:318-324 | the hazard rating is `depth + (velocity + const_coef) + debris_coef`, a sum, although the comment cites DEFRA/Environment Agency report FD2321, whose hazard rating is depth times (velocity + 0.5) plus the debris factor | depth 0, velocity 2, const_coef 0.5, debris_coef 0: as written 2.5, intended 0 | `depth * (velocity + const_coef) + debris_coef`: a dry cell scores only its debris factor (Hydraulics.DryCellHazardIsDebrisOnly), and the rating grows with depth (Hydraulics.HazardRatingMonotoneInDepth) | high, not executed | Hydraulics.HazardRatingOfDryCell | Hydraulics.FloodHazardRating |

`Hydraulics.CalculateFloodHazardRating` and its safe wrapper keep the formula as written. `Hydraulics.FloodHazardRating` is the formula of the cited method.
