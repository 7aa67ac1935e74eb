/**
 * Hydraulic quantities derived per cell: flow depth, velocity with a
 * minimum-depth floor, Froude number, kinetic and potential energy, the
 * 1-D and 2-D Courant numbers, the flood hazard rating and the piecewise
 * debris coefficient, each with its nodata-guarded variant.
 *
 * Gravity, the minimum depth, the resolutions and the hazard coefficients
 * are never checked against nodata; only the inputs each guard names are.
 */
module Hydraulics {
  import opened Tolerance
  import opened MathLibrary

  /** Land-cover codes accepted by the debris coefficient; any other code is unrecognised. */
  const DebrisPastureArable: int := 1
  const DebrisWoodland: int := 2
  const DebrisUrban: int := 3

  /** `std::max`: the larger of the two, the first one on a tie. */
  function Max(a: real, b: real): (r: real)
    ensures a <= r && b <= r
    ensures r == a || r == b
  {
    if a < b then b else a
  }

  // ---------------------------------------------------------------------
  // Depth

  /** `calculate_depth`: bed elevation plus the water elevation times the sign convention (1 by default). */
  function CalculateDepth(bedElevation: real, waterElevation: real, bedElevationConv: int): real {
    bedElevation + (bedElevationConv as real) * waterElevation
  }

  /** `calculate_depth_safe`: nodata when either elevation matches it. */
  function CalculateDepthSafe(bedElevation: real, waterElevation: real, nodata: real, tolerance: real,
                              bedElevationConv: int): (r: real)
    ensures AreEqual(bedElevation, nodata, tolerance) || AreEqual(waterElevation, nodata, tolerance) ==>
              r == nodata
    ensures !AreEqual(bedElevation, nodata, tolerance) && !AreEqual(waterElevation, nodata, tolerance) ==>
              r == CalculateDepth(bedElevation, waterElevation, bedElevationConv)
  {
    if AreEqual(bedElevation, nodata, tolerance) || AreEqual(waterElevation, nodata, tolerance) then nodata
    else CalculateDepth(bedElevation, waterElevation, bedElevationConv)
  }

  /** The two sign conventions: the default 1 adds the elevations, -1 subtracts the water elevation. */
  lemma DepthConventions(bedElevation: real, waterElevation: real)
    ensures CalculateDepth(bedElevation, waterElevation, 1) == bedElevation + waterElevation
    ensures CalculateDepth(bedElevation, waterElevation, -1) == bedElevation - waterElevation
  {
  }

  /** For a non-zero convention the water elevation can be recovered from the depth. */
  lemma DepthRecoversWaterElevation(bedElevation: real, waterElevation: real, bedElevationConv: int)
    requires bedElevationConv != 0
    ensures (CalculateDepth(bedElevation, waterElevation, bedElevationConv) - bedElevation) / (bedElevationConv as real)
            == waterElevation
  {
  }

  // ---------------------------------------------------------------------
  // Velocity

  /** `calculate_velocity`: discharge over the depth floored at the minimum depth. */
  function CalculateVelocity(discharge: real, depth: real, minDepth: real): real
    requires Max(depth, minDepth) != 0.0
  {
    discharge / Max(depth, minDepth)
  }

  /** `calculate_velocity_safe`: nodata when the discharge or the depth matches it; the floor is never checked. */
  function CalculateVelocitySafe(discharge: real, depth: real, minDepth: real, nodata: real, tolerance: real): (r: real)
    requires !AreEqual(discharge, nodata, tolerance) && !AreEqual(depth, nodata, tolerance) ==>
               Max(depth, minDepth) != 0.0
    ensures AreEqual(discharge, nodata, tolerance) || AreEqual(depth, nodata, tolerance) ==> r == nodata
    ensures !AreEqual(discharge, nodata, tolerance) && !AreEqual(depth, nodata, tolerance) ==>
              r == CalculateVelocity(discharge, depth, minDepth)
  {
    if AreEqual(discharge, nodata, tolerance) || AreEqual(depth, nodata, tolerance) then nodata
    else CalculateVelocity(discharge, depth, minDepth)
  }

  /** Velocity times the floored depth gives back the discharge. */
  lemma VelocityTimesFlooredDepth(discharge: real, depth: real, minDepth: real)
    requires Max(depth, minDepth) != 0.0
    ensures CalculateVelocity(discharge, depth, minDepth) * Max(depth, minDepth) == discharge
  {
  }

  /** At or below the minimum depth the velocity no longer depends on the depth. */
  lemma VelocityFlooredBelowMinDepth(discharge: real, depth: real, minDepth: real)
    requires depth <= minDepth && minDepth != 0.0
    ensures CalculateVelocity(discharge, depth, minDepth) == discharge / minDepth
  {
  }

  /** Above the minimum depth the velocity is the plain discharge over depth. */
  lemma VelocityAboveMinDepth(discharge: real, depth: real, minDepth: real)
    requires minDepth < depth && depth != 0.0
    ensures CalculateVelocity(discharge, depth, minDepth) == discharge / depth
  {
  }

  // ---------------------------------------------------------------------
  // Froude number

  /** gravity * max(depth, min_depth), the argument `calculate_froude_number` hands to `sqrt`. */
  function GravityTimesFlooredDepth(depth: real, minDepth: real, gravity: real): real {
    gravity * Max(depth, minDepth)
  }

  /** `calculate_froude_number`: velocity over the shallow-water wave speed. */
  function CalculateFroudeNumber(velocity: real, depth: real, minDepth: real, gravity: real,
                                 sqrt: real -> real): real
    requires sqrt(GravityTimesFlooredDepth(depth, minDepth, gravity)) != 0.0
  {
    velocity / sqrt(GravityTimesFlooredDepth(depth, minDepth, gravity))
  }

  /** `calculate_froude_number_safe`: nodata when the velocity or the depth matches it. */
  function CalculateFroudeNumberSafe(velocity: real, depth: real, minDepth: real, gravity: real,
                                     nodata: real, tolerance: real, sqrt: real -> real): (r: real)
    requires !AreEqual(velocity, nodata, tolerance) && !AreEqual(depth, nodata, tolerance) ==>
               sqrt(GravityTimesFlooredDepth(depth, minDepth, gravity)) != 0.0
    ensures AreEqual(velocity, nodata, tolerance) || AreEqual(depth, nodata, tolerance) ==> r == nodata
    ensures !AreEqual(velocity, nodata, tolerance) && !AreEqual(depth, nodata, tolerance) ==>
              r == CalculateFroudeNumber(velocity, depth, minDepth, gravity, sqrt)
  {
    if AreEqual(velocity, nodata, tolerance) || AreEqual(depth, nodata, tolerance) then nodata
    else CalculateFroudeNumber(velocity, depth, minDepth, gravity, sqrt)
  }

  /** With an exact `sqrt`, the squared Froude number is velocity squared over gravity times the floored depth. */
  lemma FroudeNumberSquared(velocity: real, depth: real, minDepth: real, gravity: real, sqrt: real -> real)
    requires 0.0 < GravityTimesFlooredDepth(depth, minDepth, gravity)
    requires IsSqrtAt(sqrt, GravityTimesFlooredDepth(depth, minDepth, gravity))
    ensures var fr := CalculateFroudeNumber(velocity, depth, minDepth, gravity, sqrt);
            fr * fr * GravityTimesFlooredDepth(depth, minDepth, gravity) == velocity * velocity
  {
    var g := GravityTimesFlooredDepth(depth, minDepth, gravity);
    var c := sqrt(g);
    var fr := CalculateFroudeNumber(velocity, depth, minDepth, gravity, sqrt);
    assert c != 0.0 && fr * c == velocity;
    ScaledSquare(velocity, fr, c, g);
  }

  /** Squaring both sides of v = f * c where c * c = g. */
  lemma ScaledSquare(v: real, f: real, c: real, g: real)
    requires f * c == v && c * c == g
    ensures f * f * g == v * v
  {
    calc {
      f * f * g;
      f * f * (c * c);
      (f * c) * (f * c);
      v * v;
    }
  }

  // ---------------------------------------------------------------------
  // Energies

  /** `calculate_kinetic_energy`: half the squared velocity (energy per unit mass). */
  function CalculateKineticEnergy(velocity: real): real {
    0.5 * velocity * velocity
  }

  /** `calculate_kinetic_energy_safe`: nodata when the velocity matches it. */
  function CalculateKineticEnergySafe(velocity: real, nodata: real, tolerance: real): (r: real)
    ensures AreEqual(velocity, nodata, tolerance) ==> r == nodata
    ensures !AreEqual(velocity, nodata, tolerance) ==> r == CalculateKineticEnergy(velocity)
  {
    if AreEqual(velocity, nodata, tolerance) then nodata else CalculateKineticEnergy(velocity)
  }

  /** Kinetic energy is never negative, ignores the direction of flow, and doubles to the squared velocity. */
  lemma KineticEnergyProperties(velocity: real)
    ensures 0.0 <= CalculateKineticEnergy(velocity)
    ensures CalculateKineticEnergy(-velocity) == CalculateKineticEnergy(velocity)
    ensures 2.0 * CalculateKineticEnergy(velocity) == velocity * velocity
  {
  }

  /** `calculate_potential_energy`: water elevation times gravity (energy per unit mass). */
  function CalculatePotentialEnergy(waterElevation: real, gravity: real): real {
    waterElevation * gravity
  }

  /** `calculate_potential_energy_safe`: nodata when the water elevation matches it; gravity is never checked. */
  function CalculatePotentialEnergySafe(waterElevation: real, gravity: real, nodata: real, tolerance: real): (r: real)
    ensures AreEqual(waterElevation, nodata, tolerance) ==> r == nodata
    ensures !AreEqual(waterElevation, nodata, tolerance) ==> r == CalculatePotentialEnergy(waterElevation, gravity)
  {
    if AreEqual(waterElevation, nodata, tolerance) then nodata else CalculatePotentialEnergy(waterElevation, gravity)
  }

  /** Potential energy is additive in the elevation and vanishes at elevation 0. */
  lemma PotentialEnergyAdditive(z1: real, z2: real, gravity: real)
    ensures CalculatePotentialEnergy(z1 + z2, gravity)
            == CalculatePotentialEnergy(z1, gravity) + CalculatePotentialEnergy(z2, gravity)
    ensures CalculatePotentialEnergy(0.0, gravity) == 0.0
  {
  }

  // ---------------------------------------------------------------------
  // Courant numbers

  /** `calculate_courant_number` (1-D): velocity times the time step over the cell size. */
  function CalculateCourantNumber(velocity: real, timeResolution: real, spaceResolution: real): real
    requires spaceResolution != 0.0
  {
    velocity * timeResolution / spaceResolution
  }

  /** The 2-D overload of `calculate_courant_number`: the 1-D numbers along x and along y, added. */
  function CalculateCourantNumber2D(velocityX: real, velocityY: real, timeResolution: real,
                                    spaceXResolution: real, spaceYResolution: real): real
    requires spaceXResolution != 0.0 && spaceYResolution != 0.0
  {
    CalculateCourantNumber(velocityX, timeResolution, spaceXResolution) +
    CalculateCourantNumber(velocityY, timeResolution, spaceYResolution)
  }

  /** 1-D `calculate_courant_number_safe`: nodata when the velocity matches it; the resolutions are never checked. */
  function CalculateCourantNumberSafe(velocity: real, timeResolution: real, spaceResolution: real,
                                      nodata: real, tolerance: real): (r: real)
    requires !AreEqual(velocity, nodata, tolerance) ==> spaceResolution != 0.0
    ensures AreEqual(velocity, nodata, tolerance) ==> r == nodata
    ensures !AreEqual(velocity, nodata, tolerance) ==>
              r == CalculateCourantNumber(velocity, timeResolution, spaceResolution)
  {
    if AreEqual(velocity, nodata, tolerance) then nodata
    else CalculateCourantNumber(velocity, timeResolution, spaceResolution)
  }

  /** 2-D `calculate_courant_number_safe`: nodata when either velocity component matches it. */
  function CalculateCourantNumber2DSafe(velocityX: real, velocityY: real, timeResolution: real,
                                        spaceXResolution: real, spaceYResolution: real,
                                        nodata: real, tolerance: real): (r: real)
    requires !AreEqual(velocityX, nodata, tolerance) && !AreEqual(velocityY, nodata, tolerance) ==>
               spaceXResolution != 0.0 && spaceYResolution != 0.0
    ensures AreEqual(velocityX, nodata, tolerance) || AreEqual(velocityY, nodata, tolerance) ==> r == nodata
    ensures !AreEqual(velocityX, nodata, tolerance) && !AreEqual(velocityY, nodata, tolerance) ==>
              r == CalculateCourantNumber2D(velocityX, velocityY, timeResolution, spaceXResolution, spaceYResolution)
  {
    if AreEqual(velocityX, nodata, tolerance) || AreEqual(velocityY, nodata, tolerance) then nodata
    else CalculateCourantNumber(velocityX, timeResolution, spaceXResolution) +
         CalculateCourantNumber(velocityY, timeResolution, spaceYResolution)
  }

  /** The Courant number times the cell size is the distance travelled in one time step. */
  lemma CourantNumberTimesCellSize(velocity: real, timeResolution: real, spaceResolution: real)
    requires spaceResolution != 0.0
    ensures CalculateCourantNumber(velocity, timeResolution, spaceResolution) * spaceResolution
            == velocity * timeResolution
  {
  }

  /** Flow along one axis only: the 2-D number reduces to the 1-D one along that axis. */
  lemma CourantNumber2DAlongAxis(velocity: real, timeResolution: real, spaceXResolution: real, spaceYResolution: real)
    requires spaceXResolution != 0.0 && spaceYResolution != 0.0
    ensures CalculateCourantNumber2D(velocity, 0.0, timeResolution, spaceXResolution, spaceYResolution)
            == CalculateCourantNumber(velocity, timeResolution, spaceXResolution)
    ensures CalculateCourantNumber2D(0.0, velocity, timeResolution, spaceXResolution, spaceYResolution)
            == CalculateCourantNumber(velocity, timeResolution, spaceYResolution)
  {
  }

  // ---------------------------------------------------------------------
  // Flood hazard rating

  /** `calculate_flood_hazard_rating` as written: depth + (velocity + const_coef) + debris_coef. */
  function CalculateFloodHazardRating(depth: real, velocity: real, constCoef: real, debrisCoef: real): real {
    depth + (velocity + constCoef) + debrisCoef
  }

  /** `calculate_flood_hazard_rating_safe`: nodata when the velocity or the depth matches it. */
  function CalculateFloodHazardRatingSafe(depth: real, velocity: real, constCoef: real, debrisCoef: real,
                                          nodata: real, tolerance: real): (r: real)
    ensures AreEqual(velocity, nodata, tolerance) || AreEqual(depth, nodata, tolerance) ==> r == nodata
    ensures !AreEqual(velocity, nodata, tolerance) && !AreEqual(depth, nodata, tolerance) ==>
              r == CalculateFloodHazardRating(depth, velocity, constCoef, debrisCoef)
  {
    if AreEqual(velocity, nodata, tolerance) || AreEqual(depth, nodata, tolerance) then nodata
    else CalculateFloodHazardRating(depth, velocity, constCoef, debrisCoef)
  }

  /** The hazard rating of the flood-risks-to-people method: depth * (velocity + const_coef) + debris_coef. */
  function FloodHazardRating(depth: real, velocity: real, constCoef: real, debrisCoef: real): real {
    depth * (velocity + constCoef) + debrisCoef
  }

  /**
   * As written, a dry cell (depth 0) in a 2 m/s flow with the usual 0.5 constant
   * and no debris is rated 2.5; the method rates it 0.
   */
  lemma HazardRatingOfDryCell()
    ensures CalculateFloodHazardRating(0.0, 2.0, 0.5, 0.0) == 2.5
    ensures FloodHazardRating(0.0, 2.0, 0.5, 0.0) == 0.0
  {
  }

  /**
   * For all inputs: the formula as written exceeds the method's by
   * depth + (velocity + const_coef) - depth * (velocity + const_coef), so the
   * two agree exactly when that sum equals that product.
   */
  lemma HazardRatingAsWrittenVersusMethod(depth: real, velocity: real, constCoef: real, debrisCoef: real)
    ensures CalculateFloodHazardRating(depth, velocity, constCoef, debrisCoef)
            - FloodHazardRating(depth, velocity, constCoef, debrisCoef)
            == depth + (velocity + constCoef) - depth * (velocity + constCoef)
    ensures CalculateFloodHazardRating(depth, velocity, constCoef, debrisCoef)
            == FloodHazardRating(depth, velocity, constCoef, debrisCoef)
            <==> depth + (velocity + constCoef) == depth * (velocity + constCoef)
  {
  }

  /** Under the method's formula a dry cell carries only the debris penalty, whatever the velocity. */
  lemma DryCellHazardIsDebrisOnly(velocity: real, constCoef: real, debrisCoef: real)
    ensures FloodHazardRating(0.0, velocity, constCoef, debrisCoef) == debrisCoef
  {
  }

  /** Under the method's formula the rating grows with depth whenever velocity + const_coef is not negative. */
  lemma HazardRatingMonotoneInDepth(d1: real, d2: real, velocity: real, constCoef: real, debrisCoef: real)
    requires d1 <= d2 && 0.0 <= velocity + constCoef
    ensures FloodHazardRating(d1, velocity, constCoef, debrisCoef) <= FloodHazardRating(d2, velocity, constCoef, debrisCoef)
  {
    var k := velocity + constCoef;
    assert FloodHazardRating(d2, velocity, constCoef, debrisCoef) - FloodHazardRating(d1, velocity, constCoef, debrisCoef)
           == (d2 - d1) * k;
    NonNegativeProduct(d2 - d1, k);
  }

  lemma NonNegativeProduct(a: real, b: real)
    requires 0.0 <= a && 0.0 <= b
    ensures 0.0 <= a * b
  {
  }

  // ---------------------------------------------------------------------
  // Debris coefficient

  /** `calculate_debris_coefficient`: the piecewise land-cover debris penalty. */
  function CalculateDebrisCoefficient(depth: real, velocity: real, debrisCharacterisation: int): (r: real)
    ensures r == 0.0 || r == 0.5 || r == 1.0
  {
    if depth > 0.75 || velocity > 2.0 then
      if debrisCharacterisation == DebrisPastureArable then 0.5
      else if debrisCharacterisation == DebrisWoodland || debrisCharacterisation == DebrisUrban then 1.0
      else 0.0
    else if 0.0 <= depth && depth <= 0.25 then
      0.0
    else if 0.25 < depth && depth <= 0.75 then
      if debrisCharacterisation == DebrisPastureArable then 0.0
      else if debrisCharacterisation == DebrisWoodland then 0.5
      else if debrisCharacterisation == DebrisUrban then 1.0
      else 0.0
    else
      0.0
  }

  /** The severity bands of the debris table: 0 low, 1 mid, 2 high. */
  function DebrisBand(depth: real, velocity: real): (band: nat)
    ensures band <= 2
    ensures band == 2 <==> 0.75 < depth || 2.0 < velocity
    ensures band == 1 <==> depth <= 0.75 && velocity <= 2.0 && 0.25 < depth
  {
    if 0.75 < depth || 2.0 < velocity then 2
    else if 0.25 < depth then 1
    else 0
  }

  /** The debris table, one row per land cover, one column per band; unrecognised codes score 0 throughout. */
  function DebrisTable(debrisCharacterisation: int): (row: seq<real>)
    ensures |row| == 3
    ensures forall band :: 0 <= band < 3 ==> row[band] == 0.0 || row[band] == 0.5 || row[band] == 1.0
    ensures row[0] <= row[1] <= row[2]
  {
    if debrisCharacterisation == DebrisPastureArable then [0.0, 0.0, 0.5]
    else if debrisCharacterisation == DebrisWoodland then [0.0, 0.5, 1.0]
    else if debrisCharacterisation == DebrisUrban then [0.0, 1.0, 1.0]
    else [0.0, 0.0, 0.0]
  }

  /**
   * For every input the classifier is the table lookup. A negative depth at
   * low velocity falls in the low band, whose entry is 0 for every land cover.
   */
  lemma DebrisCoefficientIsTableLookup(depth: real, velocity: real, debrisCharacterisation: int)
    ensures CalculateDebrisCoefficient(depth, velocity, debrisCharacterisation)
            == DebrisTable(debrisCharacterisation)[DebrisBand(depth, velocity)]
    ensures depth < 0.0 && velocity <= 2.0 ==> CalculateDebrisCoefficient(depth, velocity, debrisCharacterisation) == 0.0
  {
  }

  /** The band edges: 0.25 and 0.75 close their bands, 2 m/s is not yet high velocity. */
  lemma DebrisBoundaryScenarios()
    ensures CalculateDebrisCoefficient(0.75, 0.0, DebrisWoodland) == 0.5
    ensures CalculateDebrisCoefficient(0.751, 0.0, DebrisWoodland) == 1.0
    ensures CalculateDebrisCoefficient(0.25, 0.0, DebrisUrban) == 0.0
    ensures CalculateDebrisCoefficient(0.2501, 0.0, DebrisUrban) == 1.0
    ensures CalculateDebrisCoefficient(0.0, 2.0, DebrisPastureArable) == 0.0
    ensures CalculateDebrisCoefficient(0.0, 2.0001, DebrisPastureArable) == 0.5
    ensures CalculateDebrisCoefficient(-1.0, 0.0, DebrisUrban) == 0.0
    ensures CalculateDebrisCoefficient(0.5, 0.0, 7) == 0.0
  {
  }

  /** Deeper water never lowers the debris coefficient. */
  lemma DebrisMonotoneInDepth(d1: real, d2: real, velocity: real, debrisCharacterisation: int)
    requires d1 <= d2
    ensures CalculateDebrisCoefficient(d1, velocity, debrisCharacterisation)
            <= CalculateDebrisCoefficient(d2, velocity, debrisCharacterisation)
  {
  }

  /** Faster flow never lowers the debris coefficient. */
  lemma DebrisMonotoneInVelocity(depth: real, v1: real, v2: real, debrisCharacterisation: int)
    requires v1 <= v2
    ensures CalculateDebrisCoefficient(depth, v1, debrisCharacterisation)
            <= CalculateDebrisCoefficient(depth, v2, debrisCharacterisation)
  {
  }

  /** In every band pasture scores at most woodland, and woodland at most urban. */
  lemma DebrisOrderedByLandCover(depth: real, velocity: real)
    ensures CalculateDebrisCoefficient(depth, velocity, DebrisPastureArable)
            <= CalculateDebrisCoefficient(depth, velocity, DebrisWoodland)
            <= CalculateDebrisCoefficient(depth, velocity, DebrisUrban)
  {
  }
}
