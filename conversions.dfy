/**
 * Unit and angle conversions: an in-place rescaling of one value and the
 * degree/radian conversions, each with its nodata-guarded variant.
 */
module Conversions {
  import opened Tolerance

  /** The value of `M_PI` from the C math header, as an exact real. */
  const Pi: real := 3.14159265358979323846

  /** `change_unit_system`: multiplies the pointed-to value `val[0]` by the factor in place. */
  method ChangeUnitSystem(val: array<real>, conversionFactor: real)
    requires 1 <= val.Length
    modifies val
    ensures val[0] == old(val[0]) * conversionFactor
    ensures val[1..] == old(val[1..])
  {
    val[0] := val[0] * conversionFactor;
  }

  /** `change_unit_system_safe`: a value that matches nodata is left alone; any other is rescaled. */
  method ChangeUnitSystemSafe(val: array<real>, conversionFactor: real, nodata: real, tolerance: real)
    requires 1 <= val.Length
    modifies val
    ensures AreEqual(old(val[0]), nodata, tolerance) ==> val[..] == old(val[..])
    ensures !AreEqual(old(val[0]), nodata, tolerance) ==>
              val[0] == old(val[0]) * conversionFactor && val[1..] == old(val[1..])
  {
    if AreEqual(val[0], nodata, tolerance) {
      return;
    }
    ChangeUnitSystem(val, conversionFactor);
  }

  /** The three unit-change scenarios of the test suite, set up on one-value buffers. */
  method ChangeUnitSystemScenarios() returns (first: real, second: real, third: real)
    ensures first == 0.33
    ensures second == 999.0
    ensures third == 3.2
  {
    var val1 := new real[1];
    val1[0] := 1.0;
    ChangeUnitSystemSafe(val1, 0.33, 9999.0, 0.001);
    first := val1[0];

    var val2 := new real[1];
    val2[0] := 999.0;
    ChangeUnitSystemSafe(val2, 2.0, 999.0, 0.001);
    second := val2[0];

    var val3 := new real[1];
    val3[0] := 8.0;
    ChangeUnitSystemSafe(val3, 0.4, 999.0, 0.001);
    third := val3[0];
  }

  /** `deg_to_rad`. */
  function DegToRad(deg: real): real {
    deg * Pi / 180.0
  }

  /** `deg_to_rad_safe`: nodata passes through unchanged; anything else is converted. */
  function DegToRadSafe(deg: real, nodata: real, tolerance: real): (r: real)
    ensures AreEqual(deg, nodata, tolerance) ==> r == nodata
    ensures !AreEqual(deg, nodata, tolerance) ==> r == DegToRad(deg)
  {
    if AreEqual(deg, nodata, tolerance) then nodata else DegToRad(deg)
  }

  /** `rad_to_deg`. */
  function RadToDeg(rad: real): real {
    rad * 180.0 / Pi
  }

  /** `rad_to_deg_safe`: nodata passes through unchanged; anything else is converted. */
  function RadToDegSafe(rad: real, nodata: real, tolerance: real): (r: real)
    ensures AreEqual(rad, nodata, tolerance) ==> r == nodata
    ensures !AreEqual(rad, nodata, tolerance) ==> r == RadToDeg(rad)
  {
    if AreEqual(rad, nodata, tolerance) then nodata else RadToDeg(rad)
  }

  /** The two conversions are inverse to each other (exactly, over the reals). */
  lemma AngleRoundTrip(x: real)
    ensures RadToDeg(DegToRad(x)) == x
    ensures DegToRad(RadToDeg(x)) == x
  {
  }

  /** Half a turn in degrees is pi radians, and back. */
  lemma HalfTurn()
    ensures DegToRad(180.0) == Pi
    ensures RadToDeg(Pi) == 180.0
  {
  }

  /** The nodata passthrough scenario: -999 with sentinel -999 stays -999. */
  lemma DegToRadSafeNodataScenario()
    ensures DegToRadSafe(-999.0, -999.0, 0.01) == -999.0
  {
  }
}
