/** Carbon dioxide properties and its saturation-pressure curve
    (legacy_files/co2.py). */
module Co2 {
  import opened ArrayMath
  import opened UnitConversion

  /** Grams per mole. */
  const MolecularWeight: real := 44.01
  /** The ideal gas law wants kilograms per mole. */
  const MolecularWeightKgPerMol: real := MolecularWeight / 1000.0
  const MolesPerKg: real := 1.0 / MolecularWeightKgPerMol

  /** A point of the phase diagram: temperature in kelvin, pressure in pascal. */
  datatype PhasePoint = PhasePoint(temperature: real, pressure: real)

  const CriticalPoint: PhasePoint := PhasePoint(304.25, 7390000.0)
  const TriplePoint: PhasePoint := PhasePoint(216.55, 520000.0)

  /** A kilogram holds 1000 / 44.01 moles. */
  lemma MolesPerKgValue()
    ensures MolesPerKg * MolecularWeight == 1000.0
  {
  }

  /** The triple point lies below the critical point in temperature and pressure. */
  lemma TripleBelowCritical()
    ensures TriplePoint.temperature < CriticalPoint.temperature
    ensures TriplePoint.pressure < CriticalPoint.pressure
  {
  }

  /** The fitted absolute saturation pressure in psia at a temperature in
      degrees Fahrenheit: the fifth-degree polynomial with its constant term. */
  function SaturationPsia(temperatureF: real): real
  {
    var t := temperatureF;
    1.1635637728e-08 * t * t * t * t * t
    - 1.6992139721e-06 * t * t * t * t
    + 1.9013071825e-04 * t * t * t
    + 2.8833919357e-02 * t * t
    + 5.1692662848 * t
    + 305.68236164
  }

  /** The same polynomial in Horner form, an independent definition. */
  function SaturationPsiaHorner(t: real): real
  {
    ((((1.1635637728e-08 * t - 1.6992139721e-06) * t + 1.9013071825e-04) * t
      + 2.8833919357e-02) * t + 5.1692662848) * t + 305.68236164
  }

  lemma SaturationPsiaIsHorner(t: real)
    ensures SaturationPsia(t) == SaturationPsiaHorner(t)
  {
  }

  /** co2_vapourisation_condensation_pressure: the fit turned into gauge pressure. */
  function Co2VapourisationCondensationPressure(temperatureF: real): (pressurePsig: real)
    ensures pressurePsig + AtmospherePsi == SaturationPsia(temperatureF)
  {
    SaturationPsia(temperatureF) - 14.696
  }

  /** vapourisation_condensation_pressure: kelvin in, pascal out, through
      Fahrenheit and psig. The atmosphere the fit subtracts is added back by
      the psig conversion, so the result is the absolute fit converted from psi
      to pascal. */
  function VapourisationCondensationPressure(temperature: real): (pressure: real)
    ensures pressure * PsiPerBar == SaturationPsia(KToF(temperature)) * PascalPerBar
  {
    PsigToPascal(Co2VapourisationCondensationPressure(KToF(temperature)))
  }

  /** At the critical temperature the curve lies within 6 kPa of the critical pressure. */
  lemma CurveMeetsCriticalPoint()
    ensures CriticalPoint.pressure < VapourisationCondensationPressure(CriticalPoint.temperature) < CriticalPoint.pressure + 6000.0
  {
    assert KToF(304.25) == 87.98;
  }

  /** At the triple-point temperature the fit is outside its range: the curve
      gives a negative pressure there, not the triple-point pressure. */
  lemma CurveBelowZeroAtTriplePoint()
    ensures VapourisationCondensationPressure(TriplePoint.temperature) < 0.0
  {
    assert KToF(216.55) == -69.88;
  }

  /** vapourisation_condensation_pressure_line: the curve at each temperature, in order. */
  method VapourisationCondensationPressureLine(temperatures: seq<real>) returns (pressures: seq<real>)
    ensures |pressures| == |temperatures|
    ensures forall i :: 0 <= i < |temperatures| ==>
              pressures[i] == VapourisationCondensationPressure(temperatures[i])
  {
    pressures := [];
    for i := 0 to |temperatures|
      invariant |pressures| == i
      invariant forall k :: 0 <= k < i ==> pressures[k] == VapourisationCondensationPressure(temperatures[k])
    {
      var pressure := VapourisationCondensationPressure(temperatures[i]);
      pressures := pressures + [pressure];
    }
  }

  /** The temperatures of the plotted boundary: 25 points from the triple point
      to the critical point, both included. */
  function BoundaryTemperatures(): (x: seq<real>)
    ensures |x| == 25
    ensures x[0] == TriplePoint.temperature && x[24] == CriticalPoint.temperature
  {
    Linspace(TriplePoint.temperature, CriticalPoint.temperature, 25)
  }

  /** The boundary temperatures rise strictly and stay between the two points. */
  lemma BoundaryTemperaturesIncrease(i: nat, j: nat)
    requires i < j < 25
    ensures BoundaryTemperatures()[i] < BoundaryTemperatures()[j]
    ensures TriplePoint.temperature <= BoundaryTemperatures()[i] < CriticalPoint.temperature
  {
    LinspaceIncreasing(TriplePoint.temperature, CriticalPoint.temperature, 25, i, j);
    if i > 0 {
      LinspaceIncreasing(TriplePoint.temperature, CriticalPoint.temperature, 25, 0, i);
    }
    LinspaceIncreasing(TriplePoint.temperature, CriticalPoint.temperature, 25, i, 24);
  }

  /** The data of plot_vapourisation_condensation_pressure_line: the sampled
      temperatures and the curve at each of them. */
  method VapourisationCondensationPressureBoundary() returns (x: seq<real>, y: seq<real>)
    ensures x == BoundaryTemperatures()
    ensures |y| == 25
    ensures forall i :: 0 <= i < 25 ==> y[i] == VapourisationCondensationPressure(x[i])
  {
    x := Linspace(TriplePoint.temperature, CriticalPoint.temperature, 25);
    y := VapourisationCondensationPressureLine(x);
  }
}
