/** Temperature and pressure unit conversions (legacy_files/utility.py). */
module UnitConversion {

  /** Gauge pressure is measured against one standard atmosphere, in psi. */
  const AtmospherePsi: real := 14.696
  /** Pounds per square inch in one bar. */
  const PsiPerBar: real := 14.503773800722
  const PascalPerBar: real := 100000.0

  /** convert_K_to_F: Kelvin to degrees Fahrenheit; undone by FToK. */
  function KToF(temperatureK: real): (temperatureF: real)
    ensures FToK(temperatureF) == temperatureK
  {
    (temperatureK - 273.15) * 1.8 + 32.0
  }

  /** convert_F_to_K: degrees Fahrenheit to Kelvin; undone by KToF. */
  function FToK(temperatureF: real): (temperatureK: real)
    ensures (temperatureK - 273.15) * 1.8 + 32.0 == temperatureF
  {
    (temperatureF + 459.67) * 5.0 / 9.0
  }

  /** The other direction of the round trip. */
  lemma KToFInvertsFToK(temperatureF: real)
    ensures KToF(FToK(temperatureF)) == temperatureF
  {
  }

  /** The freezing point of water. */
  lemma FreezingPoint()
    ensures KToF(273.15) == 32.0 && FToK(32.0) == 273.15
  {
  }

  /** convert_psig_to_pascal: add one atmosphere to get absolute psi, then
      convert psi to bar and bar to pascal. */
  function PsigToPascal(pressurePsig: real): (pressurePascal: real)
    ensures pressurePascal * PsiPerBar == (pressurePsig + AtmospherePsi) * PascalPerBar
  {
    var pressurePsia := pressurePsig + AtmospherePsi;
    var pressureBar := pressurePsia / PsiPerBar;
    pressureBar * PascalPerBar
  }

  /** The conversion is strictly increasing. */
  lemma PsigToPascalIncreasing(p: real, q: real)
    requires p < q
    ensures PsigToPascal(p) < PsigToPascal(q)
  {
    assert PsigToPascal(q) - PsigToPascal(p) == (q - p) / PsiPerBar * PascalPerBar;
  }

  /** Zero gauge pressure is one standard atmosphere: with these constants it is
      101325.35 Pa, within half a pascal of 101325. */
  lemma ZeroGaugeIsOneAtmosphere()
    ensures 101325.0 < PsigToPascal(0.0) < 101325.5
  {
  }
}
