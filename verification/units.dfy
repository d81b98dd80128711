/** Conversion of raw 10-bit ADC codes into physical units. Real arithmetic is
    exact here; the program's floating-point rounding is not modelled. */
module Units {

  /** Full-scale ADC code. */
  const AdcMax: real := 1023.0
  /** Reference voltage of the microcontroller's ADC. */
  const VoltageRef: real := 5.0
  /** Resistive divider in front of the ADC input. */
  const R1: real := 120.0
  const R2: real := 220.0
  const DividerRatio: real := (R1 + R2) / R2
  /** Empirical calibration factor of the power estimate. */
  const PowerScale: real := 10.0
  /** Panel geometry used for the forecast power. */
  const PanelArea: real := 0.5
  const PanelEfficiency: real := 0.15

  /** Panel voltage at full-scale ADC code: 5 V times 340/220. */
  const FullScaleVoltage: real := 85.0 / 11.0

  /** Panel voltage for a raw voltage code: the ADC reading scaled to the
      reference voltage, then undone through the divider. No clamping. */
  function Voltage(raw: real): (v: real)
    ensures v == raw * FullScaleVoltage / AdcMax
    ensures v >= 0.0 <==> raw >= 0.0
    ensures v == 0.0 <==> raw == 0.0
  {
    (raw / AdcMax) * VoltageRef * DividerRatio
  }

  /** Estimated power: the voltage times the illuminance normalised to the
      ADC range, times the calibration factor. No clamping. */
  function Power(voltage: real, illuminanceRaw: real): (p: real)
    ensures voltage >= 0.0 && illuminanceRaw >= 0.0 ==> p >= 0.0
    ensures illuminanceRaw == AdcMax ==> p == PowerScale * voltage
    ensures illuminanceRaw == 0.0 || voltage == 0.0 ==> p == 0.0
  {
    var normalized := illuminanceRaw / AdcMax;
    assert voltage * normalized * PowerScale == (voltage * illuminanceRaw) * (PowerScale / AdcMax);
    voltage * normalized * PowerScale
  }

  /** Forecast power of one irradiance value over the panel. */
  function PanelPower(irradiance: real): (p: real)
    ensures p == irradiance * 3.0 / 40.0
    ensures p >= 0.0 <==> irradiance >= 0.0
  {
    irradiance * PanelArea * PanelEfficiency
  }

  /** The voltage never decreases as the raw code grows. */
  lemma VoltageMonotone(a: real, b: real)
    requires a <= b
    ensures Voltage(a) <= Voltage(b)
  {
  }

  /** The end points of the ADC range. */
  lemma VoltageEndPoints()
    ensures Voltage(0.0) == 0.0
    ensures Voltage(AdcMax) == FullScaleVoltage
  {
  }

  /** Negative raw codes pass straight through the arithmetic. */
  lemma NegativeCodesNotClamped(raw: real, illuminanceRaw: real)
    requires raw < 0.0 && illuminanceRaw > 0.0
    ensures Voltage(raw) < 0.0
    ensures Power(Voltage(raw), illuminanceRaw) < 0.0
  {
  }

  /** Power grows with illuminance at a fixed non-negative voltage. */
  lemma PowerMonotone(voltage: real, a: real, b: real)
    requires voltage >= 0.0 && a <= b
    ensures Power(voltage, a) <= Power(voltage, b)
  {
    var x, y := voltage * a, voltage * b;
    assert x <= y;
    assert Power(voltage, a) == x * (10.0 / 1023.0);
    assert Power(voltage, b) == y * (10.0 / 1023.0);
  }

  /** A frame reading 512 on the voltage channel and full scale on the
      illuminance channel. */
  lemma HalfScaleFrame()
    ensures Voltage(512.0) == 43520.0 / 11253.0
    ensures Power(Voltage(512.0), AdcMax) == 435200.0 / 11253.0
  {
  }
}
