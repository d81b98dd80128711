/** The program's module-level state and the three routines that touch it:
    the serial reader, the forecast fetch and the dashboard refresh. */
module Monitor {
  import opened Inputs
  import opened Units
  import opened Ingest
  import opened Forecasting
  import opened Display

  class SolarMonitor {
    var currentVoltage: real
    var currentIlluminance: Reading
    var currentMode: string
    var currentPower: real
    var forecastTimes: seq<Instant>
    var forecastPower: seq<real>
    var voltageHistory: seq<real>
    var powerHistory: seq<real>
    var illuminanceHistory: seq<real>

    /** The live readings and histories as one value. */
    function Telemetry(): Sensors
      reads this
    {
      Sensors(currentVoltage, currentIlluminance, currentMode, currentPower,
              voltageHistory, powerHistory, illuminanceHistory)
    }

    /** The two forecast series as one value. */
    function CurrentForecast(): Forecast
      reads this
    {
      Forecast(forecastTimes, forecastPower)
    }

    /** The histories advance in lock-step and agree entry by entry. */
    ghost predicate Valid()
      reads this
    {
      Consistent(Telemetry())
    }

    /** The globals as the program declares them. */
    constructor ()
      ensures Valid()
      ensures Telemetry() == Initial
      ensures CurrentForecast() == NoForecast
    {
      currentVoltage := 0.0;
      currentIlluminance := Number(0.0);
      currentMode := UnknownMode;
      currentPower := 0.0;
      forecastTimes := [];
      forecastPower := [];
      voltageHistory := [];
      powerHistory := [];
      illuminanceHistory := [];
    }

    /** One iteration of the read loop on one line. `pauses` tells whether
        the iteration ends with the one-second sleep: a blank line goes
        straight back to `readline`, every other line sleeps, whether it
        succeeded or raised. */
    method ProcessFrame(line: Line) returns (pauses: bool)
      requires Valid()
      modifies this
      ensures Valid()
      ensures Telemetry() == Step(old(Telemetry()), line)
      ensures CurrentForecast() == old(CurrentForecast())
      ensures pauses <==> !line.Blank?
    {
      match line
      case Blank =>
        return false;
      case Unreadable =>
        return true;
      case NotJson =>
        return true;
      case NotObject =>
        return true;
      case Object(voltageField, illuminanceField, modeField) =>
        var voltageRaw := voltageField.GetOr(Number(0.0));
        var illuminanceRaw := illuminanceField.GetOr(Number(0.0));
        currentMode := modeField.GetOr(UnknownMode);
        if voltageRaw.NotNumber? {
          return true;
        }
        var measuredVoltage := (voltageRaw.x / AdcMax) * VoltageRef;
        currentVoltage := measuredVoltage * DividerRatio;
        assert currentVoltage == Voltage(voltageRaw.x);
        currentIlluminance := illuminanceRaw;
        if illuminanceRaw.NotNumber? {
          return true;
        }
        var normalizedIlluminance := illuminanceRaw.x / AdcMax;
        currentPower := currentVoltage * normalizedIlluminance * PowerScale;
        assert currentPower == Power(currentVoltage, illuminanceRaw.x);
        voltageHistory := voltageHistory + [currentVoltage];
        powerHistory := powerHistory + [currentPower];
        illuminanceHistory := illuminanceHistory + [illuminanceRaw.x];
        return true;
    }

    /** The reader thread over the lines it receives, in order. When the
        port cannot be opened the thread ends before reading anything. */
    method ReadSerial(portOpen: bool, lines: seq<Line>)
      requires Valid()
      modifies this
      ensures Valid()
      ensures Telemetry() == if portOpen then Run(old(Telemetry()), lines) else old(Telemetry())
      ensures CurrentForecast() == old(CurrentForecast())
    {
      if !portOpen {
        return;
      }
      var i := 0;
      while i < |lines|
        invariant 0 <= i <= |lines|
        invariant Valid()
        invariant Telemetry() == Run(old(Telemetry()), lines[..i])
        invariant CurrentForecast() == old(CurrentForecast())
      {
        var pauses := ProcessFrame(lines[i]);
        assert lines[..i + 1][..i] == lines[..i];
        i := i + 1;
      }
      assert lines[..i] == lines;
    }

    /** `fetch_forecast`: the times are rebound first, the power second, and
        any failure clears both. */
    method FetchForecast(reply: Reply)
      modifies this
      ensures CurrentForecast() == Refresh(reply)
      ensures Telemetry() == old(Telemetry())
    {
      match reply
      case Unavailable =>
        forecastTimes, forecastPower := [], [];
      case Decoded(times, irradiances) =>
        var parsedTimes := ParseTimes(times.GetOr([]));
        if parsedTimes.None? {
          forecastTimes, forecastPower := [], [];
          return;
        }
        forecastTimes := parsedTimes.value;
        var panelPowers := PanelPowers(irradiances.GetOr([]));
        if panelPowers.None? {
          forecastTimes, forecastPower := [], [];
          return;
        }
        forecastPower := panelPowers.value;
    }

    /** What one refresh of the dashboard reads. */
    method UpdateGui() returns (d: Dashboard)
      ensures d == Render(Telemetry(), CurrentForecast())
    {
      d := Render(Telemetry(), CurrentForecast());
    }
  }
}
