# Solar monitor telemetry model

A Dafny model of the data path of `General_Solar.py`, a small dashboard for a
photovoltaic test rig. A reader thread takes JSON frames from the serial port
(`voltage_raw`, `illuminance_raw`, `mode`), converts the 10-bit ADC codes into
volts and an estimated power, stores them as the "current" readings and appends
them to three histories. A second thread fetches an hourly irradiance forecast
and turns it into a forecast power series, replacing the old one wholesale or
clearing it on any failure. The GUI refresh reads the current values, the last
fifty points of each history and, when both forecast series are non-empty, the
forecast.

Files:

- `inputs.dfy` (module `Inputs`): the decoded inputs. A serial line is already
  classified as blank, unreadable, not JSON, JSON without `.get`, or a frame
  object whose numeric fields are absent, numbers, or something arithmetic
  rejects. A forecast reply is either unavailable or its `time` and
  `shortwave_radiation` lists.
- `units.dfy` (module `Units`): the constants and the voltage, power and
  panel-power formulas over `real`.
- `ingest.dfy` (module `Ingest`): one loop iteration as the pure transition
  `Step` on the telemetry value, the loop over a finite list of lines (`Run`),
  and the lock-step and arrival-order properties of the histories.
- `forecast.dfy` (module `Forecasting`): the two list comprehensions of
  `fetch_forecast` and the all-or-nothing replacement.
- `display.dfy` (module `Display`): the `[-50:]` window and what one GUI
  refresh reads.
- `monitor.dfy` (module `Monitor`): class `SolarMonitor` holding the nine
  module globals, with the loop body, the reader loop, the forecast fetch and
  the GUI read as methods proved against the functions above.

Behaviour of the code worth knowing when reading the model:

- The forecast lists are not truncated to a common length: three timestamps
  with two irradiance values give three times and two power values
  (`UnequalLengthsKept`), and the plot guard only checks that both are
  non-empty (`GuardIgnoresLengths`), so such a forecast is passed to the plot
  call at General_Solar.py:116. There matplotlib raises, `update_gui` exits
  before redrawing and before rescheduling itself, and the dashboard stops
  refreshing; the model stops at the guard.
- Before the first frame the current readings hold the placeholders 0, 0,
  "UNKNOWN" and 0 (`SolarMonitor.constructor`).
- A frame with a non-numeric field is not free of effects: the mode is
  always set, and a numeric voltage followed by a non-numeric illuminance
  also sets the voltage and the illuminance (`Step`). Only the histories and
  the power are left alone.
- A voltage code of 512 with full-scale illuminance gives 43520/11253 V
  (about 3.867 V) and ten times that in watts (`HalfScaleFrame`).
- Raw codes are any JSON numbers, not only integers in [0, 1023], and are
  not clamped: a negative voltage code gives a negative voltage, and with a
  positive illuminance code a negative power (`NegativeCodesNotClamped`);
  with a negative illuminance code as well, the power is positive again.

## Model

| member | source | states |
|---|---|---|
| `Units.Voltage` | General_Solar.py:57-58 | voltage is linear in the raw code with full-scale value 85/11 V at 1023; it is non-negative exactly when the code is, and zero exactly when the code is zero |
| `Units.VoltageMonotone` | General_Solar.py:57-58 | the voltage never decreases as the raw code grows |
| `Units.VoltageEndPoints` | General_Solar.py:27-30 | code 0 gives 0 V and code 1023 gives exactly 5 * 340/220 = 85/11 V |
| `Units.Power` | General_Solar.py:60-61 | power is non-negative for non-negative voltage and illuminance, equals 10 times the voltage at full-scale illuminance, and is zero when either input is zero |
| `Units.PowerMonotone` | General_Solar.py:60-61 | at a fixed non-negative voltage, power never decreases as illuminance grows |
| `Units.NegativeCodesNotClamped` | General_Solar.py:57-61 | a negative voltage code with positive illuminance gives negative voltage and negative power: nothing is clamped |
| `Units.HalfScaleFrame` | General_Solar.py:57-61 | code 512 gives 43520/11253 V, and with full-scale illuminance 435200/11253 W |
| `Units.PanelPower` | General_Solar.py:31-32 | forecast power is 0.075 (0.5 m² times 15 %) of the irradiance and has its sign |
| `Ingest.VoltageRaw` | General_Solar.py:53 | an absent `voltage_raw` reads as the number 0; a present one is taken as given |
| `Ingest.IlluminanceRaw` | General_Solar.py:54 | an absent `illuminance_raw` reads as the number 0; a present one is taken as given |
| `Ingest.SampleOf` | General_Solar.py:57-61 | an accepted frame with non-negative codes gives non-negative voltage and power; the voltage is zero exactly at voltage code zero, and then the power is zero; at full-scale illuminance the power is ten times the voltage |
| `Ingest.Record` | General_Solar.py:63-65 | recording a sample appends exactly the sample's voltage, power and illuminance to the three histories, keeping the earlier entries as a prefix, and leaves the current voltage, illuminance, mode and power as they were; it keeps lock-step histories in lock-step, and consistent ones consistent when the sample's power matches its voltage and illuminance |
| `Ingest.Step` | General_Solar.py:49-70 | a blank or undecodable line changes nothing; a frame object always sets the mode (default "UNKNOWN"); the histories grow by one entry each exactly when both codes are numeric, and then the new entries are the new current voltage, power and raw illuminance; otherwise histories and power are unchanged, and a non-numeric voltage also leaves voltage and illuminance unchanged; consistency of the histories is preserved |
| `Ingest.RunAppendsSamples` | General_Solar.py:47-70 | the contract of the loop `Run`: over any sequence of lines each history equals the old history followed by the accepted frames' samples in arrival order |
| `Ingest.RunConsistent` | General_Solar.py:47-70 | the loop `Run` keeps the histories in lock-step with every power entry the power of the voltage and illuminance entries beside it |
| `Ingest.LockStepGrowth` | General_Solar.py:63-65 | histories of equal length stay equal in length and each grows by the number of accepted frames |
| `Ingest.BadLineThenGoodLine` | General_Solar.py:52-70 | any line that is not accepted, followed by an accepted one, appends exactly the accepted frame's sample to each history |
| `Ingest.EmptyObjectReadsZero` | General_Solar.py:53-61 | a frame object with no keys reads as mode "UNKNOWN", 0 V, 0 W, and appends zeros |
| `Forecasting.ParseTimes` | General_Solar.py:90 | the timestamps parse exactly when every entry parses, and then the list keeps length and order |
| `Forecasting.PanelPowers` | General_Solar.py:91 | the power list exists exactly when every irradiance is a number, and then has the same length with entry k equal to 0.075 times irradiance k |
| `Forecasting.Parse` | General_Solar.py:84-91 | an unavailable reply fails; a decoded reply succeeds exactly when both comprehensions do, giving their two lists |
| `Forecasting.Refresh` | General_Solar.py:87-95 | on success the power list has one entry per irradiance, 0.075 times it, and the times list holds the parsed instants in their order; on any failure both lists are empty |
| `Forecasting.UnequalLengthsKept` | General_Solar.py:87-91 | three timestamps with two irradiances 100 and 200 give three times and the powers 7.5 and 15.0: no truncation |
| `Forecasting.BadTimestampClears` | General_Solar.py:90-95 | one unparseable timestamp at any position clears both lists whatever the irradiances |
| `Forecasting.MissingHourlyIsEmpty` | General_Solar.py:87-88 | a reply without `hourly` is a successful empty forecast |
| `Display.Window` | General_Solar.py:105 | the window has min(50, n) elements, the last ones of the history in their order, and is the whole history when n <= 50 |
| `Display.WindowAppend` | General_Solar.py:105 | appending to a history of 50 or more drops the window's oldest point and adds the new one at the end |
| `Display.SixtySamples` | General_Solar.py:105 | after sixty samples the window is the most recent fifty |
| `Display.Render` | General_Solar.py:98-115 | the labels show the current values; the forecast is passed to the plot call exactly when both series are non-empty, and then unchanged; the three plots are the windows of the three histories, and with lock-step histories they have the same length min(50, n) |
| `Display.WindowsAligned` | General_Solar.py:105-111 | point k of the plotted power is the power of points k of the plotted voltage and illuminance |
| `Display.GuardIgnoresLengths` | General_Solar.py:115-116 | any forecast whose two series are non-empty but of different lengths is still passed to the plot call, unchanged |
| `Monitor.SolarMonitor.constructor` | General_Solar.py:16-24 | the globals start at 0 V, illuminance 0, "UNKNOWN", 0 W, with empty histories and forecast |
| `Monitor.SolarMonitor.ProcessFrame` | General_Solar.py:48-70 | the loop body updates the globals field by field in program order and ends in the state `Step` gives; the forecast is untouched; the iteration sleeps unless the line was blank |
| `Monitor.SolarMonitor.ReadSerial` | General_Solar.py:39-70 | the reader processes the lines in arrival order and ends in `Run` of them, keeping the histories consistent; if the port fails to open nothing changes |
| `Monitor.SolarMonitor.FetchForecast` | General_Solar.py:74-95 | both forecast globals end up as `Refresh` of the reply (the new lists, or both empty); the telemetry is untouched |
| `Monitor.SolarMonitor.UpdateGui` | General_Solar.py:98-124 | a refresh reads exactly `Render` of the current telemetry and forecast |

## Left out

- Opening the serial port, `readline`, UTF-8 decoding and `json.loads`: a line arrives already classified (`Inputs.Line`).
- The HTTP request to the forecast service and `response.json()`: a reply arrives as `Inputs.Reply`; a request failure is `Unavailable`.
- `datetime.fromisoformat`: each time string arrives as a parsed, opaque `Instant` or as rejected.
- A `time` or `shortwave_radiation` value that is a string rather than a list is iterated character by character in Python; the model counts any non-list value as a failed reply.
- A non-string JSON `mode` is stored by the program as it is; the model's mode is a string.
- Floating-point rounding, overflow to infinity and NaN: the arithmetic is exact over `real`. A JSON integer code too large for a float makes `/ 1023.0` raise `OverflowError` at General_Solar.py:57 or :60, so the program skips the power update and the append; the model reads such a code as a `Number` and accepts the frame.
- Threads, the missing lock between them and `time.sleep`: the model is single-threaded. In the program a reader could see the new timestamps beside the old power list, because line 90 rebinds the times before line 91 can fail; `FetchForecast` keeps that order but no concurrent reader is modelled. The one-second pause is reduced to the `pauses` result of `ProcessFrame`.
- The endless `while True` loop is modelled over a finite list of lines (`ReadSerial`, `Run`).
- Logging with `print` in the `except` branches.
- Two forecast lists of different lengths make the plot call at General_Solar.py:116 raise, which ends `update_gui` before it redraws and reschedules itself; the model stops at the guard of line 115 and does not capture that the refresh cycle ends.
- All Tkinter and matplotlib work: window layout, the `:.2f` label formatting, drawing the curves and the `root.after` rescheduling; `Render` keeps only what a refresh reads.
