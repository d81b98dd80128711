/** What each refresh of the dashboard reads: the current values, the last
    fifty points of each history, and the forecast when there is one. */
module Display {
  import opened Inputs
  import opened Units
  import opened Ingest
  import opened Forecasting

  /** Number of history points plotted. */
  const WindowSize: nat := 50

  function Min(a: int, b: int): (m: int)
    ensures m <= a && m <= b && (m == a || m == b)
  {
    if a <= b then a else b
  }

  /** Python's `h[start:]`, with a negative start counted from the end and
      clipped to the sequence. */
  function SliceFrom<T>(h: seq<T>, start: int): (r: seq<T>)
    ensures |r| <= |h|
  {
    var i := if start < 0 then (if |h| + start < 0 then 0 else |h| + start)
             else (if start > |h| then |h| else start);
    h[i..]
  }

  /** `h[-50:]`: the last fifty elements, oldest first, or all of them. */
  function Window<T>(h: seq<T>): (w: seq<T>)
    ensures |w| == Min(WindowSize, |h|)
    ensures forall k :: 0 <= k < |w| ==> w[k] == h[|h| - |w| + k]
    ensures |h| <= WindowSize ==> w == h
  {
    SliceFrom(h, -(WindowSize as int))
  }

  /** What one refresh reads. `forecastPlot` is what is passed to the
      forecast plot call, `None` when the call is skipped. */
  datatype Dashboard = Dashboard(
    voltage: real,
    illuminance: Reading,
    power: real,
    mode: string,
    voltagePlot: seq<real>,
    powerPlot: seq<real>,
    illuminancePlot: seq<real>,
    forecastPlot: Option<Forecast>)

  /** The forecast is passed to the plot call only when both series are non-empty. */
  predicate ShowsForecast(f: Forecast) {
    f.times != [] && f.power != []
  }

  function Render(s: Sensors, f: Forecast): (d: Dashboard)
    ensures d.voltage == s.voltage && d.illuminance == s.illuminance
    ensures d.power == s.power && d.mode == s.mode
    ensures d.forecastPlot.Some? <==> ShowsForecast(f)
    ensures d.forecastPlot.Some? ==> d.forecastPlot.value == f
    ensures d.voltagePlot == Window(s.voltageHistory)
    ensures d.powerPlot == Window(s.powerHistory)
    ensures d.illuminancePlot == Window(s.illuminanceHistory)
    ensures LockStep(s) ==>
      |d.voltagePlot| == |d.powerPlot| == |d.illuminancePlot| == Min(WindowSize, |s.voltageHistory|)
  {
    Dashboard(s.voltage, s.illuminance, s.power, s.mode,
              Window(s.voltageHistory), Window(s.powerHistory), Window(s.illuminanceHistory),
              if ShowsForecast(f) then Some(f) else None)
  }

  /** The three plotted windows line up: point k of the power plot is the
      power of points k of the voltage and illuminance plots. */
  lemma WindowsAligned(s: Sensors, k: int)
    requires Consistent(s)
    requires 0 <= k < |Render(s, NoForecast).powerPlot|
    ensures Render(s, NoForecast).powerPlot[k] ==
      Power(Render(s, NoForecast).voltagePlot[k], Render(s, NoForecast).illuminancePlot[k])
  {
  }

  /** Appending to a full window drops its oldest point. */
  lemma WindowAppend<T>(h: seq<T>, x: T)
    ensures Window(h + [x]) == if |h| < WindowSize then h + [x] else Window(h)[1..] + [x]
  {
  }

  /** After sixty samples the plot holds the most recent fifty, oldest first. */
  lemma SixtySamples(h: seq<real>)
    requires |h| == 60
    ensures Window(h) == h[10..]
  {
  }

  /** The non-empty guard does not compare lengths: a forecast whose two
      series differ in length is still passed to the plot call. */
  lemma GuardIgnoresLengths(s: Sensors, f: Forecast)
    requires ShowsForecast(f) && |f.times| != |f.power|
    ensures Render(s, f).forecastPlot == Some(f)
  {
  }
}
