/** Turning the forecast service's reply into the forecast series. */
module Forecasting {
  import opened Inputs
  import opened Units

  /** The two forecast globals: timestamps and panel power, kept side by side
      but never forced to the same length. */
  datatype Forecast = Forecast(times: seq<Instant>, power: seq<real>)

  const NoForecast: Forecast := Forecast([], [])

  /** `[datetime.fromisoformat(t) for t in times]`: every entry parsed, or
      `None` as soon as one is rejected. */
  function ParseTimes(times: seq<Option<Instant>>): (r: Option<seq<Instant>>)
    ensures r.Some? <==> forall k :: 0 <= k < |times| ==> times[k].Some?
    ensures r.Some? ==>
      |r.value| == |times| &&
      forall k :: 0 <= k < |times| ==> r.value[k] == times[k].value
    decreases |times|
  {
    if times == [] then Some([])
    else match times[0]
      case None => None
      case Some(t) =>
        match ParseTimes(times[1..])
        case None => None
        case Some(rest) => Some([t] + rest)
  }

  /** `[ir * PANEL_AREA * PANEL_EFFICIENCY for ir in irradiances]`: every
      value converted, or `None` as soon as one is not a number. */
  function PanelPowers(irradiances: seq<Reading>): (r: Option<seq<real>>)
    ensures r.Some? <==> forall k :: 0 <= k < |irradiances| ==> irradiances[k].Number?
    ensures r.Some? ==>
      |r.value| == |irradiances| &&
      forall k :: 0 <= k < |irradiances| ==> r.value[k] == irradiances[k].x * 3.0 / 40.0
    decreases |irradiances|
  {
    if irradiances == [] then Some([])
    else match irradiances[0]
      case NotNumber => None
      case Number(ir) =>
        match PanelPowers(irradiances[1..])
        case None => None
        case Some(rest) => Some([PanelPower(ir)] + rest)
  }

  /** The forecast a reply yields, or `None` when `fetch_forecast` would
      raise. An absent `hourly`, `time` or `shortwave_radiation` reads as
      an empty list. */
  function Parse(reply: Reply): (r: Option<Forecast>)
    ensures reply.Unavailable? ==> r.None?
    ensures reply.Decoded? ==>
      (r.Some? <==>
        ParseTimes(reply.times.GetOr([])).Some? && PanelPowers(reply.irradiances.GetOr([])).Some?)
    ensures r.Some? ==>
      r.value.times == ParseTimes(reply.times.GetOr([])).value &&
      r.value.power == PanelPowers(reply.irradiances.GetOr([])).value
  {
    match reply
    case Unavailable => None
    case Decoded(times, irradiances) =>
      match ParseTimes(times.GetOr([]))
      case None => None
      case Some(ts) =>
        match PanelPowers(irradiances.GetOr([]))
        case None => None
        case Some(ps) => Some(Forecast(ts, ps))
  }

  /** The forecast after `fetch_forecast`: the parsed reply, or nothing. */
  function Refresh(reply: Reply): (f: Forecast)
    // success: one power value per irradiance value, in order
    ensures Parse(reply).Some? ==>
      |f.power| == |reply.irradiances.GetOr([])| &&
      forall k :: 0 <= k < |f.power| ==> f.power[k] == reply.irradiances.GetOr([])[k].x * 3.0 / 40.0
    ensures Parse(reply).Some? ==>
      |f.times| == |reply.times.GetOr([])| &&
      forall k :: 0 <= k < |f.times| ==> f.times[k] == reply.times.GetOr([])[k].value
    // failure: both series empty, never a mix of old and new
    ensures Parse(reply).None? ==> f.times == [] && f.power == []
  {
    Parse(reply).GetOr(NoForecast)
  }

  /** The two series are not truncated to a common length: a reply with
      three timestamps and two irradiance values yields three and two. */
  lemma UnequalLengthsKept(t0: Instant, t1: Instant, t2: Instant)
    ensures Refresh(Decoded(Some([Some(t0), Some(t1), Some(t2)]),
                            Some([Number(100.0), Number(200.0)])))
         == Forecast([t0, t1, t2], [7.5, 15.0])
  {
  }

  /** One unparseable timestamp, anywhere in the list, clears both series,
      whatever the irradiances. */
  lemma BadTimestampClears(ts: seq<Option<Instant>>, k: int, irradiances: Option<seq<Reading>>)
    requires 0 <= k < |ts| && ts[k].None?
    ensures Refresh(Decoded(Some(ts), irradiances)) == NoForecast
  {
  }

  /** A reply without an `hourly` object is a successful, empty forecast. */
  lemma MissingHourlyIsEmpty()
    ensures Parse(Decoded(None, None)) == Some(NoForecast)
  {
  }
}
