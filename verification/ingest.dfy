/** One iteration of the serial read loop as a transition on the live
    telemetry, and the loop over a finite prefix of the line stream. */
module Ingest {
  import opened Inputs
  import opened Units

  /** Mode shown when a frame carries no `mode` key. */
  const UnknownMode: string := "UNKNOWN"

  /** The live readings and their three histories. `illuminance` holds the
      raw value exactly as the frame gave it, which may be non-numeric after
      a frame that failed half-way. */
  datatype Sensors = Sensors(
    voltage: real,
    illuminance: Reading,
    mode: string,
    power: real,
    voltageHistory: seq<real>,
    powerHistory: seq<real>,
    illuminanceHistory: seq<real>)

  /** The values the program starts with, before any frame. */
  const Initial: Sensors := Sensors(0.0, Number(0.0), UnknownMode, 0.0, [], [], [])

  /** One converted frame: what a successful iteration appends. */
  datatype Sample = Sample(voltage: real, power: real, illuminance: real)

  /** The raw codes of a frame object, with absent keys read as 0. */
  function VoltageRaw(line: Line): (r: Reading)
    requires line.Object?
    ensures line.voltageRaw.None? ==> r == Number(0.0)
    ensures line.voltageRaw.Some? ==> r == line.voltageRaw.value
  {
    line.voltageRaw.GetOr(Number(0.0))
  }

  function IlluminanceRaw(line: Line): (r: Reading)
    requires line.Object?
    ensures line.illuminanceRaw.None? ==> r == Number(0.0)
    ensures line.illuminanceRaw.Some? ==> r == line.illuminanceRaw.value
  {
    line.illuminanceRaw.GetOr(Number(0.0))
  }

  /** A line that gets through every computation of the iteration. */
  predicate Accepted(line: Line) {
    line.Object? && VoltageRaw(line).Number? && IlluminanceRaw(line).Number?
  }

  /** The sample an accepted line produces. */
  function SampleOf(line: Line): (s: Sample)
    requires Accepted(line)
    // non-negative codes give a non-negative voltage and power
    ensures VoltageRaw(line).x >= 0.0 && IlluminanceRaw(line).x >= 0.0 ==>
      s.voltage >= 0.0 && s.power >= 0.0
    // zero volts exactly at code zero, and then zero watts
    ensures s.voltage == 0.0 <==> VoltageRaw(line).x == 0.0
    ensures s.voltage == 0.0 ==> s.power == 0.0
    // at full-scale illuminance the power is ten times the voltage
    ensures IlluminanceRaw(line).x == AdcMax ==> s.power == PowerScale * s.voltage
  {
    var v := Voltage(VoltageRaw(line).x);
    var i := IlluminanceRaw(line).x;
    Sample(v, Power(v, i), i)
  }

  /** The three histories are as long as each other. */
  predicate LockStep(s: Sensors) {
    |s.voltageHistory| == |s.powerHistory| == |s.illuminanceHistory|
  }

  /** The histories advance in lock-step, and every power entry is the power
      of the voltage and illuminance entries recorded beside it. */
  predicate Consistent(s: Sensors) {
    LockStep(s) &&
    forall k :: 0 <= k < |s.powerHistory| ==>
      s.powerHistory[k] == Power(s.voltageHistory[k], s.illuminanceHistory[k])
  }

  /** The histories after recording one sample. */
  function Record(s: Sensors, x: Sample): (r: Sensors)
    // one entry per history keeps them in lock-step
    ensures LockStep(s) ==> LockStep(r)
    // a sample whose power matches its voltage and illuminance keeps them consistent
    ensures Consistent(s) && x.power == Power(x.voltage, x.illuminance) ==> Consistent(r)
    // each history grows by one entry and keeps its earlier entries as a prefix
    ensures |r.voltageHistory| == |s.voltageHistory| + 1 && s.voltageHistory <= r.voltageHistory
    ensures |r.powerHistory| == |s.powerHistory| + 1 && s.powerHistory <= r.powerHistory
    ensures |r.illuminanceHistory| == |s.illuminanceHistory| + 1 && s.illuminanceHistory <= r.illuminanceHistory
    // the new last entries are the sample's three values
    ensures r.voltageHistory == s.voltageHistory + [x.voltage]
    ensures r.powerHistory == s.powerHistory + [x.power]
    ensures r.illuminanceHistory == s.illuminanceHistory + [x.illuminance]
    // the current readings are left as they were
    ensures r.voltage == s.voltage && r.illuminance == s.illuminance
    ensures r.mode == s.mode && r.power == s.power
  {
    s.(voltageHistory := s.voltageHistory + [x.voltage],
       powerHistory := s.powerHistory + [x.power],
       illuminanceHistory := s.illuminanceHistory + [x.illuminance])
  }

  /** One pass of the loop body on one line. Effects happen in program
      order: the mode is set before any arithmetic, voltage and illuminance
      are set before the illuminance division can raise, and the histories
      are extended only once everything has been computed. */
  function Step(s: Sensors, line: Line): (r: Sensors)
    // a blank or undecodable line changes nothing
    ensures !line.Object? ==> r == s
    // every frame object sets the mode, defaulting to "UNKNOWN"
    ensures line.Object? ==> r.mode == line.mode.GetOr(UnknownMode)
    // histories grow by exactly the frame's sample, or not at all
    ensures Accepted(line) ==>
      r.voltageHistory == s.voltageHistory + [r.voltage] &&
      r.powerHistory == s.powerHistory + [r.power] &&
      r.illuminanceHistory == s.illuminanceHistory + [IlluminanceRaw(line).x]
    ensures !Accepted(line) ==>
      r.voltageHistory == s.voltageHistory && r.powerHistory == s.powerHistory &&
      r.illuminanceHistory == s.illuminanceHistory
    // the current values are the ones last appended
    ensures Accepted(line) ==>
      r.voltage == SampleOf(line).voltage && r.power == SampleOf(line).power &&
      r.illuminance == IlluminanceRaw(line)
    // a failing frame never sets the power; a non-numeric voltage stops it
    // before the voltage and illuminance are set
    ensures !Accepted(line) ==> r.power == s.power
    ensures line.Object? && VoltageRaw(line).NotNumber? ==>
      r.voltage == s.voltage && r.illuminance == s.illuminance
    ensures line.Object? && VoltageRaw(line).Number? ==>
      r.voltage == Voltage(VoltageRaw(line).x) && r.illuminance == IlluminanceRaw(line)
    ensures Consistent(s) ==> Consistent(r)
  {
    if !line.Object? then s
    else
      var s1 := s.(mode := line.mode.GetOr(UnknownMode));
      match VoltageRaw(line)
      case NotNumber => s1
      case Number(vRaw) =>
        var v := Voltage(vRaw);
        var s2 := s1.(voltage := v, illuminance := IlluminanceRaw(line));
        match IlluminanceRaw(line)
        case NotNumber => s2
        case Number(iRaw) =>
          var p := Power(v, iRaw);
          Record(s2.(power := p), Sample(v, p, iRaw))
  }

  /** The loop run over a finite prefix of the line stream, in arrival order. */
  function Run(s: Sensors, lines: seq<Line>): (r: Sensors)
    decreases |lines|
  {
    if lines == [] then s
    else Step(Run(s, lines[..|lines| - 1]), lines[|lines| - 1])
  }

  /** The samples of the accepted lines, in arrival order. */
  function Samples(lines: seq<Line>): (xs: seq<Sample>)
    decreases |lines|
  {
    if lines == [] then []
    else
      var last := lines[|lines| - 1];
      Samples(lines[..|lines| - 1]) + (if Accepted(last) then [SampleOf(last)] else [])
  }

  /** Projections of a sample sequence on each metric. */
  function Voltages(xs: seq<Sample>): (r: seq<real>)
    ensures |r| == |xs| && forall k :: 0 <= k < |xs| ==> r[k] == xs[k].voltage
  {
    seq(|xs|, k requires 0 <= k < |xs| => xs[k].voltage)
  }

  function Powers(xs: seq<Sample>): (r: seq<real>)
    ensures |r| == |xs| && forall k :: 0 <= k < |xs| ==> r[k] == xs[k].power
  {
    seq(|xs|, k requires 0 <= k < |xs| => xs[k].power)
  }

  function Illuminances(xs: seq<Sample>): (r: seq<real>)
    ensures |r| == |xs| && forall k :: 0 <= k < |xs| ==> r[k] == xs[k].illuminance
  {
    seq(|xs|, k requires 0 <= k < |xs| => xs[k].illuminance)
  }

  /** Over any run of the loop, each history is the old one followed by the
      run's samples in arrival order: nothing earlier changes, nothing is
      reordered, and the three histories grow by the same amount. */
  lemma {:induction false} RunAppendsSamples(s: Sensors, lines: seq<Line>)
    ensures Run(s, lines).voltageHistory == s.voltageHistory + Voltages(Samples(lines))
    ensures Run(s, lines).powerHistory == s.powerHistory + Powers(Samples(lines))
    ensures Run(s, lines).illuminanceHistory == s.illuminanceHistory + Illuminances(Samples(lines))
    decreases |lines|
  {
    if lines != [] {
      var init, last := lines[..|lines| - 1], lines[|lines| - 1];
      RunAppendsSamples(s, init);
      var xs := Samples(init);
      var ys := if Accepted(last) then [SampleOf(last)] else [];
      assert Samples(lines) == xs + ys;
      assert Voltages(xs + ys) == Voltages(xs) + Voltages(ys);
      assert Powers(xs + ys) == Powers(xs) + Powers(ys);
      assert Illuminances(xs + ys) == Illuminances(xs) + Illuminances(ys);
    }
  }

  /** The loop keeps the histories consistent, starting from the program's
      initial state. */
  lemma {:induction false} RunConsistent(s: Sensors, lines: seq<Line>)
    requires Consistent(s)
    ensures Consistent(Run(s, lines))
    decreases |lines|
  {
    if lines != [] {
      RunConsistent(s, lines[..|lines| - 1]);
    }
  }

  /** Lock-step growth: each history grows by the number of accepted lines. */
  lemma LockStepGrowth(s: Sensors, lines: seq<Line>)
    requires LockStep(s)
    ensures LockStep(Run(s, lines))
    ensures |Run(s, lines).voltageHistory| == |s.voltageHistory| + |Samples(lines)|
  {
    RunAppendsSamples(s, lines);
  }

  /** A line that is not accepted, followed by an accepted one, leaves the
      histories exactly as the accepted line alone would: one sample appended. */
  lemma BadLineThenGoodLine(s: Sensors, bad: Line, good: Line)
    requires !Accepted(bad) && Accepted(good)
    ensures Run(s, [bad, good]).voltageHistory == s.voltageHistory + [SampleOf(good).voltage]
    ensures Run(s, [bad, good]).powerHistory == s.powerHistory + [SampleOf(good).power]
    ensures Run(s, [bad, good]).illuminanceHistory == s.illuminanceHistory + [SampleOf(good).illuminance]
  {
    assert [bad, good][..1] == [bad];
    assert [bad][..0] == [];
    assert Run(s, [bad]) == Step(s, bad);
    assert Run(s, [bad, good]) == Step(Step(s, bad), good);
  }

  /** A frame object with both codes absent reads as zero volts and zero watts. */
  lemma EmptyObjectReadsZero(s: Sensors)
    ensures Step(s, Object(None, None, None)) ==
      Record(s.(voltage := 0.0, illuminance := Number(0.0), mode := UnknownMode, power := 0.0),
             Sample(0.0, 0.0, 0.0))
  {
  }
}
