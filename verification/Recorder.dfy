/** The recorder as a lossless code: run-length for digital signals, plain lists for analog ones. */
module Recorder {
  import opened Wrappers
  import opened Logic
  import opened CoSim
  import opened Ordering

  datatype Sample = Sample(time: nat, value: Value)

  /** The level a reader of the transitions sees at time `t`. */
  function Decode(ts: seq<(nat, LogicValue)>, t: nat): Option<LogicValue> {
    if |ts| == 0 then None
    else if ts[|ts| - 1].0 <= t then Some(ts[|ts| - 1].1)
    else Decode(ts[..|ts| - 1], t)
  }

  ghost predicate RisingTimes(samples: seq<Sample>) {
    forall i, j :: 0 <= i < j < |samples| ==> samples[i].time < samples[j].time
  }

  /** Transition times rise strictly and neighbours differ. */
  ghost predicate Alternating(ts: seq<(nat, LogicValue)>) {
    forall i :: 0 < i < |ts| ==> ts[i - 1].0 < ts[i].0 && ts[i - 1].1 != ts[i].1
  }

  /** Every transition is one of the samples. */
  ghost predicate OnSamples(ts: seq<(nat, LogicValue)>, samples: seq<Sample>) {
    forall i :: 0 <= i < |ts| ==> Sample(ts[i].0, Level(ts[i].1)) in samples
  }

  /** Decoding gives every sample back. */
  ghost predicate DecodesTo(ts: seq<(nat, LogicValue)>, samples: seq<Sample>) {
    forall i :: 0 <= i < |samples| ==>
        samples[i].value.Level? && Decode(ts, samples[i].time) == Some(samples[i].value.level)
  }

  ghost predicate Listed(times: seq<nat>, values: seq<real>, samples: seq<Sample>) {
    |times| == |values| == |samples| && forall i :: 0 <= i < |samples| ==>
      samples[i] == Sample(times[i], Volts(values[i]))
  }

  /** The recording holds the samples, no more and no less. */
  ghost predicate Faithful(wave: Waveform, samples: seq<Sample>) {
    match wave
    case DigitalWave(ts) => Alternating(ts) && OnSamples(ts, samples) && DecodesTo(ts, samples)
    case AnalogWave(_, times, values) => Listed(times, values, samples)
  }

  lemma {:induction false} DecodeBeyond(ts: seq<(nat, LogicValue)>, t: nat)
    requires |ts| > 0 && ts[|ts| - 1].0 <= t
    ensures Decode(ts, t) == Some(ts[|ts| - 1].1)
  {
  }

  lemma DecodeBefore(ts: seq<(nat, LogicValue)>, last: (nat, LogicValue), t: nat)
    requires t < last.0
    ensures Decode(ts + [last], t) == Decode(ts, t)
  {
    assert (ts + [last])[..|ts|] == ts;
  }

  lemma ExtendedDecodes(ts: seq<(nat, LogicValue)>, samples: seq<Sample>, time: nat, level: LogicValue)
    requires DecodesTo(ts, samples) && forall i :: 0 <= i < |samples| ==> samples[i].time < time
    ensures DecodesTo(ts + [(time, level)], samples + [Sample(time, Level(level))])
  {
    forall i | 0 <= i < |samples|
      ensures Decode(ts + [(time, level)], samples[i].time) == Decode(ts, samples[i].time)
    {
      DecodeBefore(ts, (time, level), samples[i].time);
    }
  }

  lemma LastIsLatest(samples: seq<Sample>, sample: Sample)
    requires RisingTimes(samples) && (|samples| > 0 ==> samples[|samples| - 1].time < sample.time)
    ensures RisingTimes(samples + [sample])
    ensures forall i :: 0 <= i < |samples| ==> samples[i].time < sample.time
  {
  }

  lemma StillOnSamples(ts: seq<(nat, LogicValue)>, samples: seq<Sample>, sample: Sample)
    requires OnSamples(ts, samples)
    ensures OnSamples(ts, samples + [sample])
    ensures sample.value.Level? ==> OnSamples(ts + [(sample.time, sample.value.level)], samples + [sample])
  {
    assert (samples + [sample])[|samples|] == sample;
  }

  lemma AlternatingMore(ts: seq<(nat, LogicValue)>, time: nat, level: LogicValue)
    requires Alternating(ts) && (|ts| > 0 ==> ts[|ts| - 1].0 < time && ts[|ts| - 1].1 != level)
    ensures Alternating(ts + [(time, level)])
  {
  }

  lemma AppendDigital(ts: seq<(nat, LogicValue)>, samples: seq<Sample>, time: nat, level: LogicValue)
    requires Alternating(ts) && OnSamples(ts, samples) && DecodesTo(ts, samples)
    requires forall i :: 0 <= i < |samples| ==> samples[i].time < time
    ensures var next, all := AppendTransition(ts, time, level), samples + [Sample(time, Level(level))];
            Alternating(next) && OnSamples(next, all) && DecodesTo(next, all)
  {
    TransitionsAreEarlier(ts, samples, time);
    StillOnSamples(ts, samples, Sample(time, Level(level)));
    hide Alternating, OnSamples, DecodesTo;
    if |ts| > 0 && ts[|ts| - 1].1 == level {
      SameLevelDecodes(ts, samples, time);
    } else {
      AlternatingMore(ts, time, level);
      ExtendedDecodes(ts, samples, time, level);
    }
  }

  lemma TransitionsAreEarlier(ts: seq<(nat, LogicValue)>, samples: seq<Sample>, time: nat)
    requires OnSamples(ts, samples) && forall i :: 0 <= i < |samples| ==> samples[i].time < time
    ensures |ts| > 0 ==> ts[|ts| - 1].0 < time
  {
    if |ts| > 0 {
      var last := ts[|ts| - 1];
      assert Sample(last.0, Level(last.1)) in samples;
    }
  }

  lemma SameLevelDecodes(ts: seq<(nat, LogicValue)>, samples: seq<Sample>, time: nat)
    requires DecodesTo(ts, samples) && |ts| > 0 && ts[|ts| - 1].0 <= time
    ensures DecodesTo(ts, samples + [Sample(time, Level(ts[|ts| - 1].1))])
  {
    DecodeBeyond(ts, time);
  }

  /** One more sample, later than all before it. */
  lemma AppendKeepsFaithful(wave: Waveform, samples: seq<Sample>, time: nat, value: Value)
    requires Faithful(wave, samples) && RisingTimes(samples) && AppendSample(wave, time, value).Ok?
    requires |samples| > 0 ==> samples[|samples| - 1].time < time
    ensures Faithful(AppendSample(wave, time, value).value, samples + [Sample(time, value)])
    ensures RisingTimes(samples + [Sample(time, value)])
  {
    hide Alternating, OnSamples, DecodesTo, RisingTimes;
    LastIsLatest(samples, Sample(time, value));
    match wave
    case DigitalWave(ts) => AppendDigital(ts, samples, time, value.level);
    case AnalogWave(_, times, values) =>
      assert |times| > 0 ==> samples[|times| - 1].time == times[|times| - 1];
  }

  /* ---- Whole runs ---- */

  /** What a reader of endpoint `e` sees at each record; None if some read fails. */
  function Samples<P>(b: Behaviour<P>, trace: seq<Snapshot<P>>, e: Endpoint): (r: Option<seq<Sample>>)
    ensures r.Some? ==> |r.value| == |trace| && forall i :: 0 <= i < |trace| ==> r.value[i].time == trace[i].time
  {
    if |trace| == 0 then Some([])
    else
      var last, before := trace[|trace| - 1], Samples(b, trace[..|trace| - 1], e);
      var read := ReadRecorded(b, last.parts, e);
      if before.None? || read.Err? then None else Some(before.value + [Sample(last.time, read.value)])
  }

  ghost predicate SignalFaithful<P>(b: Behaviour<P>, trace: seq<Snapshot<P>>, signal: Signal) {
    var samples := Samples(b, trace, signal.endpoint);
    samples.Some? && RisingTimes(samples.value) && Faithful(signal.wave, samples.value)
  }

  /** The records up to now, each later than the one before, and every signal faithful to them. */
  ghost predicate Recording<P>(b: Behaviour<P>, s: RunState<P>) {
    && (|s.trace| > 0 ==> s.trace[|s.trace| - 1].time == s.now)
    && forall k :: 0 <= k < |s.signals| ==> SignalFaithful(b, s.trace, s.signals[k])
  }

  /** Two signals that differ only in what they recorded. */
  predicate SameSignal(a: Signal, c: Signal) {
    && a.endpoint == c.endpoint && a.wave.DigitalWave? == c.wave.DigitalWave?
    && (a.wave.AnalogWave? ==> a.wave.unit == c.wave.unit)
  }

  predicate SameSignals(a: seq<Signal>, c: seq<Signal>) {
    |a| == |c| && forall k :: 0 <= k < |a| ==> SameSignal(a[k], c[k])
  }

  lemma SamplesMore<P>(b: Behaviour<P>, trace: seq<Snapshot<P>>, parts: map<nat, P>, time: nat, e: Endpoint)
    requires Samples(b, trace, e).Some? && ReadRecorded(b, parts, e).Ok?
    ensures Samples(b, trace + [Snapshot(time, parts)], e)
         == Some(Samples(b, trace, e).value + [Sample(time, ReadRecorded(b, parts, e).value)])
  {
    hide ReadRecorded;
    assert (trace + [Snapshot(time, parts)])[..|trace|] == trace;
  }

  lemma RecordedIsSame(signal: Signal, time: nat, value: Value)
    requires AppendSample(signal.wave, time, value).Ok?
    ensures SameSignal(signal, signal.(wave := AppendSample(signal.wave, time, value).value))
  {
  }

  lemma RecordSignalKeeps<P>(b: Behaviour<P>, trace: seq<Snapshot<P>>, parts: map<nat, P>, time: nat, signal: Signal)
    requires SignalFaithful(b, trace, signal) && RecordSignal(b, parts, time, signal).Ok?
    requires |trace| > 0 ==> trace[|trace| - 1].time < time
    ensures var r := RecordSignal(b, parts, time, signal).value;
            SignalFaithful(b, trace + [Snapshot(time, parts)], r) && SameSignal(signal, r)
  {
    hide Faithful, RisingTimes, ReadRecorded, AppendSample, Samples, SameSignal;
    var value := ReadRecorded(b, parts, signal.endpoint).value;
    AppendKeepsFaithful(signal.wave, Samples(b, trace, signal.endpoint).value, time, value);
    SamplesMore(b, trace, parts, time, signal.endpoint);
    RecordedIsSame(signal, time, value);
  }

  lemma RecordedKeepsRecording<P>(b: Behaviour<P>, s: RunState<P>, time: nat, parts: map<nat, P>, stats: Stats)
    requires Recording(b, s) && Recorded(b, s, time, parts, stats).Ok? && (|s.trace| > 0 ==> s.now < time)
    ensures var r := Recorded(b, s, time, parts, stats).value; Recording(b, r) && SameSignals(s.signals, r.signals)
  {
    hide SignalFaithful, SameSignal, RecordSignal;
    forall k | 0 <= k < |s.signals|
      ensures var r := Recorded(b, s, time, parts, stats).value;
              SignalFaithful(b, r.trace, r.signals[k]) && SameSignal(s.signals[k], r.signals[k])
    {
      RecordSignalKeeps(b, s.trace, parts, time, s.signals[k]);
    }
  }

  lemma SameSignalsTransitive(a: seq<Signal>, c: seq<Signal>, d: seq<Signal>)
    requires SameSignals(a, c) && SameSignals(c, d)
    ensures SameSignals(a, d)
  {
  }

  lemma MacroStepKeepsRecording<P>(b: Behaviour<P>, config: Config, links: seq<Link>, s: RunState<P>)
    requires Recording(b, s) && |s.trace| > 0
    ensures var r := MacroStep(b, config, links, s);
            r.Ok? ==>
                Recording(b, r.value) && SameSignals(s.signals, r.value.signals) && s.now <= r.value.now
                && |r.value.trace| > 0
  {
    hide Recording, SameSignals, Record, NextTime, AdvanceAll, Settle, Ascending;
    if MacroStep(b, config, links, s).Ok? {
      var target := NextTime(b, config, s.parts, s.now).value;
      var advanced := AdvanceAll(b, s.parts, target, Ascending(s.parts.Keys)).value;
      var (settled, cycles) := Settle(b, config.maxDeltaCycles, links, advanced, target, 0).value;
      RecordedKeepsRecording(b, s, target, settled, StatsAfter(s, cycles));
    }
  }

  lemma {:induction false} RunLoopKeepsRecording<P>(b: Behaviour<P>, config: Config, links: seq<Link>, s: RunState<P>)
    requires Recording(b, s) && |s.trace| > 0
    ensures var r := RunLoop(b, config, links, s);
            r.Ok? ==> Recording(b, r.value) && SameSignals(s.signals, r.value.signals) && s.now <= r.value.now
    decreases config.maxSteps - s.stats.macroSteps
  {
    hide Recording, SameSignals, MacroStep;
    SameSignalsReflexive(s.signals);
    MacroStepKeepsRecording(b, config, links, s);
    var next := MacroStep(b, config, links, s);
    if s.now < config.stop && next.Ok? {
      RunLoopKeepsRecording(b, config, links, next.value);
      var r := RunLoop(b, config, links, s);
      if r.Ok? {
        SameSignalsTransitive(s.signals, next.value.signals, r.value.signals);
      }
    }
  }

  lemma SameSignalsReflexive(a: seq<Signal>)
    ensures SameSignals(a, a)
  {
  }

  /* ---- Which ports are recorded ---- */

  ghost predicate ReadablePort<P>(b: Behaviour<P>, parts: map<nat, P>, e: Endpoint) {
    e.participant in parts && e.port in OutputNames(b.ports(parts[e.participant]))
  }

  /** An empty recording of each readable port, once each. */
  ghost predicate FreshSignals<P>(b: Behaviour<P>, parts: map<nat, P>, ids: seq<nat>, signals: seq<Signal>) {
    && (forall k :: 0 <= k < |signals| ==> FreshSignal(b, parts, signals[k]) && signals[k].endpoint.participant in ids)
    && (forall e :: ReadablePort(b, parts, e) && e.participant in ids ==> Covered(e, signals))
    && Distinct(signals)
  }

  ghost predicate Covered(e: Endpoint, signals: seq<Signal>) {
    exists k :: 0 <= k < |signals| && signals[k].endpoint == e
  }

  ghost predicate FreshSignal<P>(b: Behaviour<P>, parts: map<nat, P>, signal: Signal) {
    && ReadablePort(b, parts, signal.endpoint) && PortAt(b, parts, signal.endpoint).Some?
    && EmptyWave(PortAt(b, parts, signal.endpoint).value) == Ok(signal.wave)
  }

  lemma {:induction false} PortSignalsCover(id: nat, ports: seq<Port>, names: seq<nat>)
    requires PortSignals(id, ports, names).Ok?
    requires forall i, j :: 0 <= i < j < |names| ==> names[i] < names[j]
    ensures var r := PortSignals(id, ports, names).value;
            |r| == |names| && forall k :: 0 <= k < |names| ==>
              && r[k].endpoint == Endpoint(id, names[k]) && FindPort(ports, names[k]).Some?
              && EmptyWave(FindPort(ports, names[k]).value) == Ok(r[k].wave)
  {
    if |names| > 0 {
      PortSignalsCover(id, ports, names[1..]);
    }
  }

  lemma {:induction false} NewRecorderIsFresh<P>(b: Behaviour<P>, parts: map<nat, P>, ids: seq<nat>)
    requires forall id :: id in ids ==> id in parts
    requires forall i, j :: 0 <= i < j < |ids| ==> ids[i] < ids[j]
    requires NewRecorder(b, parts, ids).Ok?
    ensures FreshSignals(b, parts, ids, NewRecorder(b, parts, ids).value)
  {
    if |ids| > 0 {
      var id, rest := ids[0], ids[1..];
      var ports := b.ports(parts[id]);
      var names := Ascending(OutputNames(ports));
      PortSignalsCover(id, ports, names);
      NewRecorderIsFresh(b, parts, rest);
      FreshMore(b, parts, ids, names, PortSignals(id, ports, names).value, NewRecorder(b, parts, rest).value);
    }
  }

  ghost predicate Distinct(signals: seq<Signal>) {
    forall j, k :: 0 <= j < k < |signals| ==> signals[j].endpoint != signals[k].endpoint
  }

  lemma DistinctMore(id: nat, names: seq<nat>, mine: seq<Signal>, others: seq<Signal>)
    requires forall i, j :: 0 <= i < j < |names| ==> names[i] < names[j]
    requires |mine| == |names| && forall k :: 0 <= k < |mine| ==> mine[k].endpoint == Endpoint(id, names[k])
    requires Distinct(others) && forall k :: 0 <= k < |others| ==> others[k].endpoint.participant != id
    ensures Distinct(mine + others)
  {
  }

  lemma CoveredMore(id: nat, names: seq<nat>, mine: seq<Signal>, others: seq<Signal>, e: Endpoint)
    requires |mine| == |names| && forall k :: 0 <= k < |mine| ==> mine[k].endpoint == Endpoint(id, names[k])
    requires if e.participant == id then e.port in names else Covered(e, others)
    ensures Covered(e, mine + others)
  {
    if e.participant == id {
      var k :| 0 <= k < |names| && names[k] == e.port;
      assert (mine + others)[k].endpoint == e;
    } else {
      var k :| 0 <= k < |others| && others[k].endpoint == e;
      assert (mine + others)[|mine| + k].endpoint == e;
    }
  }

  lemma FreshMore<P>(b: Behaviour<P>, parts: map<nat, P>, ids: seq<nat>, names: seq<nat>, mine: seq<Signal>,
                     others: seq<Signal>)
    requires |ids| > 0 && ids[0] in parts && ids[0] !in ids[1..] && FreshSignals(b, parts, ids[1..], others)
    requires forall i, j :: 0 <= i < j < |names| ==> names[i] < names[j]
    requires forall name :: name in names <==> ReadablePort(b, parts, Endpoint(ids[0], name))
    requires |mine| == |names|
    requires forall k :: 0 <= k < |mine| ==>
              mine[k].endpoint == Endpoint(ids[0], names[k]) && FreshSignal(b, parts, mine[k])
    ensures FreshSignals(b, parts, ids, mine + others)
  {
    hide FreshSignal, ReadablePort, Covered;
    DistinctMore(ids[0], names, mine, others);
    forall e | ReadablePort(b, parts, e) && e.participant in ids
      ensures Covered(e, mine + others)
    {
      assert e.participant == ids[0] || e.participant in ids[1..];
      CoveredMore(ids[0], names, mine, others, e);
    }
  }

  /* ---- The recorder over a whole run ---- */

  lemma FreshIsFaithful<P>(b: Behaviour<P>, parts: map<nat, P>, ids: seq<nat>, signals: seq<Signal>, s: RunState<P>)
    requires FreshSignals(b, parts, ids, signals) && s.signals == signals && s.trace == []
    ensures Recording(b, s)
  {
  }

  lemma BeginKeepsRecording<P>(b: Behaviour<P>, config: Config, parts: map<nat, P>, links: seq<Link>)
    requires Begin(b, config, parts, links).Ok?
    ensures var initialized := InitializeAll(b, parts, Ascending(parts.Keys));
            var s := Begin(b, config, parts, links).value;
            && initialized.Ok? && Recording(b, s) && |s.trace| > 0
            && exists blank :: FreshSignals(b, initialized.value, Ascending(parts.Keys), blank)
                && SameSignals(blank, s.signals)
  {
    hide Recording, SameSignals, FreshSignals, Record, Settle, InitializeAll, NewRecorder;
    var initialized := InitializeAll(b, parts, Ascending(parts.Keys)).value;
    var blank := NewRecorder(b, initialized, Ascending(parts.Keys)).value;
    NewRecorderIsFresh(b, initialized, Ascending(parts.Keys));
    var (settled, cycles) := Settle(b, config.maxDeltaCycles, links, initialized, 0, 0).value;
    var s := RunState(settled, 0, Stats(0, 0, 0), blank, []);
    FreshIsFaithful(b, initialized, Ascending(parts.Keys), blank, s);
    RecordedKeepsRecording(b, s, 0, settled, Stats(0, cycles, 0));
  }

  /**
   * After any successful run the report holds exactly one signal per readable port, and each signal holds
   * exactly the values its port had at the records: decoded from its changes if digital, listed if analog.
   */
  lemma WholeRunIsRecorded<P>(b: Behaviour<P>, config: Config, parts: map<nat, P>, links: seq<Link>)
    requires Simulate(b, config, parts, links).Ok?
    ensures var s := Simulate(b, config, parts, links).value;
            var initialized := InitializeAll(b, parts, Ascending(parts.Keys));
            && initialized.Ok?
            && (forall k :: 0 <= k < |s.signals| ==> SignalFaithful(b, s.trace, s.signals[k]))
            && exists blank :: FreshSignals(b, initialized.value, Ascending(parts.Keys), blank)
                && SameSignals(blank, s.signals)
  {
    hide SameSignals, FreshSignals, Begin, RunLoop, ValidatedLinks, SignalFaithful;
    var sorted := ValidatedLinks(b, parts, links).value;
    var s := Begin(b, config, parts, sorted).value;
    BeginKeepsRecording(b, config, parts, sorted);
    RunLoopKeepsRecording(b, config, sorted, s);
    var blank :| FreshSignals(b, InitializeAll(b, parts, Ascending(parts.Keys)).value, Ascending(parts.Keys), blank)
      && SameSignals(blank, s.signals);
    SameSignalsTransitive(blank, s.signals, RunLoop(b, config, sorted, s).value.signals);
  }
}
