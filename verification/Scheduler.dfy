/** The scheduler and recorder objects: loops over mutable participants, proved equal to the functions of `CoSim`. */
module Scheduler {
  import opened Wrappers
  import opened CoSim
  import opened Ordering
  import Registration

  /** `more` with `changed` joined in, as the write loop accumulates it. */
  function OrChanged<P>(changed: bool, r: Result<(map<nat, P>, bool), CosimError>)
    : Result<(map<nat, P>, bool), CosimError>
  {
    match r
    case Ok((parts, more)) => Ok((parts, changed || more))
    case Err(e) => Err(e)
  }

  function Prepend<T>(front: seq<T>, r: Result<seq<T>, CosimError>): Result<seq<T>, CosimError> {
    match r
    case Ok(rest) => Ok(front + rest)
    case Err(e) => Err(e)
  }

  lemma PrependNothing<T>(r: Result<seq<T>, CosimError>)
    ensures Prepend([], r) == r
  {
    assert r.Ok? ==> [] + r.value == r.value;
  }

  class WaveformRecorder<P> {
    const behaviour: Behaviour<P>
    var signals: seq<Signal>

    constructor (behaviour: Behaviour<P>, signals: seq<Signal>)
      ensures this.behaviour == behaviour && this.signals == signals
    {
      this.behaviour, this.signals := behaviour, signals;
    }

    /** An empty signal for each readable port. */
    static method NewSignals(behaviour: Behaviour<P>, participants: map<nat, P>)
      returns (r: Result<seq<Signal>, CosimError>)
      ensures r == NewRecorder(behaviour, participants, Ascending(participants.Keys))
    {
      hide Ascending, CollectedUpTo, NewRecorder;
      var ids := Ascending(participants.Keys);
      var signals := [];
      NothingCollected(behaviour, participants, ids);
      for i := 0 to |ids|
        invariant CollectedUpTo(behaviour, participants, ids, i, signals)
      {
        CollectNext(behaviour, participants, ids, i, signals);
        var ports := behaviour.ports(participants[ids[i]]);
        var mine :- PortSignals(ids[i], ports, Ascending(OutputNames(ports)));
        signals := signals + mine;
      }
      AllCollected(behaviour, participants, ids, signals);
      r := Ok(signals);
    }

    /** One sample of every signal. */
    method RecordAll(time: nat, participants: map<nat, P>) returns (r: Result<(), CosimError>)
      modifies this
      ensures r.Ok? ==> Record(behaviour, participants, time, old(signals)) == Ok(signals)
      ensures r.Err? ==> Record(behaviour, participants, time, old(signals)) == Err(r.error)
    {
      hide RecordedUpTo;
      ghost var before := signals;
      NothingRecorded(behaviour, participants, time, before);
      for i := 0 to |signals|
        invariant |signals| == |before| && signals[i..] == before[i..]
        invariant RecordedUpTo(behaviour, participants, time, before, signals[..i])
      {
        var recorded := RecordSignal(behaviour, participants, time, signals[i]);
        assert signals[i] == before[i];
        RecordNext(behaviour, participants, time, before, signals[..i]);
        if recorded.Err? {
          return Err(recorded.error);
        }
        assert signals[i := recorded.value][..i + 1] == signals[..i] + [recorded.value];
        signals := signals[i := recorded.value];
      }
      assert signals[..|signals|] == signals;
      RecordAllDone(behaviour, participants, time, before, signals);
      r := Ok(());
    }
  }

  ghost predicate RecordedUpTo<P>(b: Behaviour<P>, parts: map<nat, P>, time: nat, before: seq<Signal>,
                                  done: seq<Signal>) {
    |done| <= |before| && Record(b, parts, time, before) == Prepend(done, Record(b, parts, time, before[|done|..]))
  }

  lemma NothingRecorded<P>(b: Behaviour<P>, parts: map<nat, P>, time: nat, before: seq<Signal>)
    ensures RecordedUpTo(b, parts, time, before, [])
  {
    PrependNothing(Record(b, parts, time, before));
    assert before[0..] == before;
  }

  lemma PrependTwice<T>(front: seq<T>, middle: seq<T>, r: Result<seq<T>, CosimError>)
    ensures Prepend(front, Prepend(middle, r)) == Prepend(front + middle, r)
  {
    assert r.Ok? ==> front + (middle + r.value) == (front + middle) + r.value;
  }

  lemma PrependError<T>(front: seq<T>, e: CosimError)
    ensures Prepend(front, Err(e)) == Err(e)
  {
  }

  lemma RecordFirst<P>(b: Behaviour<P>, parts: map<nat, P>, time: nat, signals: seq<Signal>)
    requires |signals| > 0
    ensures var s := RecordSignal(b, parts, time, signals[0]);
            Record(b, parts, time, signals) == if s.Err? then Err(s.error)
              else Prepend([s.value], Record(b, parts, time, signals[1..]))
  {
  }

  lemma RecordNext<P>(b: Behaviour<P>, parts: map<nat, P>, time: nat, before: seq<Signal>, done: seq<Signal>)
    requires |done| < |before| && RecordedUpTo(b, parts, time, before, done)
    ensures var s := RecordSignal(b, parts, time, before[|done|]);
            if s.Err? then Record(b, parts, time, before) == Err(s.error)
            else RecordedUpTo(b, parts, time, before, done + [s.value])
  {
    hide Record, RecordSignal, Prepend;
    RecordFirst(b, parts, time, before[|done|..]);
    var s := RecordSignal(b, parts, time, before[|done|]);
    assert before[|done|..][1..] == before[|done| + 1..];
    if s.Ok? {
      PrependTwice(done, [s.value], Record(b, parts, time, before[|done| + 1..]));
    } else {
      PrependError(done, s.error);
    }
  }

  lemma RecordAllDone<P>(b: Behaviour<P>, parts: map<nat, P>, time: nat, before: seq<Signal>, done: seq<Signal>)
    requires |done| == |before| && RecordedUpTo(b, parts, time, before, done)
    ensures Record(b, parts, time, before) == Ok(done)
  {
    assert done + [] == done;
  }

  /** The signals of the first `i` participants have been collected. */
  ghost predicate CollectedUpTo<P>(b: Behaviour<P>, parts: map<nat, P>, ids: seq<nat>, i: nat, signals: seq<Signal>) {
    && i <= |ids| && (forall id :: id in ids ==> id in parts)
    && NewRecorder(b, parts, ids) == Prepend(signals, NewRecorder(b, parts, ids[i..]))
  }

  lemma NothingCollected<P>(b: Behaviour<P>, parts: map<nat, P>, ids: seq<nat>)
    requires forall id :: id in ids ==> id in parts
    ensures CollectedUpTo(b, parts, ids, 0, [])
  {
    PrependNothing(NewRecorder(b, parts, ids));
    assert ids[0..] == ids;
  }

  lemma CollectNext<P>(b: Behaviour<P>, parts: map<nat, P>, ids: seq<nat>, i: nat, signals: seq<Signal>)
    requires i < |ids| && CollectedUpTo(b, parts, ids, i, signals)
    ensures ids[i] in parts
    ensures var ports := b.ports(parts[ids[i]]);
            var mine := PortSignals(ids[i], ports, Ascending(OutputNames(ports)));
            if mine.Err? then NewRecorder(b, parts, ids) == Err(mine.error)
            else CollectedUpTo(b, parts, ids, i + 1, signals + mine.value)
  {
    hide Ascending;
    var ports := b.ports(parts[ids[i]]);
    var mine := PortSignals(ids[i], ports, Ascending(OutputNames(ports)));
    assert ids[i..][0] == ids[i] && ids[i..][1..] == ids[i + 1..];
    if mine.Ok? {
      PrependTwice(signals, mine.value, NewRecorder(b, parts, ids[i + 1..]));
    }
  }

  lemma AllCollected<P>(b: Behaviour<P>, parts: map<nat, P>, ids: seq<nat>, signals: seq<Signal>)
    requires CollectedUpTo(b, parts, ids, |ids|, signals)
    ensures NewRecorder(b, parts, ids) == Ok(signals)
  {
    assert ids[|ids|..] == [] && signals + [] == signals;
  }

  lemma KeysCount<P>(m: map<nat, P>)
    ensures |m.Keys| == |m|
  {
  }

  /** The participants before number `i` have been initialized. */
  ghost predicate InitializedUpTo<P>(b: Behaviour<P>, before: map<nat, P>, now: map<nat, P>, ids: seq<nat>, i: nat) {
    && i <= |ids| && now.Keys == before.Keys && (forall id :: id in ids ==> id in before)
    && InitializeAll(b, now, ids[i..]) == InitializeAll(b, before, ids)
  }

  lemma NoneInitialized<P>(b: Behaviour<P>, parts: map<nat, P>, ids: seq<nat>)
    requires forall id :: id in ids ==> id in parts
    ensures InitializedUpTo(b, parts, parts, ids, 0)
  {
    assert ids[0..] == ids;
  }

  lemma InitializeNext<P>(b: Behaviour<P>, before: map<nat, P>, now: map<nat, P>, ids: seq<nat>, i: nat)
    requires i < |ids| && InitializedUpTo(b, before, now, ids, i)
    ensures ids[i] in now
    ensures var q := InitializeOne(b, ids[i], now[ids[i]]);
            if q.Err? then InitializeAll(b, before, ids) == Err(q.error)
            else InitializedUpTo(b, before, now[ids[i] := q.value], ids, i + 1)
  {
    hide InitializeOne;
    assert ids[i..][0] == ids[i] && ids[i..][1..] == ids[i + 1..];
  }

  lemma AllInitialized<P>(b: Behaviour<P>, before: map<nat, P>, now: map<nat, P>, ids: seq<nat>)
    requires InitializedUpTo(b, before, now, ids, |ids|)
    ensures InitializeAll(b, before, ids) == Ok(now)
  {
    assert ids[|ids|..] == [];
  }

  /** The participants before number `i` have been advanced. */
  ghost predicate AdvancedUpTo<P>(b: Behaviour<P>, before: map<nat, P>, now: map<nat, P>, target: nat, ids: seq<nat>,
                                  i: nat) {
    && i <= |ids| && now.Keys == before.Keys && (forall id :: id in ids ==> id in before)
    && AdvanceAll(b, now, target, ids[i..]) == AdvanceAll(b, before, target, ids)
  }

  lemma NoneAdvanced<P>(b: Behaviour<P>, parts: map<nat, P>, target: nat, ids: seq<nat>)
    requires forall id :: id in ids ==> id in parts
    ensures AdvancedUpTo(b, parts, parts, target, ids, 0)
  {
    assert ids[0..] == ids;
  }

  lemma AdvanceNext<P>(b: Behaviour<P>, before: map<nat, P>, now: map<nat, P>, target: nat, ids: seq<nat>, i: nat)
    requires i < |ids| && AdvancedUpTo(b, before, now, target, ids, i)
    ensures ids[i] in now
    ensures var q := AdvanceOne(b, ids[i], now[ids[i]], target);
            if q.Err? then AdvanceAll(b, before, target, ids) == Err(q.error)
            else AdvancedUpTo(b, before, now[ids[i] := q.value], target, ids, i + 1)
  {
    hide AdvanceOne;
    assert ids[i..][0] == ids[i] && ids[i..][1..] == ids[i + 1..];
  }

  lemma AllAdvanced<P>(b: Behaviour<P>, before: map<nat, P>, now: map<nat, P>, target: nat, ids: seq<nat>)
    requires AdvancedUpTo(b, before, now, target, ids, |ids|)
    ensures AdvanceAll(b, before, target, ids) == Ok(now)
  {
    assert ids[|ids|..] == [];
  }

  class CoSimulationScheduler<P> {
    const behaviour: Behaviour<P>
    const config: Config
    var participants: map<nat, P>
    var links: seq<Link>

    constructor (behaviour: Behaviour<P>, config: Config)
      ensures this.behaviour == behaviour && this.config == config && participants == map[] && links == []
    {
      this.behaviour, this.config := behaviour, config;
      participants, links := map[], [];
    }

    method AddParticipant(participant: P) returns (r: Result<(), CosimError>)
      modifies this`participants
      ensures r.Ok? ==> Registration.AddParticipant(behaviour, old(participants), participant) == Ok(participants)
      ensures r.Err? ==> participants == old(participants)
      ensures r.Err? ==> Registration.AddParticipant(behaviour, participants, participant) == Err(r.error)
    {
      var id := behaviour.id(participant);
      if id == 0 {
        return Err(ParticipantInvalid);
      }
      if id in participants {
        return Err(ParticipantDuplicate);
      }
      var _ :- CheckPorts(behaviour.ports(participant));
      participants := participants[id := participant];
      r := Ok(());
    }

    static method CheckPorts(ports: seq<Port>) returns (r: Result<(), CosimError>)
      ensures r == Registration.ValidatePortList(ports)
    {
      if |ports| == 0 {
        return Err(ParticipantInvalid);
      }
      var names: set<nat> := {};
      for i := 0 to |ports|
        invariant ValidatePorts(ports[i..], names) == ValidatePorts(ports, {})
      {
        var port := ports[i];
        assert ports[i..][0] == port && ports[i..][1..] == ports[i + 1..];
        if port.name == 0 {
          return Err(PortInvalid);
        }
        if port.name in names {
          return Err(PortDuplicate);
        }
        names := names + {port.name};
        match port.domain {
          case DigitalDomain =>
            if port.unit.Some? {
              return Err(PortInvalid);
            }
          case AnalogDomain =>
            if port.unit.None? {
              return Err(PortInvalid);
            }
          case _ => return Err(PortInvalid);
        }
      }
      r := Ok(());
    }

    method Connect(link: Link)
      modifies this`links
      ensures links == old(links) + [link]
    {
      links := links + [link];
    }

    method SortedLinks() returns (r: Result<seq<Link>, CosimError>)
      ensures r == ValidatedLinks(behaviour, participants, links)
    {
      if |participants| == 0 {
        return Err(ParticipantMissing);
      }
      var sorted := SortLinks(links);
      var targets: set<Endpoint> := {};
      for i := 0 to |sorted|
        invariant CheckLinks(behaviour, participants, sorted[i..], targets)
            == CheckLinks(behaviour, participants, sorted, {})
      {
        var link := sorted[i];
        assert sorted[i..][0] == link && sorted[i..][1..] == sorted[i + 1..];
        var _ :- CheckLink(behaviour, participants, link);
        if link.target in targets {
          return Err(MultipleDrivers);
        }
        targets := targets + {link.target};
      }
      r := Ok(sorted);
    }

    method TimeAfter(now: nat) returns (r: Result<nat, CosimError>)
      ensures r == NextTime(behaviour, config, participants, now)
    {
      var target := Min(SaturatingAdd(now, config.maxStep), config.stop);
      var ids := Ascending(participants.Keys);
      ghost var first := target;
      for i := 0 to |ids|
        invariant EarliestEvent(behaviour, participants, now, target, ids[i..])
               == EarliestEvent(behaviour, participants, now, first, ids)
      {
        assert ids[i..][0] == ids[i] && ids[i..][1..] == ids[i + 1..];
        target :- EarlierTarget(behaviour, participants[ids[i]], now, target);
      }
      r := Ok(target);
    }

    /** Reads every source before anything is written. */
    method ReadSources(links: seq<Link>) returns (r: Result<seq<Value>, CosimError>)
      ensures r == ReadAll(behaviour, participants, links)
    {
      var deliveries := [];
      assert links[0..] == links;
      PrependNothing(ReadAll(behaviour, participants, links));
      for i := 0 to |links|
        invariant |deliveries| == i
        invariant ReadAll(behaviour, participants, links)
            == Prepend(deliveries, ReadAll(behaviour, participants, links[i..]))
      {
        assert links[i..][0] == links[i] && links[i..][1..] == links[i + 1..];
        var value := ReadSource(behaviour, participants, links[i].source);
        if value.Err? {
          return Err(value.error);
        }
        ghost var rest := ReadAll(behaviour, participants, links[i + 1..]);
        assert rest.Ok? ==> deliveries + ([value.value] + rest.value) == (deliveries + [value.value]) + rest.value;
        deliveries := deliveries + [value.value];
      }
      assert deliveries + [] == deliveries;
      r := Ok(deliveries);
    }

    method WriteTargets(links: seq<Link>, deliveries: seq<Value>, time: nat) returns (r: Result<bool, CosimError>)
      requires |links| == |deliveries|
      modifies this`participants
      ensures r.Ok? ==> WriteAll(behaviour, old(participants), links, deliveries, time) == Ok((participants, r.value))
      ensures r.Err? ==> WriteAll(behaviour, old(participants), links, deliveries, time) == Err(r.error)
    {
      var changed := false;
      for i := 0 to |links|
        invariant WriteAll(behaviour, old(participants), links, deliveries, time)
               == OrChanged(changed, WriteAll(behaviour, participants, links[i..], deliveries[i..], time))
      {
        assert links[i..][0] == links[i] && links[i..][1..] == links[i + 1..];
        assert deliveries[i..][0] == deliveries[i] && deliveries[i..][1..] == deliveries[i + 1..];
        var written :- WriteTarget(behaviour, participants, links[i].target, time, deliveries[i]);
        participants := written.0;
        changed := changed || written.1;
      }
      r := Ok(changed);
    }

    /** Cancellation and the timeout are polled once per round. */
    method SettleLinks(links: seq<Link>, time: nat) returns (r: Result<nat, CosimError>)
      modifies this`participants
      ensures r.Ok? ==>
                Settle(behaviour, config.maxDeltaCycles, links, old(participants), time, 0)
                == Ok((participants, r.value))
      ensures r.Err? && r.error != Interrupted ==>
                Settle(behaviour, config.maxDeltaCycles, links, old(participants), time, 0) == Err(r.error)
    {
      for cycle := 0 to config.maxDeltaCycles
        invariant Settle(behaviour, config.maxDeltaCycles, links, participants, time, cycle)
               == Settle(behaviour, config.maxDeltaCycles, links, old(participants), time, 0)
      {
        if * {
          return Err(Interrupted);
        }
        var deliveries :- ReadSources(links);
        var changed :- WriteTargets(links, deliveries, time);
        if !changed {
          return Ok(cycle);
        }
      }
      r := Err(DeltaCycleLimit);
    }

    method InitializeParticipants() returns (r: Result<(), CosimError>)
      modifies this`participants
      ensures r.Ok? ==>
                InitializeAll(behaviour, old(participants), Ascending(old(participants).Keys)) == Ok(participants)
      ensures r.Err? ==> InitializeAll(behaviour, old(participants), Ascending(old(participants).Keys)) == Err(r.error)
    {
      hide Ascending, InitializeAll, InitializedUpTo;
      var ids := Ascending(participants.Keys);
      NoneInitialized(behaviour, participants, ids);
      for i := 0 to |ids|
        invariant InitializedUpTo(behaviour, old(participants), participants, ids, i)
      {
        InitializeNext(behaviour, old(participants), participants, ids, i);
        var initialized :- InitializeOne(behaviour, ids[i], participants[ids[i]]);
        participants := participants[ids[i] := initialized];
      }
      AllInitialized(behaviour, old(participants), participants, ids);
      r := Ok(());
    }

    /** Advances everyone to `target`; returns how many were advanced. */
    method AdvanceParticipants(target: nat) returns (r: Result<nat, CosimError>)
      modifies this`participants
      ensures r.Ok? ==> r.value == |old(participants)|
      ensures r.Ok? ==>
                AdvanceAll(behaviour, old(participants), target, Ascending(old(participants).Keys)) == Ok(participants)
      ensures r.Err? && r.error != Interrupted ==>
                AdvanceAll(behaviour, old(participants), target, Ascending(old(participants).Keys)) == Err(r.error)
    {
      hide Ascending, AdvanceAll, AdvancedUpTo;
      var ids, advances := Ascending(participants.Keys), 0;
      NoneAdvanced(behaviour, participants, target, ids);
      for i := 0 to |ids|
        invariant AdvancedUpTo(behaviour, old(participants), participants, target, ids, i) && advances == i
      {
        if * {
          return Err(Interrupted);
        }
        AdvanceNext(behaviour, old(participants), participants, target, ids, i);
        var advanced :- AdvanceOne(behaviour, ids[i], participants[ids[i]], target);
        participants := participants[ids[i] := advanced];
        advances := advances + 1;
      }
      AllAdvanced(behaviour, old(participants), participants, target, ids);
      KeysCount(old(participants));
      r := Ok(advances);
    }

    /** The second half of a macro step; `before` is the state of the run as a value, before the advance. */
    method SettleAndRecord(links: seq<Link>, recorder: WaveformRecorder<P>, ghost before: RunState<P>, target: nat,
                           stats: Stats,
                           advances: nat)
      returns (r: Result<Stats, CosimError>, ghost after: RunState<P>)
      requires recorder.behaviour == behaviour && recorder.signals == before.signals
      requires stats == before.stats && advances == |before.parts|
      modifies this`participants, recorder
      ensures r.Ok? ==> SettleStep(behaviour, config, links, before, old(participants), target) == Ok(after)
      ensures r.Ok? ==> after == RunState(participants, target, r.value, recorder.signals, after.trace)
      ensures r.Err? && r.error != Interrupted ==>
                SettleStep(behaviour, config, links, before, old(participants), target) == Err(r.error)
    {
      hide Settle, Record;
      after := before;
      var cycles := SettleLinks(links, target);
      if cycles.Err? {
        return Err(cycles.error), after;
      }
      var recorded := recorder.RecordAll(target, participants);
      if recorded.Err? {
        return Err(recorded.error), after;
      }
      var next := Stats(stats.macroSteps + 1, stats.deltaCycles + cycles.value, stats.participantAdvances + advances);
      after := RunState(participants, target, next, recorder.signals, before.trace + [Snapshot(target, participants)]);
      r := Ok(next);
    }

    /** One macro step from `now`. */
    method Advance(links: seq<Link>, recorder: WaveformRecorder<P>, ghost before: RunState<P>, now: nat, stats: Stats)
      returns (r: Result<(nat, Stats), CosimError>, ghost after: RunState<P>)
      requires recorder.behaviour == behaviour
      requires before == RunState(participants, now, stats, recorder.signals, before.trace)
      modifies this`participants, recorder
      ensures r.Ok? ==> MacroStep(behaviour, config, links, before) == Ok(after)
      ensures r.Ok? ==> after == RunState(participants, r.value.0, r.value.1, recorder.signals, after.trace)
      ensures r.Err? && r.error != Interrupted ==> MacroStep(behaviour, config, links, before) == Err(r.error)
    {
      hide Ascending, AdvanceAll, SettleStep, NextTime;
      after := before;
      if * {
        return Err(Interrupted), after;
      }
      if stats.macroSteps >= config.maxSteps {
        return Err(StepLimit), after;
      }
      var target := TimeAfter(now);
      if target.Err? {
        return Err(target.error), after;
      }
      if target.value <= now {
        return Err(TimeStalled), after;
      }
      var advances := AdvanceParticipants(target.value);
      if advances.Err? {
        return Err(advances.error), after;
      }
      var settled;
      settled, after := SettleAndRecord(links, recorder, before, target.value, stats, advances.value);
      r := if settled.Err? then Err(settled.error) else Ok((target.value, settled.value));
    }

    /** Initialization, the settling at time zero and the first record. */
    method Start(links: seq<Link>) returns (r: Result<(WaveformRecorder<P>, Stats), CosimError>,
                                            ghost begun: RunState<P>)
      modifies this`participants
      ensures r.Ok? ==> fresh(r.value.0) && r.value.0.behaviour == behaviour
      ensures r.Ok? ==> Begin(behaviour, config, old(participants), links) == Ok(begun)
      ensures r.Ok? ==> begun == RunState(participants, 0, r.value.1, r.value.0.signals, begun.trace)
      ensures r.Err? && r.error != Interrupted ==> Begin(behaviour, config, old(participants), links) == Err(r.error)
    {
      hide Ascending, InitializeAll, NewRecorder, Settle, Record;
      begun := RunState(participants, 0, Stats(0, 0, 0), [], []);
      var initialized := InitializeParticipants();
      if initialized.Err? {
        return Err(initialized.error), begun;
      }
      var signals := WaveformRecorder.NewSignals(behaviour, participants);
      if signals.Err? {
        return Err(signals.error), begun;
      }
      var recorder := new WaveformRecorder(behaviour, signals.value);
      var cycles := SettleLinks(links, 0);
      if cycles.Err? {
        return Err(cycles.error), begun;
      }
      var recorded := recorder.RecordAll(0, participants);
      if recorded.Err? {
        return Err(recorded.error), begun;
      }
      begun := RunState(participants, 0, Stats(0, cycles.value, 0), recorder.signals, [] + [Snapshot(0, participants)]);
      r := Ok((recorder, Stats(0, cycles.value, 0)));
    }

    /** A whole run, equal to the specification's; `end` is its final state as a value. */
    method Run() returns (r: Result<(Stats, seq<Signal>), CosimError>, ghost end: RunState<P>)
      modifies this`participants
      ensures r.Ok? ==> Simulate(behaviour, config, old(participants), links) == Ok(end)
      ensures r.Ok? ==> r.value == (end.stats, end.signals) && participants == end.parts
      ensures r.Err? && r.error != Interrupted ==> Simulate(behaviour, config, old(participants), links) == Err(r.error)
    {
      hide Begin, MacroStep;
      end := RunState(participants, 0, Stats(0, 0, 0), [], []);
      if !config.Valid() {
        return Err(ConfigInvalid), end;
      }
      if * {
        return Err(Interrupted), end;
      }
      var sorted := SortedLinks();
      if sorted.Err? {
        return Err(sorted.error), end;
      }
      var started, begun := Start(sorted.value);
      if started.Err? {
        return Err(started.error), end;
      }
      var recorder, stats := started.value.0, started.value.1;
      var now: nat := 0;
      end := begun;
      while now < config.stop
        invariant fresh(recorder) && recorder.behaviour == behaviour
        invariant end == RunState(participants, now, stats, recorder.signals, end.trace)
        invariant RunLoop(behaviour, config, sorted.value, end) == RunLoop(behaviour, config, sorted.value, begun)
        decreases config.maxSteps - stats.macroSteps
      {
        var step, after := Advance(sorted.value, recorder, end, now, stats);
        if step.Err? {
          return Err(step.error), end;
        }
        now, stats, end := step.value.0, step.value.1, after;
      }
      r := Ok((stats, recorder.signals));
    }
  }
}
