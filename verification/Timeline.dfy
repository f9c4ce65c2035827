/** Whole runs of the master: its timeline and statistics, under the participant contract alone. */
module Timeline {
  import opened Wrappers
  import opened CoSim
  import opened Ordering
  import opened Settling

  /* ---- Starting and advancing every participant ---- */

  /** Those still to come stand at `now`, the others already at `target`. */
  ghost predicate Between<P>(b: Behaviour<P>, inv: P -> bool, parts: map<nat, P>, ids: seq<nat>, now: nat,
                             target: nat) {
    forall id :: id in parts ==> inv(parts[id]) && b.time(parts[id]) == (if id in ids then now else target)
  }

  lemma {:induction false} AdvanceAllArrives<P(!new)>(b: Behaviour<P>, good: P -> bool, inv: P -> bool, parts: map<nat,
                                                      P>, now: nat,
                                                      target: nat, ids: seq<nat>)
    requires Contract(b, good, inv) && Between(b, inv, parts, ids, now, target) && now < target <= U64_MAX
    requires forall i, j :: 0 <= i < j < |ids| ==> ids[i] < ids[j]
    requires forall id :: id in ids ==>
              id in parts && (b.nextEvent(parts[id]).Some? ==> target <= b.nextEvent(parts[id]).value)
    ensures var r := AdvanceAll(b, parts, target, ids);
            && (r.Ok? ==> AllAt(b, inv, r.value, target) && SamePorts(b, parts, r.value))
            && (r.Err? ==> r.error.ParticipantFailed?)
    decreases |ids|
  {
    if |ids| > 0 {
      var id := ids[0];
      assert id in ids;
      assert Advances(b, inv, parts[id], target);
      var r := b.advance(parts[id], target);
      if r.Ok? {
        assert forall i :: 0 < i < |ids| ==> ids[i] != id;
        AdvanceAllArrives(b, good, inv, parts[id := r.value], now, target, ids[1..]);
      }
    }
  }

  lemma {:induction false} InitializeAllArrives<P(!new)>(b: Behaviour<P>, good: P -> bool, inv: P -> bool,
                                                         parts: map<nat, P>,
                                                         ids: seq<nat>)
    requires Contract(b, good, inv)
    requires forall i, j :: 0 <= i < j < |ids| ==> ids[i] < ids[j]
    requires forall id :: id in ids ==> id in parts && good(parts[id])
    requires forall id :: id in parts && id !in ids ==> inv(parts[id]) && b.time(parts[id]) == 0
    ensures var r := InitializeAll(b, parts, ids);
            && (r.Ok? ==> AllAt(b, inv, r.value, 0) && SamePorts(b, parts, r.value))
            && (r.Err? ==> r.error.ParticipantFailed?)
    decreases |ids|
  {
    if |ids| > 0 {
      var id := ids[0];
      assert id in ids;
      assert Initializes(b, inv, parts[id]);
      var r := b.initialize(parts[id]);
      if r.Ok? {
        assert forall i :: 0 < i < |ids| ==> ids[i] != id;
        InitializeAllArrives(b, good, inv, parts[id := r.value], ids[1..]);
      }
    }
  }

  /* ---- What every macro step keeps ---- */

  /**
   * `next` follows `last`: strictly later, at the greatest time that is within a step and the run and past no event
   * anyone reported.
   */
  ghost predicate Follows<P>(b: Behaviour<P>, config: Config, last: Snapshot<P>, next: Snapshot<P>) {
    && last.time < next.time <= last.time + config.maxStep && next.time <= config.stop
    && next.parts.Keys == last.parts.Keys && Reached(b, config, last.parts, last.time, next.time)
    && forall id :: id in last.parts && b.nextEvent(last.parts[id]).Some? ==>
      next.time <= b.nextEvent(last.parts[id]).value
  }

  /** From time zero on, each record follows the one before, with all participants at the recorded time. */
  ghost predicate TraceInv<P>(b: Behaviour<P>, inv: P -> bool, config: Config, s: RunState<P>) {
    && |s.trace| == s.stats.macroSteps + 1 && s.trace[0].time == 0
    && s.trace[|s.trace| - 1] == Snapshot(s.now, s.parts)
    && (forall i :: 0 <= i < |s.trace| ==> AllAt(b, inv, s.trace[i].parts, s.trace[i].time))
    && (forall i :: 0 < i < |s.trace| ==> Follows(b, config, s.trace[i - 1], s.trace[i]))
  }

  ghost predicate StatsInv<P>(config: Config, s: RunState<P>) {
    && s.now <= config.stop && s.now <= s.stats.macroSteps * config.maxStep
    && s.stats.macroSteps <= config.maxSteps
    && s.stats.participantAdvances == s.stats.macroSteps * |s.parts|
    && s.stats.deltaCycles <= (s.stats.macroSteps + 1) * (config.maxDeltaCycles - 1)
  }

  ghost predicate RunInv<P>(b: Behaviour<P>, inv: P -> bool, config: Config, s: RunState<P>) {
    config.Valid() && config.stop <= U64_MAX && TraceInv(b, inv, config, s) && StatsInv(config, s)
  }

  /** Complaints that a contract-abiding participant can never provoke. */
  predicate Impossible(e: CosimError) {
    e == TimeStalled || e == EventTimeInvalid || e == ParticipantTimeInvalid
  }

  /** Complaints about the configuration, the participants or the links, made before anything runs. */
  predicate Early(e: CosimError) {
    || e == ConfigInvalid || e == ParticipantMissing || e == LinkInvalid || e == DomainMismatch
    || e == UnitMismatch || e == MultipleDrivers
  }

  /** What can go wrong once it runs, apart from the limit on macro steps. */
  predicate RunError(e: CosimError) {
    || e.ParticipantFailed? || e == DeltaCycleLimit || e == ValueDomainMismatch || e == PortInvalid || e == Panicked
  }

  lemma {:induction false} RecordErrors<P>(b: Behaviour<P>, parts: map<nat, P>, time: nat, signals: seq<Signal>)
    ensures var r := Record(b, parts, time, signals); r.Err? ==> RunError(r.error)
  {
    if |signals| > 0 {
      RecordErrors(b, parts, time, signals[1..]);
    }
  }

  lemma CountersStep(steps: nat, maxStep: nat, now: nat, target: nat, cycles: nat, k: nat, limit: nat, n: nat)
    requires now <= steps * maxStep && target <= now + maxStep && limit > 0
    requires cycles <= (steps + 1) * (limit - 1) && k < limit
    ensures target <= (steps + 1) * maxStep && cycles + k <= (steps + 2) * (limit - 1)
    ensures steps * n + n == (steps + 1) * n
  {
    assert (steps + 1) * maxStep == steps * maxStep + maxStep;
    assert (steps + 2) * (limit - 1) == (steps + 1) * (limit - 1) + (limit - 1);
  }

  lemma TraceGrows<P(!new)>(b: Behaviour<P>, inv: P -> bool, config: Config, s: RunState<P>, t: RunState<P>)
    requires TraceInv(b, inv, config, s) && AllAt(b, inv, t.parts, t.now)
    requires Follows(b, config, Snapshot(s.now, s.parts), Snapshot(t.now, t.parts))
    requires t.trace == s.trace + [Snapshot(t.now, t.parts)] && t.stats.macroSteps == s.stats.macroSteps + 1
    ensures TraceInv(b, inv, config, t)
  {
  }

  lemma MacroStepKeeps<P(!new)>(b: Behaviour<P>, good: P -> bool, inv: P -> bool, config: Config, links: seq<Link>,
                                s: RunState<P>)
    requires Contract(b, good, inv) && RunInv(b, inv, config, s) && s.now < config.stop
    ensures var r := MacroStep(b, config, links, s);
            && (r.Ok? ==> RunInv(b, inv, config, r.value) && r.value.parts.Keys == s.parts.Keys && s.now < r.value.now)
            && (r.Err? ==> RunError(r.error) || r.error == StepLimit)
            && (r == Err(StepLimit) <==> s.stats.macroSteps == config.maxSteps)
  {
    hide Contract, RunInv, TraceInv, StatsInv, AllAt, Follows, SettleStep, AdvanceAll, NextTime, Ascending;
    ConfigIsValid(b, inv, config, s);
    LastIsPresent(b, inv, config, s);
    NextTimeIsPossible(b, good, inv, config, s.parts, s.now);
    var target := NextTime(b, config, s.parts, s.now);
    if target.Ok? && s.stats.macroSteps < config.maxSteps {
      AdvanceFromHere(b, good, inv, s.parts, s.now, target.value);
      var advanced := AdvanceAll(b, s.parts, target.value, Ascending(s.parts.Keys));
      if advanced.Ok? {
        SettleStepKeeps(b, good, inv, config, links, s, advanced.value, target.value);
      }
    }
  }

  lemma ConfigIsValid<P>(b: Behaviour<P>, inv: P -> bool, config: Config, s: RunState<P>)
    requires RunInv(b, inv, config, s)
    ensures config.Valid() && config.stop <= U64_MAX && s.stats.macroSteps <= config.maxSteps
  {
  }

  lemma LastIsPresent<P>(b: Behaviour<P>, inv: P -> bool, config: Config, s: RunState<P>)
    requires RunInv(b, inv, config, s)
    ensures AllAt(b, inv, s.parts, s.now)
  {
    assert s.trace[|s.trace| - 1] == Snapshot(s.now, s.parts);
  }

  /** No reported event can be in the past, and there is always room to advance. */
  lemma NextTimeIsPossible<P(!new)>(b: Behaviour<P>, good: P -> bool, inv: P -> bool, config: Config, parts: map<nat,
                                    P>, now: nat)
    requires Contract(b, good, inv) && AllAt(b, inv, parts, now) && now < config.stop <= U64_MAX && config.maxStep > 0
    ensures var r := NextTime(b, config, parts, now); r.Ok? && now < r.value <= config.stop
  {
    forall id | id in parts
      ensures FutureEvent(b, parts[id])
    {
    }
  }

  lemma AllStillHere<P>(b: Behaviour<P>, inv: P -> bool, parts: map<nat, P>, now: nat, target: nat, ids: seq<nat>)
    requires AllAt(b, inv, parts, now) && forall id :: id in parts ==> id in ids
    ensures Between(b, inv, parts, ids, now, target)
  {
  }

  lemma AdvanceFromHere<P(!new)>(b: Behaviour<P>, good: P -> bool, inv: P -> bool, parts: map<nat, P>, now: nat,
                                 target: nat)
    requires Contract(b, good, inv) && AllAt(b, inv, parts, now) && now < target <= U64_MAX
    requires forall id :: id in parts && b.nextEvent(parts[id]).Some? ==> target <= b.nextEvent(parts[id]).value
    ensures var r := AdvanceAll(b, parts, target, Ascending(parts.Keys));
            && (r.Ok? ==> AllAt(b, inv, r.value, target) && r.value.Keys == parts.Keys)
            && (r.Err? ==> RunError(r.error))
  {
    hide Contract, AllAt, Ascending, AdvanceAll, Between, SamePorts;
    AllStillHere(b, inv, parts, now, target, Ascending(parts.Keys));
    AdvanceAllArrives(b, good, inv, parts, now, target, Ascending(parts.Keys));
  }

  lemma NextFollows<P>(b: Behaviour<P>, config: Config, s: RunState<P>, target: nat, parts: map<nat, P>)
    requires NextTime(b, config, s.parts, s.now) == Ok(target) && s.now < target && parts.Keys == s.parts.Keys
    requires config.stop <= U64_MAX
    ensures Follows(b, config, Snapshot(s.now, s.parts), Snapshot(target, parts))
  {
  }

  lemma StatsGrow<P>(config: Config, s: RunState<P>, t: RunState<P>, cycles: nat)
    requires StatsInv(config, s) && s.stats.macroSteps < config.maxSteps && t.stats == StatsAfter(s, cycles)
    requires t.now <= config.stop && t.now <= s.now + config.maxStep && cycles < config.maxDeltaCycles
    requires t.parts.Keys == s.parts.Keys
    ensures StatsInv(config, t)
  {
    SameSize(t.parts, s.parts);
    CountersStep(s.stats.macroSteps, config.maxStep, s.now, t.now, s.stats.deltaCycles, cycles, config.maxDeltaCycles,
                 |s.parts|);
  }

  lemma SamePortsSameKeys<P>(b: Behaviour<P>, before: map<nat, P>, after: map<nat, P>)
    requires SamePorts(b, before, after)
    ensures before.Keys == after.Keys
  {
  }

  ghost predicate RecordedWell<P>(b: Behaviour<P>, inv: P -> bool, config: Config, s: RunState<P>, target: nat,
                                  r: Result<RunState<P>, CosimError>) {
    && (r.Ok? ==> RunInv(b, inv, config, r.value) && r.value.parts.Keys == s.parts.Keys && r.value.now == target)
    && (r.Err? ==> RunError(r.error))
  }

  lemma SettleStepKeeps<P(!new)>(b: Behaviour<P>, good: P -> bool, inv: P -> bool, config: Config, links: seq<Link>,
                                 s: RunState<P>,
                                 advanced: map<nat, P>, target: nat)
    requires Contract(b, good, inv) && RunInv(b, inv, config, s) && s.stats.macroSteps < config.maxSteps
    requires NextTime(b, config, s.parts, s.now) == Ok(target) && s.now < target
    requires AllAt(b, inv, advanced, target) && advanced.Keys == s.parts.Keys
    ensures RecordedWell(b, inv, config, s, target, SettleStep(b, config, links, s, advanced, target))
  {
    hide Contract, Record, Settle, TraceInv, StatsInv, AllAt, Follows, NextTime, SamePorts;
    SettleKeeps(b, good, inv, config.maxDeltaCycles, links, advanced, target, 0);
    SettleErrors(b, config.maxDeltaCycles, links, advanced, target, 0);
    var settled := Settle(b, config.maxDeltaCycles, links, advanced, target, 0);
    if settled.Ok? {
      RecordErrors(b, settled.value.0, target, s.signals);
      SamePortsSameKeys(b, advanced, settled.value.0);
      var r := Recorded(b, s, target, settled.value.0, StatsAfter(s, settled.value.1));
      if r.Ok? {
        NextFollows(b, config, s, target, settled.value.0);
        TraceGrows(b, inv, config, s, r.value);
        StatsGrow(config, s, r.value, settled.value.1);
      }
    }
  }

  lemma {:induction false} SettleErrors<P>(b: Behaviour<P>, limit: nat, links: seq<Link>, parts: map<nat, P>, time: nat,
                                           cycle: nat)
    requires cycle <= limit
    ensures var r := Settle(b, limit, links, parts, time, cycle);
            r.Err? ==> RunError(r.error) || r.error == ParticipantTimeInvalid
    decreases limit - cycle
  {
    if cycle < limit {
      ReadAllErrors(b, parts, links);
      var values := ReadAll(b, parts, links);
      if values.Ok? {
        WriteAllErrors(b, parts, links, values.value, time);
      }
      var round := Round(b, parts, links, time);
      if round.Ok? {
        SettleErrors(b, limit, links, round.value.0, time, cycle + 1);
      }
    }
  }

  lemma SameSize<P>(a: map<nat, P>, b: map<nat, P>)
    requires a.Keys == b.Keys
    ensures |a| == |b|
  {
    assert |a| == |a.Keys| && |b| == |b.Keys|;
  }

  lemma {:induction false} RunLoopKeeps<P(!new)>(b: Behaviour<P>, good: P -> bool, inv: P -> bool, config: Config,
                                                 links: seq<Link>,
                                                 s: RunState<P>)
    requires Contract(b, good, inv) && RunInv(b, inv, config, s)
    ensures var r := RunLoop(b, config, links, s);
            && (r.Ok? ==>
                RunInv(b, inv, config, r.value) && r.value.now == config.stop && r.value.parts.Keys == s.parts.Keys)
            && (r.Err? ==> RunError(r.error) || r.error == StepLimit)
    decreases config.maxSteps - s.stats.macroSteps
  {
    hide Contract;
    if s.now < config.stop {
      MacroStepKeeps(b, good, inv, config, links, s);
      var next := MacroStep(b, config, links, s);
      if next.Ok? {
        RunLoopKeeps(b, good, inv, config, links, next.value);
      }
    }
  }

  /** The settling at time zero and the first record, once every participant is initialized. */
  lemma FirstSettling<P(!new)>(b: Behaviour<P>, good: P -> bool, inv: P -> bool, config: Config, parts: map<nat, P>,
                               links: seq<Link>,
                               signals: seq<Signal>)
    requires Contract(b, good, inv) && config.Valid() && config.stop <= U64_MAX && AllAt(b, inv, parts, 0)
    ensures var settled := Settle(b, config.maxDeltaCycles, links, parts, 0, 0);
            && (settled.Err? ==> RunError(settled.error))
            && (settled.Ok? ==> StartedWell(b, inv, config, parts,
                                            FirstRecorded(b, settled.value.0, settled.value.1, signals)))
  {
    hide Contract, Settle, Record, TraceInv, StatsInv, AllAt, SamePorts;
    SettleKeeps(b, good, inv, config.maxDeltaCycles, links, parts, 0, 0);
    SettleErrors(b, config.maxDeltaCycles, links, parts, 0, 0);
    var settled := Settle(b, config.maxDeltaCycles, links, parts, 0, 0);
    if settled.Ok? {
      RecordErrors(b, settled.value.0, 0, signals);
      var r := FirstRecorded(b, settled.value.0, settled.value.1, signals);
      if r.Ok? {
        assert r.value.trace == [Snapshot(0, r.value.parts)];
        FirstRecord(b, inv, config, r.value);
      }
    }
  }

  function FirstRecorded<P>(b: Behaviour<P>, parts: map<nat, P>, cycles: nat, signals: seq<Signal>)
    : Result<RunState<P>, CosimError>
  {
    Recorded(b, RunState(parts, 0, Stats(0, 0, 0), signals, []), 0, parts, Stats(0, cycles, 0))
  }

  ghost predicate StartedWell<P>(b: Behaviour<P>, inv: P -> bool, config: Config, parts: map<nat, P>,
                                 r: Result<RunState<P>, CosimError>) {
    && (r.Ok? ==> RunInv(b, inv, config, r.value) && r.value.parts.Keys == parts.Keys && r.value.now == 0)
    && (r.Err? ==> RunError(r.error))
  }

  /** `Begin` part by part. */
  lemma BeginIs<P>(b: Behaviour<P>, config: Config, parts: map<nat, P>, links: seq<Link>)
    ensures var (begun, initialized) := (Begin(b, config, parts, links),
                                         InitializeAll(b, parts, Ascending(parts.Keys)));
            if initialized.Err? then begun == Err(initialized.error)
            else
              var signals := NewRecorder(b, initialized.value, Ascending(initialized.value.Keys));
              if signals.Err? then begun == Err(signals.error)
              else
                var settled := Settle(b, config.maxDeltaCycles, links, initialized.value, 0, 0);
                if settled.Err? then begun == Err(settled.error)
                else begun == FirstRecorded(b, settled.value.0, settled.value.1, signals.value)
  {
    hide InitializeAll, NewRecorder, Settle, Record, Ascending;
  }

  lemma FailedWell<P>(b: Behaviour<P>, inv: P -> bool, config: Config, parts: map<nat, P>, e: CosimError)
    requires RunError(e)
    ensures StartedWell(b, inv, config, parts, Err(e))
  {
  }

  lemma BeginKeeps<P(!new)>(b: Behaviour<P>, good: P -> bool, inv: P -> bool, config: Config, parts: map<nat, P>,
                            links: seq<Link>)
    requires Contract(b, good, inv) && config.Valid() && config.stop <= U64_MAX
    requires forall id :: id in parts ==> good(parts[id])
    ensures StartedWell(b, inv, config, parts, Begin(b, config, parts, links))
  {
    hide Begin, InitializeAll, NewRecorder, Settle, FirstRecorded, Ascending, StartedWell, Contract, AllAt, SamePorts;
    BeginIs(b, config, parts, links);
    var initialized := InitializeAll(b, parts, Ascending(parts.Keys));
    InitializeAllArrives(b, good, inv, parts, Ascending(parts.Keys));
    if initialized.Err? {
      FailedWell(b, inv, config, parts, initialized.error);
    } else {
      SignalsOrSettling(b, good, inv, config, parts, initialized.value, links);
    }
  }

  lemma SignalsOrSettling<P(!new)>(b: Behaviour<P>, good: P -> bool, inv: P -> bool, config: Config, parts: map<nat, P>,
                                   initialized: map<nat, P>, links: seq<Link>)
    requires Contract(b, good, inv) && config.Valid() && config.stop <= U64_MAX && AllAt(b, inv, initialized, 0)
    requires InitializeAll(b, parts, Ascending(parts.Keys)) == Ok(initialized)
    ensures StartedWell(b, inv, config, parts, Begin(b, config, parts, links))
  {
    hide Begin, InitializeAll, NewRecorder, Settle, FirstRecorded, Ascending, RunInv, Contract, AllAt;
    BeginIs(b, config, parts, links);
    NewRecorderErrors(b, initialized, Ascending(initialized.Keys));
    var signals := NewRecorder(b, initialized, Ascending(initialized.Keys));
    if signals.Ok? {
      FirstSettling(b, good, inv, config, initialized, links, signals.value);
    }
  }

  lemma FirstRecord<P(!new)>(b: Behaviour<P>, inv: P -> bool, config: Config, s: RunState<P>)
    requires AllAt(b, inv, s.parts, 0) && config.Valid()
    requires s.now == 0 && s.trace == [Snapshot(0, s.parts)] && s.stats == Stats(0, s.stats.deltaCycles, 0)
    requires s.stats.deltaCycles < config.maxDeltaCycles
    ensures TraceInv(b, inv, config, s) && StatsInv(config, s)
  {
  }

  lemma {:induction false} NewRecorderErrors<P>(b: Behaviour<P>, parts: map<nat, P>, ids: seq<nat>)
    requires forall id :: id in ids ==> id in parts
    ensures var r := NewRecorder(b, parts, ids); r.Err? ==> RunError(r.error)
    decreases |ids|
  {
    if |ids| > 0 {
      PortSignalsErrors(ids[0], b.ports(parts[ids[0]]), Ascending(OutputNames(b.ports(parts[ids[0]]))));
      NewRecorderErrors(b, parts, ids[1..]);
    }
  }

  lemma {:induction false} PortSignalsErrors(id: nat, ports: seq<Port>, names: seq<nat>)
    ensures var r := PortSignals(id, ports, names); r.Err? ==> RunError(r.error)
    decreases |names|
  {
    if |names| > 0 {
      PortSignalsErrors(id, ports, names[1..]);
    }
  }

  /**
   * On Ok the macro times rise strictly from 0 to exactly `stop`, never pass a reported next event, and all
   * participants share the time at each record; the statistics obey their bounds. The stalled-time branch
   * and the two contract checks cannot fire, saturating addition included.
   */
  lemma WholeRun<P(!new)>(b: Behaviour<P>, good: P -> bool, inv: P -> bool, config: Config, parts: map<nat, P>,
                          links: seq<Link>)
    requires Contract(b, good, inv) && config.stop <= U64_MAX && forall id :: id in parts ==> good(parts[id])
    ensures var r := Simulate(b, config, parts, links);
            && (r.Ok? ==>
                RunInv(b, inv, config, r.value) && r.value.now == config.stop && r.value.parts.Keys == parts.Keys)
            && (r.Err? ==> !Impossible(r.error) && (Early(r.error) || RunError(r.error) || r.error == StepLimit))
  {
    hide Contract, RunInv, Begin, RunLoop, CheckLinks, SortLinks;
    if config.Valid() {
      LinkErrors(b, parts, links);
      var sorted := ValidatedLinks(b, parts, links);
      if sorted.Ok? {
        BeginKeeps(b, good, inv, config, parts, sorted.value);
        var s := Begin(b, config, parts, sorted.value);
        if s.Ok? {
          RunLoopKeeps(b, good, inv, config, sorted.value, s.value);
        }
      }
    }
  }

  /** What the master asks of its configuration, its participants and its links before it starts. */
  ghost predicate Admissible<P>(b: Behaviour<P>, config: Config, parts: map<nat, P>, links: seq<Link>) {
    && config.stop != 0 && config.maxStep != 0 && config.maxDeltaCycles != 0 && config.maxSteps != 0
    && parts != map[] && LinksValid(b, parts, SortLinks(links))
  }

  /** It refuses to start exactly if that is not met. */
  lemma RefusalIsExact<P(!new)>(b: Behaviour<P>, good: P -> bool, inv: P -> bool, config: Config, parts: map<nat, P>,
                                links: seq<Link>)
    requires Contract(b, good, inv) && config.stop <= U64_MAX && forall id :: id in parts ==> good(parts[id])
    ensures var r := Simulate(b, config, parts, links);
            (r.Err? && Early(r.error)) <==> !Admissible(b, config, parts, links)
  {
    hide Contract, LinksValid, CheckLinks, Begin, RunLoop, SortLinks;
    LinkErrors(b, parts, links);
    CheckLinksIsExact(b, parts, SortLinks(links), {});
    var sorted := ValidatedLinks(b, parts, links);
    if config.Valid() && sorted.Ok? {
      BeginKeeps(b, good, inv, config, parts, sorted.value);
      var s := Begin(b, config, parts, sorted.value);
      if s.Ok? {
        RunLoopKeeps(b, good, inv, config, sorted.value, s.value);
      }
    }
  }

  lemma LinkErrors<P>(b: Behaviour<P>, parts: map<nat, P>, links: seq<Link>)
    ensures var r := ValidatedLinks(b, parts, links); r.Err? ==> Early(r.error)
  {
    CheckErrors(b, parts, SortLinks(links), {});
  }

  lemma {:induction false} CheckErrors<P>(b: Behaviour<P>, parts: map<nat, P>, links: seq<Link>, targets: set<Endpoint>)
    ensures var r := CheckLinks(b, parts, links, targets); r.Err? ==> Early(r.error)
    decreases |links|
  {
    if |links| > 0 {
      CheckErrors(b, parts, links[1..], targets + {links[0].target});
    }
  }

  /* ---- Exact times ---- */

  /** Nobody reports an event at any record. */
  ghost predicate Quiet<P>(b: Behaviour<P>, trace: seq<Snapshot<P>>) {
    forall i, id :: 0 <= i < |trace| && id in trace[i].parts ==> b.nextEvent(trace[i].parts[id]).None?
  }

  lemma {:induction false} QuietTimes<P>(b: Behaviour<P>, inv: P -> bool, config: Config, s: RunState<P>, i: nat)
    requires RunInv(b, inv, config, s) && Quiet(b, s.trace) && i < |s.trace|
    ensures s.trace[i].time == Min(i * config.maxStep, config.stop)
    decreases i
  {
    hide AllAt;
    if i > 0 {
      QuietTimes(b, inv, config, s, i - 1);
      assert Follows(b, config, s.trace[i - 1], s.trace[i]);
      assert i * config.maxStep == (i - 1) * config.maxStep + config.maxStep;
    }
  }

  /** Record `i` is made after `i` full steps, the last one at `stop`; so there are `stop / maxStep`, rounded up. */
  ghost predicate FullSteps<P>(config: Config, s: RunState<P>) {
    && config.maxStep > 0 && s.stats.macroSteps == (config.stop + config.maxStep - 1) / config.maxStep
    && forall i :: 0 <= i < |s.trace| ==> s.trace[i].time == Min(i * config.maxStep, config.stop)
  }

  lemma QuietSteps<P>(b: Behaviour<P>, inv: P -> bool, config: Config, s: RunState<P>)
    requires RunInv(b, inv, config, s) && Quiet(b, s.trace) && s.now == config.stop
    ensures FullSteps(config, s)
  {
    hide AllAt, Quiet, Reached;
    forall i | 0 <= i < |s.trace|
      ensures s.trace[i].time == Min(i * config.maxStep, config.stop)
    {
      QuietTimes(b, inv, config, s, i);
    }
    var n := s.stats.macroSteps;
    assert n > 0 ==> Follows(b, config, s.trace[n - 1], s.trace[n]);
    RoundedUp(config.stop, config.maxStep, n);
  }

  /** Without reported events a run takes full steps only. */
  lemma QuietRun<P(!new)>(b: Behaviour<P>, good: P -> bool, inv: P -> bool, config: Config, parts: map<nat, P>,
                          links: seq<Link>)
    requires Contract(b, good, inv) && config.stop <= U64_MAX && forall id :: id in parts ==> good(parts[id])
    requires Simulate(b, config, parts, links).Ok? && Quiet(b, Simulate(b, config, parts, links).value.trace)
    ensures FullSteps(config, Simulate(b, config, parts, links).value)
  {
    hide Contract, Simulate, RunInv, Quiet, FullSteps;
    WholeRun(b, good, inv, config, parts, links);
    QuietSteps(b, inv, config, Simulate(b, config, parts, links).value);
  }

  lemma RoundedUp(stop: nat, step: nat, n: nat)
    requires step > 0 && stop <= n * step && (n > 0 ==> (n - 1) * step < stop)
    ensures n == (stop + step - 1) / step
  {
    var above := stop + step - 1;
    var left := above - n * step;
    assert (n - 1) * step == n * step - step;
    var d: int := n - above / step;
    assert d * step == above % step - left by {
      assert above == above / step * step + above % step;
    }
    assert d > 0 ==> d * step >= step;
    assert d < 0 ==> d * step + step <= 0;
  }

  /* ---- Settled at every record ---- */

  ghost predicate TraceSettled<P>(b: Behaviour<P>, input: (P, nat) -> Option<Value>, links: seq<Link>,
                                  trace: seq<Snapshot<P>>) {
    forall i :: 0 <= i < |trace| ==> LinksSettled(b, input, trace[i].parts, links)
  }

  lemma MacroStepSettles<P(!new)>(b: Behaviour<P>, good: P -> bool, inv: P -> bool, input: (P, nat) -> Option<Value>,
                                  config: Config,
                                  links: seq<Link>, s: RunState<P>)
    requires Contract(b, good, inv) && IdleWrites(b, inv, input) && RunInv(b, inv, config, s) && s.now < config.stop
    requires TraceSettled(b, input, links, s.trace) && MacroStep(b, config, links, s).Ok?
    ensures TraceSettled(b, input, links, MacroStep(b, config, links, s).value.trace)
  {
    hide Contract, IdleWrites, RunInv, AllAt, Settle, AdvanceAll, NextTime, Ascending, LinksSettled, Record;
    ConfigIsValid(b, inv, config, s);
    LastIsPresent(b, inv, config, s);
    NextTimeIsPossible(b, good, inv, config, s.parts, s.now);
    var target := NextTime(b, config, s.parts, s.now).value;
    AdvanceFromHere(b, good, inv, s.parts, s.now, target);
    var advanced := AdvanceAll(b, s.parts, target, Ascending(s.parts.Keys)).value;
    SettledOnReturn(b, good, inv, input, config.maxDeltaCycles, links, advanced, target, 0);
    var settled := Settle(b, config.maxDeltaCycles, links, advanced, target, 0).value.0;
    assert MacroStep(b, config, links, s).value.trace == s.trace + [Snapshot(target, settled)];
    hide MacroStep, SettleStep, Recorded;
  }

  /** What the first record is made of. */
  lemma BegunFrom<P>(b: Behaviour<P>, config: Config, parts: map<nat, P>, links: seq<Link>)
    returns (initialized: map<nat, P>, settled: map<nat, P>)
    requires Begin(b, config, parts, links).Ok?
    ensures InitializeAll(b, parts, Ascending(parts.Keys)) == Ok(initialized)
    ensures var r := Settle(b, config.maxDeltaCycles, links, initialized, 0, 0); r.Ok? && r.value.0 == settled
    ensures Begin(b, config, parts, links).value.trace == [Snapshot(0, settled)]
  {
    hide InitializeAll, NewRecorder, Settle, Record, Ascending;
    initialized := InitializeAll(b, parts, Ascending(parts.Keys)).value;
    settled := Settle(b, config.maxDeltaCycles, links, initialized, 0, 0).value.0;
  }

  lemma BeginSettles<P(!new)>(b: Behaviour<P>, good: P -> bool, inv: P -> bool, input: (P, nat) -> Option<Value>,
                              config: Config,
                              parts: map<nat, P>, links: seq<Link>)
    requires Contract(b, good, inv) && IdleWrites(b, inv, input) && forall id :: id in parts ==> good(parts[id])
    requires Begin(b, config, parts, links).Ok?
    ensures TraceSettled(b, input, links, Begin(b, config, parts, links).value.trace)
  {
    hide Contract, IdleWrites, AllAt, Settle, InitializeAll, Ascending, LinksSettled, Begin, SamePorts;
    var initialized, settled := BegunFrom(b, config, parts, links);
    InitializeAllArrives(b, good, inv, parts, Ascending(parts.Keys));
    SettledOnReturn(b, good, inv, input, config.maxDeltaCycles, links, initialized, 0, 0);
  }

  lemma {:induction false} RunLoopSettles<P(!new)>(b: Behaviour<P>, good: P -> bool, inv: P -> bool,
                                                   input: (P, nat) -> Option<Value>,
                                                   config: Config, links: seq<Link>, s: RunState<P>)
    requires Contract(b, good, inv) && IdleWrites(b, inv, input) && RunInv(b, inv, config, s)
    requires TraceSettled(b, input, links, s.trace) && RunLoop(b, config, links, s).Ok?
    ensures TraceSettled(b, input, links, RunLoop(b, config, links, s).value.trace)
    decreases config.maxSteps - s.stats.macroSteps
  {
    hide Contract, IdleWrites, RunInv, MacroStep, TraceSettled;
    NowWithinStop(b, inv, config, s);
    if s.now < config.stop {
      MacroStepKeeps(b, good, inv, config, links, s);
      MacroStepSettles(b, good, inv, input, config, links, s);
      RunLoopSettles(b, good, inv, input, config, links, MacroStep(b, config, links, s).value);
    }
  }

  lemma NowWithinStop<P>(b: Behaviour<P>, inv: P -> bool, config: Config, s: RunState<P>)
    requires RunInv(b, inv, config, s)
    ensures s.now <= config.stop && s.stats.macroSteps <= config.maxSteps
  {
  }

  /** In a successful run every link's target holds its source's output at every record. */
  lemma WholeRunSettled<P(!new)>(b: Behaviour<P>, good: P -> bool, inv: P -> bool, input: (P, nat) -> Option<Value>,
                                 config: Config,
                                 parts: map<nat, P>, links: seq<Link>)
    requires Contract(b, good, inv) && IdleWrites(b, inv, input)
    requires config.stop <= U64_MAX && forall id :: id in parts ==> good(parts[id])
    requires Simulate(b, config, parts, links).Ok?
    ensures TraceSettled(b, input, links, Simulate(b, config, parts, links).value.trace)
  {
    hide Contract, IdleWrites, TraceSettled, RunInv, Begin, RunLoop, CheckLinks;
    var sorted := ValidatedLinks(b, parts, links).value;
    BeginKeeps(b, good, inv, config, parts, sorted);
    BeginSettles(b, good, inv, input, config, parts, sorted);
    RunLoopSettles(b, good, inv, input, config, sorted, Begin(b, config, parts, sorted).value);
    SortingKeepsSettled(b, input, sorted, links, Simulate(b, config, parts, links).value.trace);
  }

  lemma SortingKeepsSettled<P>(b: Behaviour<P>, input: (P, nat) -> Option<Value>, sorted: seq<Link>, links: seq<Link>,
                               trace: seq<Snapshot<P>>)
    requires multiset(sorted) == multiset(links) && TraceSettled(b, input, sorted, trace)
    ensures TraceSettled(b, input, links, trace)
  {
    forall i, k | 0 <= i < |trace| && 0 <= k < |links|
      ensures SettledLink(b, input, trace[i].parts, links[k])
    {
      assert links[k] in multiset(sorted);
      var j :| 0 <= j < |sorted| && sorted[j] == links[k];
      assert SettledLink(b, input, trace[i].parts, sorted[j]);
    }
  }
}
