/** Sessions driven step by step: agreement with the batch loop, what every operation keeps, and timing. */
module Incremental {
  import opened Wrappers
  import opened Logic
  import opened Circuit
  import opened Kernel
  import opened Projection
  import opened Levelized
  import opened Session

  /* ---- Any way of cutting the run into advances gives the batch run ---- */

  function AdvanceAll(p: Program, stop: nat, current: nat, s: State, targets: seq<nat>)
    : (r: Result<(nat, State), DigitalError>)
    requires Ready(p, s)
    decreases |targets|
  {
    if |targets| == 0 then Ok((current, s))
    else
      var next :- Advance(p, stop, current, s, targets[0]);
      AdvanceAll(p, stop, targets[0], next, targets[1..])
  }

  /** Never backwards and never past the stop time. */
  predicate Legal(stop: nat, current: nat, targets: seq<nat>)
    decreases |targets|
  {
    |targets| == 0 ||
    (current <= targets[0] && targets[0] * FS_PER_PS <= stop + HALF_PS && Legal(stop, targets[0], targets[1..]))
  }

  function At(target: nat, r: Result<State, DigitalError>): Result<(nat, State), DigitalError> {
    match r
    case Ok(s) => Ok((target, s))
    case Err(e) => Err(e)
  }

  lemma {:induction false} ProcessSplit(p: Program, stop: nat, s: State, first: nat, bound: nat)
    requires Ready(p, s) && first <= bound
    ensures match Process(p, stop, s, first)
            case Ok(t) => Process(p, stop, s, bound) == Process(p, stop, t, bound)
            case Err(e) => Process(p, stop, s, bound) == Err(e)
    decreases Measure(s)
  {
    if |s.queue| > 0 && s.queue[0].time <= first {
      StepReady(p, stop, s);
      var next := Step(p, stop, s);
      if next.Ok? {
        ProcessSplit(p, stop, next.value, first, bound);
      }
    }
  }

  /** Legal targets: exactly one `process_until` to the last of them. Otherwise an error. */
  lemma {:induction false} IncrementalEqualsBatch(p: Program, stop: nat, current: nat, s: State, targets: seq<nat>)
    requires Ready(p, s) && |targets| > 0
    ensures var last := targets[|targets| - 1];
            if Legal(stop, current, targets)
            then AdvanceAll(p, stop, current, s, targets) == At(last, Process(p, stop, s, Bound(last)))
            else AdvanceAll(p, stop, current, s, targets).Err?
    decreases |targets|
  {
    var first, rest := targets[0], targets[1..];
    var next := Advance(p, stop, current, s, first);
    if |rest| == 0 {
      assert rest == [] && Legal(stop, first, rest);
    } else {
      if Legal(stop, current, targets) {
        LegalRises(stop, first, rest);
        ProcessSplit(p, stop, s, Bound(first), Bound(rest[|rest| - 1]));
      }
      if next.Ok? {
        IncrementalEqualsBatch(p, stop, first, next.value, rest);
      }
    }
  }

  lemma {:induction false} LegalRises(stop: nat, current: nat, targets: seq<nat>)
    requires Legal(stop, current, targets) && |targets| > 0
    ensures current <= targets[|targets| - 1]
    decreases |targets|
  {
    if |targets| > 1 {
      LegalRises(stop, targets[0], targets[1..]);
    }
  }

  lemma {:induction false} BeyondStop(p: Program, stop: nat, s: State, bound: nat)
    requires WellFormed(p) && Base(p, stop, s) && stop <= bound
    ensures Process(p, stop, s, bound) == Process(p, stop, s, stop)
    decreases Measure(s)
  {
    if |s.queue| > 0 {
      assert s.queue[0] in s.queue;
      StepReady(p, stop, s);
      StepKeepsBase(p, stop, s);
      var next := Step(p, stop, s);
      if next.Ok? {
        BeyondStop(p, stop, next.value, bound);
      }
    }
  }

  /** A session with no input writes that reaches the stop time ends in the very state of the engine's run. */
  lemma SessionEqualsEngine(p: Program, stop: nat, targets: seq<nat>)
    requires WellFormed(p) && Start(p, stop).Ok? && |targets| > 0
    requires Legal(stop, 0, targets) && stop <= Bound(targets[|targets| - 1])
    ensures (StartKeeps(p, stop); AdvanceAll(p, stop, 0, Start(p, stop).value, targets))
         == At(targets[|targets| - 1], Simulate(p, stop))
  {
    var s := Start(p, stop).value;
    StartKeeps(p, stop);
    IncrementalEqualsBatch(p, stop, 0, s, targets);
    BeyondStop(p, stop, s, Bound(targets[|targets| - 1]));
  }

  /* ---- What every operation keeps ---- */

  /** Every pending event is more than half a picosecond ahead. */
  ghost predicate Ahead(current: nat, s: State) {
    forall e :: e in s.queue ==> e.time > Bound(current)
  }

  ghost predicate Undriven(p: Program, nets: set<nat>) {
    forall n :: n in nets && n < |p.drivers| ==> p.drivers[n] == []
  }

  lemma ProcessAhead(p: Program, stop: nat, s: State, current: nat)
    requires WellFormed(p) && Base(p, stop, s)
    ensures var r := Process(p, stop, s, Bound(current)); r.Ok? ==> Base(p, stop, r.value) && Ahead(current, r.value)
  {
    ProcessKeepsBase(p, stop, s, Bound(current));
    var r := Process(p, stop, s, Bound(current));
    if r.Ok? {
      var q := r.value.queue;
      assert forall i :: 0 < i < |q| ==> Less(q[0], q[i]);
    }
  }

  /** The reported next event is then strictly in the future, as the participant contract demands. */
  lemma NextEventIsFuture(s: State, current: nat)
    requires Ahead(current, s)
    ensures var next := NextEvent(s, current);
            next.Some? ==> current < next.value && |s.queue| > 0 && s.queue[0].time <= next.value * FS_PER_PS
                           && next.value * FS_PER_PS < s.queue[0].time + FS_PER_PS
  {
    if |s.queue| > 0 {
      assert s.queue[0] in s.queue;
    }
  }

  lemma AdvanceKeeps(p: Program, stop: nat, current: nat, s: State, target: nat)
    requires WellFormed(p) && Base(p, stop, s)
    ensures var r := Advance(p, stop, current, s, target);
            r.Ok? ==> current <= target && Base(p, stop, r.value) && Ahead(target, r.value)
  {
    ProcessAhead(p, stop, s, target);
  }

  lemma WriteKeeps(p: Program, stop: nat, externals: set<nat>, current: nat, s: State, net: nat, time: nat,
                   value: LogicValue)
    requires WellFormed(p) && Base(p, stop, s) && Ahead(current, s) && Undriven(p, externals)
    ensures var r := Write(p, stop, externals, current, s, net, time, value);
            r.Ok? ==>
              && Base(p, stop, r.value.0) && Ahead(current, r.value.0)
              && (r.value.1 <==> s.nets[net] != value) && (!r.value.1 ==> r.value.0 == s)
              && r.value.0.nets[net] == value
              && (forall n :: 0 <= n < |p.drivers| && |p.drivers[n]| == 0 && n != net ==>
                    r.value.0.nets[n] == s.nets[n])
  {
    var r := Write(p, stop, externals, current, s, net, time, value);
    if r.Ok? && r.value.1 {
      WrittenKeepsBase(p, stop, s, net, value);
      DependentsInRange(p, net);
      var written := s.(nets := s.nets[net := value]);
      EvaluationKeepsBase(p, stop, written, current * FS_PER_PS, p.dependents[net]);
      var evaluated := EvaluateList(p, stop, written, current * FS_PER_PS, p.dependents[net]).value;
      ProcessAhead(p, stop, evaluated, current);
      ProcessKeepsUndriven(p, stop, evaluated, Bound(current));
    }
  }

  /** The event loop never touches a net without drivers: only `write_external` does. */
  lemma {:induction false} ProcessKeepsUndriven(p: Program, stop: nat, s: State, bound: nat)
    requires WellFormed(p) && Base(p, stop, s)
    ensures var r := Process(p, stop, s, bound);
            r.Ok? ==> forall n :: 0 <= n < |p.drivers| && |p.drivers[n]| == 0 ==> r.value.nets[n] == s.nets[n]
    decreases Measure(s)
  {
    if |s.queue| > 0 && s.queue[0].time <= bound {
      PoppedEffect(p, s);
      StepReady(p, stop, s);
      StepKeepsBase(p, stop, s);
      var next := Step(p, stop, s);
      if next.Ok? {
        ProcessKeepsUndriven(p, stop, next.value, bound);
      }
    }
  }

  /* ---- Whole sessions ---- */

  datatype Op = AdvanceTo(target: nat) | WriteNet(net: nat, value: LogicValue)

  function Apply(p: Program, stop: nat, externals: set<nat>, current: nat, s: State, op: Op)
    : (r: Result<(nat, State), DigitalError>)
    requires WellFormed(p) && Ready(p, s)
    ensures r.Ok? ==> Ready(p, r.value.1)
  {
    match op
    case AdvanceTo(target) => At(target, Advance(p, stop, current, s, target))
    case WriteNet(net, value) =>
      match Write(p, stop, externals, current, s, net, current, value)
      case Ok((t, _)) => Ok((current, t))
      case Err(e) => Err(e)
  }

  function ApplyAll(p: Program, stop: nat, externals: set<nat>, current: nat, s: State, ops: seq<Op>)
    : (r: Result<(nat, State), DigitalError>)
    requires WellFormed(p) && Ready(p, s)
    ensures r.Ok? ==> Ready(p, r.value.1)
    decreases |ops|
  {
    if |ops| == 0 then Ok((current, s))
    else
      var (time, next) :- Apply(p, stop, externals, current, s, ops[0]);
      ApplyAll(p, stop, externals, time, next, ops[1..])
  }

  /** Delays, and all pending times, are whole picoseconds. */
  ghost predicate Aligned(p: Program, s: State) {
    && (forall c :: 0 <= c < |p.components| ==> p.components[c].delay % FS_PER_PS == 0)
    && (forall e :: e in s.queue ==> e.time % FS_PER_PS == 0)
  }

  /** The invariant of a session whose event times are whole picoseconds, at its current time. */
  ghost predicate SessionInv(p: Program, stop: nat, current: nat, s: State) {
    Inv(p, stop, current * FS_PER_PS, s) && Aligned(p, s) && Ahead(current, s)
  }

  lemma AlignedSum(a: nat, b: nat)
    requires a % FS_PER_PS == 0 && b % FS_PER_PS == 0
    ensures (a + b) % FS_PER_PS == 0
  {
  }

  lemma EvaluationKeepsAligned(p: Program, stop: nat, s: State, time: nat, comps: seq<nat>)
    requires Shaped(p, s) && Ordered(s) && Aligned(p, s) && time % FS_PER_PS == 0
    requires forall i :: 0 <= i < |comps| ==> comps[i] < |p.components|
    ensures var r := EvaluateList(p, stop, s, time, comps); r.Ok? ==> Aligned(p, r.value)
  {
    ListOrdered(p, stop, s, time, comps);
    forall c | 0 <= c < |p.components|
      ensures (time + p.components[c].delay) % FS_PER_PS == 0
    {
      AlignedSum(time, p.components[c].delay);
    }
  }

  lemma {:induction false} ProcessKeepsSession(p: Program, stop: nat, now: nat, current: nat, s: State)
    requires WellFormed(p) && Inv(p, stop, now, s) && Aligned(p, s) && now <= current * FS_PER_PS
    ensures var r := Process(p, stop, s, Bound(current)); r.Ok? ==> SessionInv(p, stop, current, r.value)
    decreases Measure(s)
  {
    if |s.queue| > 0 && s.queue[0].time <= Bound(current) {
      var time := s.queue[0].time;
      assert s.queue[0] in s.queue;
      assert time <= current * FS_PER_PS;
      StepKeepsInv(p, stop, now, s);
      StepReady(p, stop, s);
      PoppedEffect(p, s);
      EvaluationKeepsAligned(p, stop, Popped(p, s), time, AffectedFrom(p, s.nets, Popped(p, s).nets, 0));
      var next := Step(p, stop, s);
      if next.Ok? {
        ProcessKeepsSession(p, stop, time, current, next.value);
      }
    } else {
      ProcessAhead(p, stop, s, current);
      LaterNow(p, stop, now, current * FS_PER_PS, s);
    }
  }

  /** With nothing pending before `later`, it may stand for the time of the latest evaluation. */
  lemma LaterNow(p: Program, stop: nat, now: nat, later: nat, s: State)
    requires Inv(p, stop, now, s) && now <= later && forall e :: e in s.queue ==> later <= e.time
    ensures Inv(p, stop, later, s)
  {
    forall c: nat | IsGate(p, c)
      ensures GateInv(p, stop, later, s, c)
    {
      assert GateInv(p, stop, now, s, c);
    }
    forall c: nat | IsStore(p, c)
      ensures StoreInv(p, stop, later, s, c)
    {
      assert StoreInv(p, stop, now, s, c);
    }
  }

  /** The write and the evaluation of its dependents, before any event is processed. */
  lemma WrittenKeepsInv(p: Program, stop: nat, current: nat, s: State, net: nat, value: LogicValue)
    requires WellFormed(p) && Inv(p, stop, current * FS_PER_PS, s) && net < |p.drivers| && p.drivers[net] == []
    ensures var r := Written(p, stop, current, s, net, value); r.Ok? ==> Inv(p, stop, current * FS_PER_PS, r.value)
  {
    hide NetsConsistent, GatesInv, StoresInv, Sorted, Project;
    var time := current * FS_PER_PS;
    var written := s.(nets := s.nets[net := value]);
    var comps := p.dependents[net];
    WrittenKeepsBase(p, stop, s, net, value);
    DependentsInRange(p, net);
    forall c: nat | c < |p.components| && c !in comps
      ensures SameInputs(p.components[c], s.nets, written.nets)
    {
      assert net !in p.components[c].inputs.Values;
    }
    EvaluationRestores(p, stop, time, time, s, written, comps);
    EvaluationKeepsBase(p, stop, written, time, comps);
  }

  lemma WrittenKeepsAligned(p: Program, stop: nat, current: nat, s: State, net: nat, value: LogicValue)
    requires WellFormed(p) && Ready(p, s) && Ordered(s) && Aligned(p, s) && net < |p.drivers|
    ensures var r := Written(p, stop, current, s, net, value); r.Ok? ==> Aligned(p, r.value)
  {
    DependentsInRange(p, net);
    EvaluationKeepsAligned(p, stop, s.(nets := s.nets[net := value]), current * FS_PER_PS, p.dependents[net]);
  }

  lemma WriteKeepsSession(p: Program, stop: nat, externals: set<nat>, current: nat, s: State, net: nat,
                          value: LogicValue)
    requires WellFormed(p) && SessionInv(p, stop, current, s) && Undriven(p, externals)
    ensures var r := Write(p, stop, externals, current, s, net, current, value);
            r.Ok? ==> SessionInv(p, stop, current, r.value.0)
  {
    hide Written, Process, Aligned, GatesInv, StoresInv, Timely, NetsConsistent, Ordered, WellFormed;
    var r := Write(p, stop, externals, current, s, net, current, value);
    if r.Ok? && r.value.1 {
      WrittenKeepsInv(p, stop, current, s, net, value);
      WrittenKeepsAligned(p, stop, current, s, net, value);
      ProcessKeepsSession(p, stop, current * FS_PER_PS, current, Written(p, stop, current, s, net, value).value);
    }
  }

  /**
   * With whole-picosecond event times the projected-driver invariant holds after every successful sequence
   * of advances and input writes.
   */
  lemma {:induction false} SessionKeepsProjection(p: Program, stop: nat, externals: set<nat>, current: nat, s: State,
                                                  ops: seq<Op>)
    requires WellFormed(p) && SessionInv(p, stop, current, s) && Undriven(p, externals)
    ensures var r := ApplyAll(p, stop, externals, current, s, ops);
            r.Ok? ==> SessionInv(p, stop, r.value.0, r.value.1)
    decreases |ops|
  {
    if |ops| > 0 {
      match ops[0] {
        case AdvanceTo(target) =>
          if target >= current {
            ProcessKeepsSession(p, stop, current * FS_PER_PS, target, s);
          }
        case WriteNet(net, value) => WriteKeepsSession(p, stop, externals, current, s, net, value);
      }
      var next := Apply(p, stop, externals, current, s, ops[0]);
      if next.Ok? {
        SessionKeepsProjection(p, stop, externals, next.value.0, next.value.1, ops[1..]);
      }
    }
  }

  /** Whatever the times: net/driver consistency, and events strictly ahead, after every operation. */
  lemma {:induction false} SessionKeepsConsistency(p: Program, stop: nat, externals: set<nat>, current: nat, s: State,
                                                   ops: seq<Op>)
    requires WellFormed(p) && Base(p, stop, s) && Ahead(current, s) && Undriven(p, externals)
    ensures var r := ApplyAll(p, stop, externals, current, s, ops);
            r.Ok? ==> Base(p, stop, r.value.1) && Ahead(r.value.0, r.value.1)
    decreases |ops|
  {
    if |ops| > 0 {
      match ops[0] {
        case AdvanceTo(target) => AdvanceKeeps(p, stop, current, s, target);
        case WriteNet(net, value) => WriteKeeps(p, stop, externals, current, s, net, current, value);
      }
      var next := Apply(p, stop, externals, current, s, ops[0]);
      if next.Ok? {
        SessionKeepsConsistency(p, stop, externals, next.value.0, next.value.1, ops[1..]);
      }
    }
  }

  /**
   * A session from its start-up state, opened by the advance to time zero and driven by any operations. The
   * net/driver part needs nothing; the projected-driver part is proved for whole-picosecond event times.
   */
  lemma SessionFromStart(p: Program, stop: nat, externals: set<nat>, ops: seq<Op>)
    requires WellFormed(p) && Undriven(p, externals) && Start(p, stop).Ok?
    ensures var s := Start(p, stop).value;
            (StartKeeps(p, stop); ApplyAll(p, stop, externals, 0, s, [AdvanceTo(0)] + ops)).Ok? ==>
              var (current, t) := (StartKeeps(p, stop); ApplyAll(p, stop, externals, 0, s, [AdvanceTo(0)] + ops)).value;
              Base(p, stop, t) && Ahead(current, t) && (Aligned(p, s) ==> SessionInv(p, stop, current, t))
  {
    var s := Start(p, stop).value;
    StartKeeps(p, stop);
    AdvanceKeeps(p, stop, 0, s, 0);
    assert ([AdvanceTo(0)] + ops)[1..] == ops;
    var begun := Advance(p, stop, 0, s, 0);
    if begun.Ok? {
      SessionKeepsConsistency(p, stop, externals, 0, begun.value, ops);
      if Aligned(p, s) {
        ProcessKeepsSession(p, stop, 0, 0, s);
        SessionKeepsProjection(p, stop, externals, 0, begun.value, ops);
      }
    }
  }

  /* ---- Writes behind the latest batch ---- */

  /** After an Ok write the pending events still lead every gate to its present outputs. */
  ghost predicate WriteProjects(p: Program, stop: nat, externals: set<nat>, current: nat, s: State, net: nat,
                                value: LogicValue)
    requires WellFormed(p) && Ready(p, s)
  {
    var r := Write(p, stop, externals, current, s, net, current, value);
    r.Ok? ==> exists now :: Inv(p, stop, now, r.value.0)
  }

  /** So it is for every circuit, in every state at tick `current` whose latest batch was at `latest`. */
  ghost predicate WritesProject(stop: nat, current: nat, latest: nat) {
    forall p, externals, s, net, value ::
      WellFormed(p) && Inv(p, stop, latest, s) && Ahead(current, s) && Undriven(p, externals) ==>
        WriteProjects(p, stop, externals, current, s, net, value)
  }

  lemma TimelyWriteProjects(p: Program, stop: nat, externals: set<nat>, current: nat, latest: nat, s: State, net: nat,
                            value: LogicValue)
    requires WellFormed(p) && Inv(p, stop, latest, s) && Ahead(current, s) && Undriven(p, externals)
    requires latest <= current * FS_PER_PS
    ensures WriteProjects(p, stop, externals, current, s, net, value)
  {
    hide Written, Process, GatesInv, StoresInv, Timely, NetsConsistent, Ordered, WellFormed;
    var now := current * FS_PER_PS;
    LaterNow(p, stop, latest, now, s);
    var r := Write(p, stop, externals, current, s, net, current, value);
    if r.Ok? && r.value.1 {
      WrittenKeepsInv(p, stop, current, s, net, value);
      var last := ProcessKeepsInv(p, stop, now, Written(p, stop, current, s, net, value).value, Bound(current));
    }
  }

  /** A buffer with a delay of one picosecond. */
  const DELAYED: Program :=
    Program([Component(Gate(GateKind.Buffer), map[In := 0], [1], 1000, X, [])], [[0], []], [[], [DriverKey(0, 0)]])

  /** Its input 0, evaluated at `latest`, with that output still to come. */
  function Overtaken(latest: nat): State {
    EmptyState(DELAYED).(nets := [Zero, X], queue := [Event(latest + 1000, 0, DriverKey(0, 0), Zero)], sequence := 1,
                         scheduled := 1,
                         lastEval := map[0 := latest])
  }

  lemma DelayedIsWellFormed()
    ensures WellFormed(DELAYED) && Undriven(DELAYED, {0})
  {
    var c := DELAYED.components[0];
    assert c.inputs.Values == {0} by {
      assert c.inputs[In] in c.inputs.Values && c.inputs.Keys == {In};
      assert forall n :: n in c.inputs.Values ==> exists pin :: pin in c.inputs && c.inputs[pin] == n;
    }
    assert forall d :: ValidKey(DELAYED, d) <==> d == DriverKey(0, 0);
  }

  lemma OvertakenInv(stop: nat, current: nat, latest: nat)
    requires latest + FS_PER_PS <= stop && current * FS_PER_PS <= latest <= Bound(current)
    ensures Inv(DELAYED, stop, latest, Overtaken(latest))
  {
    var s := Overtaken(latest);
    assert NetConsistent(DELAYED, s, 1) by {
      assert DELAYED.drivers[1] == [DriverKey(0, 0)];
    }
    assert GateInv(DELAYED, stop, latest, s, 0) by {
      assert Project(Zero, s.queue[1..], DriverKey(0, 0)) == Zero;
      assert Projected(s, 0, 0) == Zero;
    }
  }

  /** The state after its input has been set to one at tick `current`: the older output comes last. */
  function Overtaking(current: nat, latest: nat): State {
    var time := current * FS_PER_PS;
    Overtaken(latest).(nets := [One, X], sequence := 2, scheduled := 2, lastEval := map[0 := time],
                       queue := [Event(time + 1000, 1, DriverKey(0, 0), One),
                                 Event(latest + 1000, 0, DriverKey(0, 0), Zero)])
  }

  lemma OvertakenEvaluated(stop: nat, current: nat, latest: nat)
    requires latest + FS_PER_PS <= stop && current * FS_PER_PS < latest <= Bound(current)
    ensures WellFormed(DELAYED) && Ready(DELAYED, Overtaken(latest))
    ensures Written(DELAYED, stop, current, Overtaken(latest), 0, One) == Ok(Overtaking(current, latest))
  {
    DelayedIsWellFormed();
    var s, time := Overtaken(latest), current * FS_PER_PS;
    var written := s.(nets := s.nets[0 := One]);
    assert written.nets == [One, X];
    var (rs, out) := Evaluate(DELAYED.components[0], written.nets, written.states[0]);
    assert out == Some([One]) && written.states[0 := rs] == written.states;
    var evaluated := written.(lastEval := written.lastEval[0 := time]);
    assert evaluated.lastEval == map[0 := time];
    var e := Event(time + 1000, 1, DriverKey(0, 0), One);
    assert Insert(s.queue, e) == [e] + s.queue == [e, s.queue[0]];
    assert ScheduleOutput(evaluated, time + 1000, 0, 0, One) == Ok(Overtaking(current, latest));
    assert ScheduleOutputs(DELAYED, stop, Overtaking(current, latest), time, 0, 1, [One])
        == Ok(Overtaking(current, latest));
    assert EvaluateOne(DELAYED, stop, written, time, 0) == Ok(Overtaking(current, latest));
    hide EvaluateOne;
    assert EvaluateList(DELAYED, stop, Overtaking(current, latest), time, [0][1..]) == Ok(Overtaking(current, latest));
  }

  lemma OvertakingWaits(stop: nat, current: nat, latest: nat)
    requires current * FS_PER_PS < latest
    ensures Ready(DELAYED, Overtaking(current, latest))
    ensures Process(DELAYED, stop, Overtaking(current, latest), Bound(current)) == Ok(Overtaking(current, latest))
  {
  }

  lemma OvertakingIsUnsettled(stop: nat, current: nat, latest: nat, now: nat)
    requires latest + FS_PER_PS <= stop && current * FS_PER_PS < latest <= Bound(current)
    ensures !Inv(DELAYED, stop, now, Overtaking(current, latest))
  {
    var s := Overtaking(current, latest);
    var d, rest := DriverKey(0, 0), s.queue[1..];
    assert rest == [s.queue[1]] && rest[1..] == [];
    assert Project(One, rest, d) == Project(Zero, rest[1..], d) == Zero;
    assert Projected(s, 0, 0) == Project(One, rest, d);
    assert CombOutputs(DELAYED.components[0], s.nets) == [One];
    assert IsGate(DELAYED, 0) && !GateInv(DELAYED, stop, now, s, 0);
  }

  /** A write behind the latest batch is overtaken: the output it causes is followed by the one from before it. */
  lemma LateWriteIsOvertaken(stop: nat, current: nat, latest: nat)
    requires latest + FS_PER_PS <= stop && current * FS_PER_PS < latest <= Bound(current)
    ensures WellFormed(DELAYED) && Inv(DELAYED, stop, latest, Overtaken(latest)) && Ahead(current, Overtaken(latest))
    ensures !WriteProjects(DELAYED, stop, {0}, current, Overtaken(latest), 0, One)
  {
    hide Inv, Written, WellFormed, Overtaking;
    DelayedIsWellFormed();
    OvertakenInv(stop, current, latest);
    OvertakenEvaluated(stop, current, latest);
    var t := Overtaking(current, latest);
    OvertakingWaits(stop, current, latest);
    forall now
      ensures !Inv(DELAYED, stop, now, t)
    {
      OvertakingIsUnsettled(stop, current, latest, now);
    }
  }

  /**
   * The latest batch may lie up to half a picosecond after the session's tick. Input writes then keep the
   * projected-driver invariant exactly if it does not.
   */
  lemma WritesProjectExactly(stop: nat, current: nat, latest: nat)
    requires latest + FS_PER_PS <= stop && latest <= Bound(current)
    ensures WritesProject(stop, current, latest) <==> latest <= current * FS_PER_PS
  {
    hide WriteProjects, NetsConsistent, GatesInv, StoresInv;
    if latest <= current * FS_PER_PS {
      forall p, externals, s, net, value | WellFormed(p) && Inv(p, stop, latest, s) && Ahead(current, s)
          && Undriven(p, externals)
        ensures WriteProjects(p, stop, externals, current, s, net, value)
      {
        TimelyWriteProjects(p, stop, externals, current, latest, s, net, value);
      }
    } else {
      DelayedIsWellFormed();
      LateWriteIsOvertaken(stop, current, latest);
      assert !WriteProjects(DELAYED, stop, {0}, current, Overtaken(latest), 0, One);
    }
  }

  /* ---- Timing ---- */

  /** The times of the batches the loop works through. */
  function AppliedTimes(p: Program, stop: nat, s: State, bound: nat): seq<nat>
    requires Ready(p, s)
    decreases Measure(s)
  {
    if |s.queue| == 0 || s.queue[0].time > bound then []
    else
      StepReady(p, stop, s);
      [s.queue[0].time] +
      match Step(p, stop, s)
      case Ok(next) => AppliedTimes(p, stop, next, bound)
      case Err(_) => []
  }

  /** Applied at `tick`, an event is at most half a picosecond early and less than one late. */
  predicate InTime(tick: nat, time: nat) {
    time <= tick * FS_PER_PS + HALF_PS && tick * FS_PER_PS < time + FS_PER_PS
  }

  predicate AllInTime(tick: nat, times: seq<nat>) {
    forall i :: 0 <= i < |times| ==> InTime(tick, times[i])
  }

  lemma {:induction false} AppliedWithin(p: Program, stop: nat, s: State, low: nat, tick: nat)
    requires WellFormed(p) && Base(p, stop, s) && (forall e :: e in s.queue ==> low <= e.time)
    requires tick * FS_PER_PS < low + FS_PER_PS
    ensures AllInTime(tick, AppliedTimes(p, stop, s, Bound(tick)))
    decreases Measure(s)
  {
    hide NetsConsistent, Ordered, Step, WellFormed, Popped;
    if |s.queue| > 0 && s.queue[0].time <= Bound(tick) {
      assert s.queue[0] in s.queue;
      StepReady(p, stop, s);
      StepKeepsBase(p, stop, s);
      StepNotBefore(p, stop, s, low);
      var next := Step(p, stop, s);
      if next.Ok? {
        AppliedWithin(p, stop, next.value, low, tick);
      }
    }
  }

  /** A scheduler that never passes the reported next event applies every event in time ... */
  lemma AdvanceInTime(p: Program, stop: nat, current: nat, s: State, target: nat)
    requires WellFormed(p) && Base(p, stop, s) && Ahead(current, s) && target <= U64_MAX
    requires NextEvent(s, current).Some? ==> target <= NextEvent(s, current).value
    ensures AllInTime(target, AppliedTimes(p, stop, s, Bound(target)))
  {
    if |s.queue| > 0 {
      assert s.queue[0] in s.queue;
      assert forall i :: 0 < i < |s.queue| ==> Less(s.queue[0], s.queue[i]);
      NextEventIsFuture(s, current);
      AppliedWithin(p, stop, s, s.queue[0].time, target);
    }
  }

  /** ... also those that an input write brings about. */
  lemma WriteInTime(p: Program, stop: nat, current: nat, s: State, net: nat, value: LogicValue)
    requires WellFormed(p) && Base(p, stop, s) && Ahead(current, s) && net < |p.drivers| && p.drivers[net] == []
    requires Written(p, stop, current, s, net, value).Ok?
    ensures AllInTime(current, AppliedTimes(p, stop, Written(p, stop, current, s, net, value).value, Bound(current)))
  {
    var written := s.(nets := s.nets[net := value]);
    DependentsInRange(p, net);
    WrittenKeepsBase(p, stop, s, net, value);
    EvaluationKeepsBase(p, stop, written, current * FS_PER_PS, p.dependents[net]);
    ListOrdered(p, stop, written, current * FS_PER_PS, p.dependents[net]);
    AppliedWithin(p, stop, Written(p, stop, current, s, net, value).value, current * FS_PER_PS, current);
  }
}
