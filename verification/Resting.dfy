/**
 * Acyclic zero-delay sessions: after every operation the nets are one topological pass over the present inputs,
 * whatever the event times, and exactly as long as inputs are written by the stop time.
 */
module Resting {
  import opened Wrappers
  import opened Logic
  import opened Circuit
  import opened Kernel
  import opened Projection
  import opened Levelized
  import opened Session
  import opened Incremental

  /* ---- When a component was last evaluated does not matter to a run ---- */

  /** The two differ at most in the times of evaluation. */
  ghost predicate SameBut(s: State, t: State) {
    t == s.(lastEval := t.lastEval) && t.lastEval.Keys == s.lastEval.Keys
  }

  ghost predicate SameResult(r: Result<State, DigitalError>, r': Result<State, DigitalError>) {
    if r.Ok? then r'.Ok? && SameBut(r.value, r'.value) else r' == r
  }

  lemma {:induction false} OutputsCommute(p: Program, stop: nat, s: State, t: State, time: nat, c: nat, o: nat,
                                          values: seq<LogicValue>)
    requires c < |p.components| && Counted(s) && Counted(t) && SameBut(s, t)
    ensures SameResult(ScheduleOutputs(p, stop, s, time, c, o, values), ScheduleOutputs(p, stop, t, time, c, o, values))
    decreases |values| - o
  {
    hide Insert;
    if o < |values| && o < |p.components[c].outputs| {
      var at := time + p.components[c].delay;
      var next := if at <= stop then ScheduleOutput(s, at, c, o, values[o]) else Ok(s);
      var next' := if at <= stop then ScheduleOutput(t, at, c, o, values[o]) else Ok(t);
      if next.Ok? {
        OutputsCommute(p, stop, next.value, next'.value, time, c, o + 1, values);
      }
    }
  }

  lemma OneCommutes(p: Program, stop: nat, s: State, t: State, time: nat, c: nat)
    requires Shaped(p, s) && Shaped(p, t) && c < |p.components| && SameBut(s, t)
    ensures SameResult(EvaluateOne(p, stop, s, time, c), EvaluateOne(p, stop, t, time, c))
  {
    hide Evaluate, ScheduleOutputs;
    var (rs, out) := Evaluate(p.components[c], s.nets, s.states[c]);
    if out.Some? {
      var states := s.states[c := rs];
      OutputsCommute(p, stop, s.(states := states, lastEval := s.lastEval[c := time]),
                     t.(states := states, lastEval := t.lastEval[c := time]), time, c, 0, out.value);
    }
  }

  lemma {:induction false} ListCommutes(p: Program, stop: nat, s: State, t: State, time: nat, comps: seq<nat>)
    requires Shaped(p, s) && Shaped(p, t) && SameBut(s, t) && forall i :: 0 <= i < |comps| ==> comps[i] < |p.components|
    ensures SameResult(EvaluateList(p, stop, s, time, comps), EvaluateList(p, stop, t, time, comps))
    decreases |comps|
  {
    hide EvaluateOne;
    if |comps| > 0 {
      OneCommutes(p, stop, s, t, time, comps[0]);
      var next, next' := EvaluateOne(p, stop, s, time, comps[0]), EvaluateOne(p, stop, t, time, comps[0]);
      if next.Ok? {
        ListCommutes(p, stop, next.value, next'.value, time, comps[1..]);
      }
    }
  }

  lemma StepCommutes(p: Program, stop: nat, s: State, t: State)
    requires Ready(p, s) && Ready(p, t) && |s.queue| > 0 && SameBut(s, t)
    ensures SameResult(Step(p, stop, s), Step(p, stop, t))
  {
    hide EvaluateList, ApplyEvents, NetsAfter, AffectedFrom;
    var m, m' := Popped(p, s), Popped(p, t);
    ListCommutes(p, stop, m, m', s.queue[0].time, AffectedFrom(p, s.nets, m.nets, 0));
  }

  lemma {:induction false} ProcessCommutes(p: Program, stop: nat, s: State, t: State, bound: nat)
    requires Ready(p, s) && Ready(p, t) && SameBut(s, t)
    ensures SameResult(Process(p, stop, s, bound), Process(p, stop, t, bound))
    decreases Measure(s)
  {
    hide Step;
    if |s.queue| > 0 && s.queue[0].time <= bound {
      StepReady(p, stop, s);
      StepReady(p, stop, t);
      StepCommutes(p, stop, s, t);
      var next, next' := Step(p, stop, s), Step(p, stop, t);
      if next.Ok? {
        ProcessCommutes(p, stop, next.value, next'.value, bound);
      }
    }
  }

  /* ---- Sessions at rest ---- */

  /** Between operations: consistent nets, nothing due, and every gate at rest. */
  ghost predicate Resting(p: Program, stop: nat, current: nat, s: State) {
    Base(p, stop, s) && Ahead(current, s) && AtRest(p, s)
  }

  /** As if every evaluation had taken place at time zero. */
  function Rebased(s: State): State {
    s.(lastEval := map c | c in s.lastEval :: 0)
  }

  lemma RestingInv(p: Program, stop: nat, current: nat, s: State, now: nat)
    requires LevelizedCircuit(p) && Resting(p, stop, current, s) && now <= Bound(current)
    ensures Inv(p, stop, now, Rebased(s)) && SameBut(Rebased(s), s)
  {
    var t := Rebased(s);
    forall n | 0 <= n < |p.drivers| && |p.drivers[n]| > 0
      ensures NetConsistent(p, t, n)
    {
      assert NetConsistent(p, s, n);
    }
    forall c: nat | IsGate(p, c)
      ensures GateInv(p, stop, now, t, c)
    {
      assert GateAtRest(p, s, c);
      forall o | 0 <= o < OutputCount(p.components[c].primitive)
        ensures Projected(t, c, o) == DriverValue(s.drivers, DriverKey(c, o))
      {
        ProjectNone(DriverValue(s.drivers, DriverKey(c, o)), s.queue, DriverKey(c, o));
      }
    }
    assert Timely(p, now, t) by {
      OnlySourcesPending(p, s);
    }
  }

  lemma OnlySourcesPending(p: Program, s: State)
    requires LevelizedCircuit(p) && ValidEvents(p, s.queue) && AtRest(p, s)
    ensures forall e :: e in s.queue ==> p.components[e.driver.component].primitive.IsSource()
  {
    forall e | e in s.queue
      ensures p.components[e.driver.component].primitive.IsSource()
    {
      var c := e.driver.component;
      assert IsGate(p, c) ==> GateAtRest(p, s, c);
      assert WellFormedComponent(p.components[c], |p.drivers|);
    }
  }

  /** The loop leaves a zero-delay circuit at rest. */
  lemma InvRests(p: Program, stop: nat, last: nat, current: nat, s: State)
    requires LevelizedCircuit(p) && Inv(p, stop, last, s) && last <= stop && last <= Bound(current) && Ahead(current, s)
    ensures Resting(p, stop, current, s)
  {
    forall c: nat | IsGate(p, c)
      ensures GateAtRest(p, s, c)
    {
      assert GateInv(p, stop, last, s, c);
      assert p.components[c].delay == 0;
      forall o | 0 <= o < OutputCount(p.components[c].primitive)
        ensures Projected(s, c, o) == DriverValue(s.drivers, DriverKey(c, o))
      {
        ProjectNone(DriverValue(s.drivers, DriverKey(c, o)), s.queue, DriverKey(c, o));
      }
    }
  }

  lemma SameButRests(p: Program, stop: nat, current: nat, s: State, t: State)
    requires Resting(p, stop, current, s) && SameBut(s, t)
    ensures Resting(p, stop, current, t)
  {
    forall n | 0 <= n < |p.drivers| && |p.drivers[n]| > 0
      ensures NetConsistent(p, t, n)
    {
      assert NetConsistent(p, s, n);
    }
    forall c: nat | IsGate(p, c)
      ensures GateAtRest(p, t, c)
    {
      assert GateAtRest(p, s, c);
    }
  }

  lemma ProcessRests(p: Program, stop: nat, now: nat, current: nat, s: State, t: State)
    requires LevelizedCircuit(p) && Inv(p, stop, now, s) && now <= stop && now <= Bound(current) && Ready(p, t)
    requires SameBut(s, t)
    ensures var r := Process(p, stop, t, Bound(current)); r.Ok? ==> Resting(p, stop, current, r.value)
  {
    hide LevelizedCircuit, Inv, Process, SameBut;
    WellFormedHere(p);
    BaseHere(p, stop, now, s);
    ProcessCommutes(p, stop, s, t, Bound(current));
    var bound := if Bound(current) <= stop then Bound(current) else stop;
    if stop < Bound(current) {
      BeyondStop(p, stop, s, Bound(current));
    }
    var last := ProcessKeepsInv(p, stop, now, s, bound);
    ProcessAhead(p, stop, s, current);
    var r := Process(p, stop, s, Bound(current));
    if r.Ok? {
      InvRests(p, stop, last, current, r.value);
      SameButRests(p, stop, current, r.value, Process(p, stop, t, Bound(current)).value);
    }
  }

  lemma WellFormedHere(p: Program)
    requires LevelizedCircuit(p)
    ensures WellFormed(p)
  {
  }

  lemma BaseHere(p: Program, stop: nat, now: nat, s: State)
    requires Inv(p, stop, now, s)
    ensures Base(p, stop, s)
  {
  }

  lemma AdvanceRests(p: Program, stop: nat, current: nat, s: State, target: nat)
    requires LevelizedCircuit(p) && Resting(p, stop, current, s)
    ensures var r := Advance(p, stop, current, s, target); r.Ok? ==> Resting(p, stop, target, r.value)
  {
    hide LevelizedCircuit, Resting, Process, SameBut;
    RestingBase(p, stop, current, s);
    RestingInv(p, stop, current, s, 0);
    ProcessRests(p, stop, 0, target, Rebased(s), s);
  }

  lemma RestingBase(p: Program, stop: nat, current: nat, s: State)
    requires Resting(p, stop, current, s)
    ensures Base(p, stop, s) && Ahead(current, s) && |s.nets| == |p.drivers|
  {
  }

  lemma WrittenCommutes(p: Program, stop: nat, current: nat, s: State, t: State, net: nat, value: LogicValue)
    requires WellFormed(p) && Ready(p, s) && Ready(p, t) && SameBut(s, t) && net < |s.nets|
    ensures SameResult(Written(p, stop, current, s, net, value), Written(p, stop, current, t, net, value))
  {
    hide EvaluateList;
    DependentsInRange(p, net);
    ListCommutes(p, stop, s.(nets := s.nets[net := value]), t.(nets := t.nets[net := value]), current * FS_PER_PS,
                 p.dependents[net]);
  }

  /** An input written by the stop time takes effect at once. */
  lemma WriteRests(p: Program, stop: nat, externals: set<nat>, current: nat, s: State, net: nat, value: LogicValue)
    requires LevelizedCircuit(p) && Undriven(p, externals) && Resting(p, stop, current, s)
    requires current * FS_PER_PS <= stop
    ensures (WellFormedHere(p); RestingBase(p, stop, current, s);
             var r := Write(p, stop, externals, current, s, net, current, value); r.Ok? ==>
               Resting(p, stop, current, r.value.0))
  {
    hide LevelizedCircuit, Resting, Process, SameBut, Written, Inv;
    WellFormedHere(p);
    RestingBase(p, stop, current, s);
    var r := Write(p, stop, externals, current, s, net, current, value);
    if r.Ok? && r.value.1 {
      var t := Rebased(s);
      RestingInv(p, stop, current, s, current * FS_PER_PS);
      BaseHere(p, stop, current * FS_PER_PS, t);
      WrittenKeepsInv(p, stop, current, t, net, value);
      WrittenCommutes(p, stop, current, t, s, net, value);
      ProcessRests(p, stop, current * FS_PER_PS, current, Written(p, stop, current, t, net, value).value,
                   Written(p, stop, current, s, net, value).value);
    }
  }

  /* ---- One pass ---- */

  /** What each source drives now. */
  function PresentSources(p: Program, s: State): (r: seq<LogicValue>)
    ensures SourcesAre(p, s, r)
  {
    seq(|p.components|, c requires 0 <= c < |p.components| => DriverValue(s.drivers, DriverKey(c, 0)))
  }

  /** What the undriven nets, and so the external inputs, hold now; X elsewhere. */
  function PresentInputs(p: Program, s: State): (r: seq<LogicValue>)
    requires |p.drivers| == |s.nets|
    ensures Grounded(p, s.nets, r)
  {
    seq(|p.drivers|, n requires 0 <= n < |p.drivers| => if |p.drivers[n]| == 0 then s.nets[n] else X)
  }

  /** The nets equal, up to buffering, one pass from the present inputs and sources. */
  ghost predicate OnePass(p: Program, s: State, order: seq<nat>)
    requires forall i :: 0 <= i < |order| ==> order[i] < |p.components|
  {
    && |s.nets| == |p.drivers|
    && forall n :: 0 <= n < |p.drivers| ==>
         SameBuffered(s.nets[n], LevelizeFrom(p, PresentInputs(p, s), PresentSources(p, s), order)[n])
  }

  lemma RestIsOnePass(p: Program, stop: nat, current: nat, s: State, order: seq<nat>)
    requires LevelizedCircuit(p) && Topological(p, order) && Resting(p, stop, current, s)
    ensures OnePass(p, s, order)
  {
    RestIsStable(p, s, PresentSources(p, s));
    StableIsLevelized(p, PresentInputs(p, s), PresentSources(p, s), s.nets, order);
  }

  /** Every write happens by the stop time. */
  predicate EarlyWrites(stop: nat, current: nat, ops: seq<Op>)
    decreases |ops|
  {
    |ops| == 0 ||
    match ops[0]
    case AdvanceTo(target) => EarlyWrites(stop, target, ops[1..])
    case WriteNet(_, _) => current * FS_PER_PS <= stop && EarlyWrites(stop, current, ops[1..])
  }

  lemma {:induction false} SessionRests(p: Program, stop: nat, externals: set<nat>, current: nat, s: State,
                                        ops: seq<Op>)
    requires LevelizedCircuit(p) && Undriven(p, externals) && Resting(p, stop, current, s)
    requires EarlyWrites(stop, current, ops)
    ensures (WellFormedHere(p); RestingBase(p, stop, current, s);
             var r := ApplyAll(p, stop, externals, current, s, ops); r.Ok? ==> Resting(p, stop, r.value.0, r.value.1))
    decreases |ops|
  {
    hide LevelizedCircuit, Resting, Advance, Write;
    WellFormedHere(p);
    RestingBase(p, stop, current, s);
    if |ops| > 0 {
      match ops[0] {
        case AdvanceTo(target) => AdvanceRests(p, stop, current, s, target);
        case WriteNet(net, value) => WriteRests(p, stop, externals, current, s, net, value);
      }
      var next := Apply(p, stop, externals, current, s, ops[0]);
      if next.Ok? {
        SessionRests(p, stop, externals, next.value.0, next.value.1, ops[1..]);
      }
    }
  }

  /**
   * From start-up and the advance to time zero on, after any successful advances, and input writes by the stop
   * time, the nets are one pass in any topological order.
   */
  lemma SessionStaysLevelized(p: Program, stop: nat, externals: set<nat>, ops: seq<Op>, order: seq<nat>)
    requires LevelizedCircuit(p) && Topological(p, order) && Undriven(p, externals) && EarlyWrites(stop, 0, ops)
    requires Start(p, stop).Ok?
    ensures var r := (StartKeeps(p, stop); ApplyAll(p, stop, externals, 0, Start(p, stop).value, [AdvanceTo(0)] + ops));
            r.Ok? ==> OnePass(p, r.value.1, order)
  {
    hide LevelizedCircuit, Resting, Start, OnePass, Process;
    WellFormedHere(p);
    StartKeeps(p, stop);
    var s := Start(p, stop).value;
    assert ([AdvanceTo(0)] + ops)[1..] == ops;
    ProcessRests(p, stop, 0, 0, s, s);
    var begun := Advance(p, stop, 0, s, 0);
    if begun.Ok? {
      SessionRests(p, stop, externals, 0, begun.value, ops);
      var r := ApplyAll(p, stop, externals, 0, begun.value, ops);
      if r.Ok? {
        RestIsOnePass(p, stop, r.value.0, r.value.1, order);
      }
    }
  }

  /* ---- Unknown inputs ---- */

  /** The inputs and sources of `s` say no more than those of `t`. */
  ghost predicate InputsRefine(p: Program, s: State, t: State)
    requires |s.nets| == |t.nets| == |p.drivers|
  {
    && RefinesAll(PresentInputs(p, s), PresentInputs(p, t))
    && forall c :: 0 <= c < |p.components| && p.components[c].primitive.IsSource() ==>
         Refines(PresentSources(p, s)[c], PresentSources(p, t)[c])
  }

  /** Nets known in a session at rest stay as they are in one whose inputs say more. */
  lemma KnownNetsSurviveInputs(p: Program, s: State, t: State, order: seq<nat>, n: nat)
    requires LevelizedCircuit(p) && Topological(p, order) && OnePass(p, s, order) && OnePass(p, t, order)
    requires InputsRefine(p, s, t) && n < |p.drivers| && s.nets[n].IsKnown()
    ensures t.nets[n] == s.nets[n]
  {
    LevelizeMonotone(p, p, PresentInputs(p, s), PresentInputs(p, t), PresentSources(p, s), PresentSources(p, t), order);
    var low := LevelizeFrom(p, PresentInputs(p, s), PresentSources(p, s), order);
    var high := LevelizeFrom(p, PresentInputs(p, t), PresentSources(p, t), order);
    hide LevelizedCircuit, LevelizeFrom;
    assert Refines(low[n], high[n]);
  }

  /* ---- After the stop time ---- */

  ghost predicate WriteReaches(p: Program, stop: nat, externals: set<nat>, current: nat, s: State, net: nat,
                               value: LogicValue,
                               order: seq<nat>)
    requires WellFormed(p) && Ready(p, s) && forall i :: 0 <= i < |order| ==> order[i] < |p.components|
  {
    var r := Write(p, stop, externals, current, s, net, current, value);
    r.Ok? ==> OnePass(p, r.value.0, order)
  }

  /** At this tick every write to every acyclic zero-delay session at rest takes the nets to one pass. */
  ghost predicate WritesReach(stop: nat, current: nat) {
    forall p, externals, s, net, value, order ::
      LevelizedCircuit(p) && Topological(p, order) && Undriven(p, externals) && Resting(p, stop, current, s) ==>
        WriteReaches(p, stop, externals, current, s, net, value, order)
  }

  /** An input net, a zero-delay buffer and its output net. */
  const WIRE: Program :=
    Program([Component(Gate(GateKind.Buffer), map[In := 0], [1], 0, X, [])], [[0], []], [[], [DriverKey(0, 0)]])

  lemma WireIsLevelized()
    ensures LevelizedCircuit(WIRE) && Topological(WIRE, [0])
  {
    var c := WIRE.components[0];
    assert c.inputs.Values == {0} by {
      assert c.inputs[In] in c.inputs.Values && c.inputs.Keys == {In};
      assert forall n :: n in c.inputs.Values ==> exists pin :: pin in c.inputs && c.inputs[pin] == n;
    }
    assert forall d :: ValidKey(WIRE, d) <==> d == DriverKey(0, 0);
  }

  /** The state of a session around it, started and advanced to any tick. */
  lemma WireRests(stop: nat, current: nat)
    ensures Resting(WIRE, stop, current, EmptyState(WIRE))
    ensures Process(WIRE, stop, EmptyState(WIRE), Bound(current)) == Ok(EmptyState(WIRE))
  {
    assert NetConsistent(WIRE, EmptyState(WIRE), 1) by {
      assert WIRE.drivers[1] == [DriverKey(0, 0)];
    }
  }

  /** Nothing is scheduled for after the stop time. */
  lemma {:induction false} LateOutputsAreDropped(p: Program, stop: nat, s: State, time: nat, c: nat, o: nat,
                                                 values: seq<LogicValue>)
    requires c < |p.components| && Counted(s) && stop < time + p.components[c].delay
    ensures ScheduleOutputs(p, stop, s, time, c, o, values) == Ok(s)
    decreases |values| - o
  {
    if o < |values| && o < |p.components[c].outputs| {
      LateOutputsAreDropped(p, stop, s, time, c, o + 1, values);
    }
  }

  lemma WireEvaluated(stop: nat, time: nat, s: State)
    requires Shaped(WIRE, s) && stop < time
    ensures var r := EvaluateOne(WIRE, stop, s, time, 0); r.Ok? && r.value.nets == s.nets && r.value.queue == s.queue
  {
    var (rs, out) := Evaluate(WIRE.components[0], s.nets, s.states[0]);
    LateOutputsAreDropped(WIRE, stop, s.(states := s.states[0 := rs], lastEval := s.lastEval[0 := time]), time, 0, 0,
                          out.value);
  }

  lemma EvaluateSingle(stop: nat, time: nat, s: State)
    requires Shaped(WIRE, s)
    ensures EvaluateList(WIRE, stop, s, time, [0]) == EvaluateOne(WIRE, stop, s, time, 0)
  {
    hide EvaluateOne;
    var r := EvaluateOne(WIRE, stop, s, time, 0);
    assert r.Ok? ==> EvaluateList(WIRE, stop, r.value, time, [0][1..]) == r;
  }

  /** Input net 0 set to one after the stop time: the output net stays unknown. */
  lemma WireWritten(stop: nat, current: nat)
    requires stop < current * FS_PER_PS
    ensures WellFormed(WIRE)
    ensures var r := Write(WIRE, stop, {0}, current, EmptyState(WIRE), 0, current, One);
            r.Ok? && r.value.1 && r.value.0.nets == [One, X]
  {
    WireIsLevelized();
    var s, time := EmptyState(WIRE), current * FS_PER_PS;
    var written := s.(nets := s.nets[0 := One]);
    assert written.nets == [One, X];
    var evaluated := EvaluateOne(WIRE, stop, written, time, 0);
    assert evaluated.Ok? && evaluated.value.nets == [One, X] && evaluated.value.queue == [] by {
      WireEvaluated(stop, time, written);
    }
    EvaluateSingle(stop, time, written);
    assert Written(WIRE, stop, current, s, 0, One) == evaluated;
    hide EvaluateOne, EvaluateList;
  }

  lemma WirePass(s: State)
    requires |s.nets| == 2 && s.nets[0] == One
    ensures LevelizeFrom(WIRE, PresentInputs(WIRE, s), PresentSources(WIRE, s), [0]) == [One, One]
  {
    var base, sources := PresentInputs(WIRE, s), PresentSources(WIRE, s);
    assert base == [One, X] && [0][..0] == [];
    assert LevelizeFrom(WIRE, base, sources, [0][..0]) == base;
    var c := WIRE.components[0];
    assert CombOutputs(c, base) == [One];
    PlacedElsewhere(c, [One], 0, 0, One);
    PlacedAt(c, [One], 0, 0, X);
    assert LevelizeFrom(WIRE, base, sources, [0]) == PlaceAll(c, [One], base);
  }

  /** After the stop time a written input no longer reaches the output of a buffer. */
  lemma LateWriteIsLost(stop: nat, current: nat)
    requires stop < current * FS_PER_PS
    ensures LevelizedCircuit(WIRE) && Topological(WIRE, [0]) && Resting(WIRE, stop, current, EmptyState(WIRE))
    ensures !WriteReaches(WIRE, stop, {0}, current, EmptyState(WIRE), 0, One, [0])
  {
    hide Write, LevelizedCircuit, Topological, Resting, LevelizeFrom, WellFormed;
    WireIsLevelized();
    WireRests(stop, current);
    WireWritten(stop, current);
    var t := Write(WIRE, stop, {0}, current, EmptyState(WIRE), 0, current, One).value.0;
    WirePass(t);
    assert !SameBuffered(t.nets[1], One);
  }

  /**
   * A session can be advanced to half a picosecond past its stop time. At the ticks it can reach, writes take
   * the nets to one pass exactly up to the stop time itself.
   */
  lemma WritesReachExactly(stop: nat, current: nat)
    ensures WritesReach(stop, current) <==> current * FS_PER_PS <= stop
  {
    hide WriteReaches, NetsConsistent, GateAtRest;
    if current * FS_PER_PS <= stop {
      forall p, externals, s, net, value, order
        | LevelizedCircuit(p) && Topological(p, order) && Undriven(p, externals) && Resting(p, stop, current, s)
        ensures WriteReaches(p, stop, externals, current, s, net, value, order)
      {
        EarlyWriteReaches(p, stop, externals, current, s, net, value, order);
      }
    } else {
      LateWriteIsLost(stop, current);
      assert Undriven(WIRE, {0}) by {
        WireInput();
      }
      assert !WriteReaches(WIRE, stop, {0}, current, EmptyState(WIRE), 0, One, [0]);
    }
  }

  lemma WireInput()
    ensures Undriven(WIRE, {0})
  {
  }

  lemma EarlyWriteReaches(p: Program, stop: nat, externals: set<nat>, current: nat, s: State, net: nat,
                          value: LogicValue,
                          order: seq<nat>)
    requires LevelizedCircuit(p) && Topological(p, order) && Undriven(p, externals) && Resting(p, stop, current, s)
    requires current * FS_PER_PS <= stop
    ensures WriteReaches(p, stop, externals, current, s, net, value, order)
  {
    hide Resting, Write, OnePass;
    WellFormedHere(p);
    RestingBase(p, stop, current, s);
    WriteRests(p, stop, externals, current, s, net, value);
    var r := Write(p, stop, externals, current, s, net, current, value);
    if r.Ok? {
      RestIsOnePass(p, stop, current, r.value.0, order);
    }
  }
}
