/**
 * Event-driven simulation of an acyclic zero-delay circuit computes what one pass over the gates in
 * topological order computes, and unknown inputs are treated conservatively.
 */
module Levelized {
  import opened Wrappers
  import opened Logic
  import opened Circuit
  import opened Kernel
  import opened Sequential
  import opened Projection

  /** A complete run from the start-up state to `stop`. */
  function Simulate(p: Program, stop: nat): (r: Result<State, DigitalError>)
    requires WellFormed(p)
  {
    var s :- Start(p, stop);
    StartKeeps(p, stop);
    Process(p, stop, s, stop)
  }

  /* ---- Start-up ---- */

  function LastOr(v: LogicValue, edges: seq<(nat, LogicValue)>): LogicValue {
    if |edges| == 0 then v else edges[|edges| - 1].1
  }

  /** The value a source holds once all its events have been applied. */
  function SourceFinal(c: Component, stop: nat): LogicValue {
    match c.primitive
    case Constant(value) => value
    case Clock(high, low, initial) =>
      if high > 0 && low > 0 then LastOr(initial, ClockEdges(stop, high, low, 0, initial)) else initial
    case _ => X
  }

  /** Edges come strictly later one after the other, alternate, and stay within the run. */
  predicate Edges(edges: seq<(nat, LogicValue)>, stop: nat, time: nat, value: LogicValue)
    decreases |edges|
  {
    |edges| == 0 ||
    (&& time < edges[0].0 <= stop && edges[0].1 == Flip(value)
     && Edges(edges[1..], stop, edges[0].0, edges[0].1))
  }

  lemma {:induction false} ClockEdgesOrdered(stop: nat, high: nat, low: nat, time: nat, value: LogicValue)
    requires high > 0 && low > 0
    ensures Edges(ClockEdges(stop, high, low, time, value), stop, time, value)
    decreases stop - time
  {
    var next := time + (if value == One then high else low);
    if time < stop && next <= stop {
      ClockEdgesOrdered(stop, high, low, next, Flip(value));
    }
  }

  /** `t` is `s` with events of component `c` added, none of them after `stop`. */
  ghost predicate Added(p: Program, stop: nat, s: State, t: State, c: nat) {
    && Ordered(t)
    && (forall e :: e in t.queue ==>
        e in s.queue || (e.driver.component == c && ValidKey(p, e.driver) && e.time <= stop))
    && (forall v, d: DriverKey :: d.component != c ==> Project(v, t.queue, d) == Project(v, s.queue, d))
  }

  lemma AddedOne(p: Program, stop: nat, s: State, time: nat, c: nat, o: nat, value: LogicValue)
    requires Counted(s) && Ordered(s) && ValidKey(p, DriverKey(c, o)) && time <= stop
    ensures var r := ScheduleOutput(s, time, c, o, value); r.Ok? ==> Added(p, stop, s, r.value, c)
  {
    ScheduleOrdered(s, time, c, o, value);
    forall v, d: DriverKey | d.component != c
      ensures Project(v, Insert(s.queue, Event(time, s.sequence, DriverKey(c, o), value)), d) == Project(v, s.queue, d)
    {
      ProjectInsertOther(v, s.queue, Event(time, s.sequence, DriverKey(c, o), value), d);
    }
  }

  lemma AddedTwice(p: Program, stop: nat, s: State, t: State, u: State, c: nat)
    requires Added(p, stop, s, t, c) && Added(p, stop, t, u, c)
    ensures Added(p, stop, s, u, c)
  {
    hide Project, Sorted;
  }

  lemma AddedIsOrdered(p: Program, stop: nat, s: State, t: State, c: nat)
    requires Added(p, stop, s, t, c)
    ensures Ordered(t)
  {
  }

  lemma AddedNothing(p: Program, stop: nat, s: State, c: nat)
    requires Ordered(s)
    ensures Added(p, stop, s, s, c)
  {
  }

  ghost predicate PendingAtZero(s: State, c: nat) {
    forall e :: e in s.queue && e.driver.component == c ==> e.time == 0
  }

  /** Start-up events of `c` from output `o` on are queued; the last one for each output has its value. */
  ghost predicate Queued(s: State, c: nat, o: nat, values: seq<LogicValue>) {
    && PendingAtZero(s, c)
    && forall j: nat :: o <= j < |values| ==> Project(Z, s.queue, DriverKey(c, j)) == values[j]
  }

  /** Outputs of `c` below `o` are led where they were. */
  ghost predicate SameBelow(s: State, t: State, c: nat, o: nat) {
    forall v, j: nat :: j < o ==> Project(v, t.queue, DriverKey(c, j)) == Project(v, s.queue, DriverKey(c, j))
  }

  lemma QueuedOne(s: State, c: nat, o: nat, value: LogicValue)
    requires Counted(s) && Ordered(s) && PendingAtZero(s, c)
    ensures var r := ScheduleOutput(s, 0, c, o, value);
            r.Ok? ==>
              && Ordered(r.value) && PendingAtZero(r.value, c) && SameBelow(s, r.value, c, o)
              && Project(Z, r.value.queue, DriverKey(c, o)) == value
  {
    var r := ScheduleOutput(s, 0, c, o, value);
    if r.Ok? {
      hide Project, Insert, Sorted;
      var e := Event(0, s.sequence, DriverKey(c, o), value);
      ScheduleOrdered(s, 0, c, o, value);
      ProjectInsertLast(Z, s.queue, e);
      forall v, j: nat | j < o
        ensures Project(v, r.value.queue, DriverKey(c, j)) == Project(v, s.queue, DriverKey(c, j))
      {
        ProjectInsertOther(v, s.queue, e, DriverKey(c, j));
      }
    }
  }

  lemma {:induction false} QueuedEach(s: State, c: nat, o: nat, values: seq<LogicValue>)
    requires Counted(s) && Ordered(s) && PendingAtZero(s, c)
    ensures var r := ScheduleEach(s, c, o, values);
            r.Ok? ==> Queued(r.value, c, o, values) && SameBelow(s, r.value, c, o)
    decreases |values| - o
  {
    hide Project, Ordered, ScheduleOutput;
    if o < |values| {
      QueuedOne(s, c, o, values[o]);
      var next := ScheduleOutput(s, 0, c, o, values[o]);
      if next.Ok? {
        QueuedEach(next.value, c, o + 1, values);
        assert values[o] == Project(Z, next.value.queue, DriverKey(c, o));
      }
    }
  }

  lemma {:induction false} AddedEach(p: Program, stop: nat, s: State, c: nat, o: nat, values: seq<LogicValue>)
    requires Counted(s) && Ordered(s) && c < |p.components| && |values| <= |p.components[c].outputs|
    ensures var r := ScheduleEach(s, c, o, values); r.Ok? ==> Added(p, stop, s, r.value, c)
    decreases |values| - o
  {
    hide Added, Ordered, Insert;
    if o < |values| {
      AddedOne(p, stop, s, 0, c, o, values[o]);
      var next := ScheduleOutput(s, 0, c, o, values[o]);
      if next.Ok? {
        AddedIsOrdered(p, stop, s, next.value, c);
        AddedEach(p, stop, next.value, c, o + 1, values);
        var r := ScheduleEach(s, c, o, values);
        if r.Ok? {
          AddedTwice(p, stop, s, next.value, r.value, c);
        }
      }
    } else {
      AddedNothing(p, stop, s, c);
    }
  }

  /** Queuing a clock's edges leaves its last one as the projected value. */
  lemma {:induction false} AddedEdges(p: Program, stop: nat, s: State, c: nat, edges: seq<(nat, LogicValue)>, time: nat,
                                      value: LogicValue)
    requires Counted(s) && Ordered(s) && ValidKey(p, DriverKey(c, 0)) && Edges(edges, stop, time, value)
    requires forall e :: e in s.queue && e.driver.component == c ==> e.time <= time
    requires Project(Z, s.queue, DriverKey(c, 0)) == value
    ensures var r := ScheduleAll(s, c, edges);
            r.Ok? ==>
                Added(p, stop, s, r.value, c) && Project(Z, r.value.queue, DriverKey(c, 0)) == LastOr(value, edges)
    decreases |edges|
  {
    if |edges| > 0 {
      hide Project, Insert, Sorted;
      var (at, v) := edges[0];
      AddedOne(p, stop, s, at, c, 0, v);
      var next := ScheduleOutput(s, at, c, 0, v);
      if next.Ok? {
        ProjectInsertLast(Z, s.queue, Event(at, s.sequence, DriverKey(c, 0), v));
        assert forall e :: e in next.value.queue && e.driver.component == c ==> e.time <= at;
        AddedEdges(p, stop, next.value, c, edges[1..], at, v);
        assert LastOr(v, edges[1..]) == LastOr(value, edges);
      }
    }
  }

  lemma AddedClock(p: Program, stop: nat, s: State, c: nat)
    requires WellFormed(p) && Shaped(p, s) && Ordered(s) && c < |p.components| && p.components[c].primitive.Clock?
    requires forall e :: e in s.queue ==> e.driver.component < c
    ensures var r := StartOne(p, stop, s, c);
            r.Ok? ==>
              && Added(p, stop, s, r.value, c)
              && Project(Z, r.value.queue, DriverKey(c, 0)) == SourceFinal(p.components[c], stop)
  {
    var Clock(high, low, initial) := p.components[c].primitive;
    var next := ScheduleOutput(s, 0, c, 0, initial);
    if initial.IsKnown() && next.Ok? {
      AddedOne(p, stop, s, 0, c, 0, initial);
      ProjectInsertLast(Z, s.queue, Event(0, s.sequence, DriverKey(c, 0), initial));
      ClockEdgesOrdered(stop, high, low, 0, initial);
      AddedEdges(p, stop, next.value, c, ClockEdges(stop, high, low, 0, initial), 0, initial);
    }
  }

  lemma AddedConstant(p: Program, stop: nat, s: State, c: nat)
    requires WellFormed(p) && Shaped(p, s) && Ordered(s) && c < |p.components| && p.components[c].primitive.Constant?
    requires forall e :: e in s.queue ==> e.driver.component < c
    ensures var r := StartOne(p, stop, s, c);
            r.Ok? ==>
              && Added(p, stop, s, r.value, c)
              && Project(Z, r.value.queue, DriverKey(c, 0)) == SourceFinal(p.components[c], stop)
  {
    var value := p.components[c].primitive.value;
    AddedOne(p, stop, s, 0, c, 0, value);
    ProjectInsertLast(Z, s.queue, Event(0, s.sequence, DriverKey(c, 0), value));
  }

  lemma AddedStateful(p: Program, stop: nat, s: State, c: nat)
    requires WellFormed(p) && Shaped(p, s) && Ordered(s) && c < |p.components|
    requires |s.states[c].bits| <= |p.components[c].outputs|
    requires !p.components[c].primitive.IsSource()
    ensures var r := StartOne(p, stop, s, c);
            r.Ok? ==> Added(p, stop, s, r.value, c) && (IsGate(p, c) ==> r.value == s)
  {
    var comp := p.components[c];
    if comp.primitive.IsStateful() {
      assert StartOne(p, stop, s, c) == ScheduleEach(s, c, 0, InitialOutputs(comp, s.states[c]));
      AddedEach(p, stop, s, c, 0, InitialOutputs(comp, s.states[c]));
    }
  }

  /** A storage element starts up by showing its initial levels. */
  ghost predicate ShownAtStart(p: Program, s: State, c: nat)
    requires c < |p.components|
  {
    var comp := p.components[c];
    forall o :: 0 <= o < |comp.outputs| && (comp.primitive.IsVector() ==> |comp.initialVector| == |comp.outputs|) ==>
      Project(Z, s.queue, DriverKey(c, o)) == StoredLevel(comp.primitive, InitialRuntimeState(comp), o)
  }

  lemma StartedStoreShows(p: Program, stop: nat, s: State, c: nat)
    requires WellFormed(p) && Shaped(p, s) && Ordered(s) && IsStore(p, c)
    requires s.states[c] == InitialRuntimeState(p.components[c])
    requires forall e :: e in s.queue ==> e.driver.component < c
    ensures var r := StartOne(p, stop, s, c); r.Ok? ==> ShownAtStart(p, r.value, c) && PendingAtZero(r.value, c)
  {
    var comp := p.components[c];
    assert WellFormedComponent(comp, |p.drivers|);
    hide WellFormed, WellFormedComponent, Sorted, Project;
    var values := InitialOutputs(comp, s.states[c]);
    assert StartOne(p, stop, s, c) == ScheduleEach(s, c, 0, values);
    QueuedEach(s, c, 0, values);
    assert |values| == |comp.outputs|;
  }

  lemma AddedAtStart(p: Program, stop: nat, s: State, c: nat)
    requires WellFormed(p) && Shaped(p, s) && Ordered(s) && c < |p.components|
    requires |s.states[c].bits| <= |p.components[c].outputs|
    requires forall e :: e in s.queue ==> e.driver.component < c
    ensures var r := StartOne(p, stop, s, c);
            r.Ok? ==>
              && Added(p, stop, s, r.value, c)
              && (p.components[c].primitive.IsSource() ==>
                    Project(Z, r.value.queue, DriverKey(c, 0)) == SourceFinal(p.components[c], stop))
              && (IsGate(p, c) ==> r.value == s)
  {
    var comp := p.components[c];
    if comp.primitive.Constant? {
      AddedConstant(p, stop, s, c);
    } else if comp.primitive.Clock? {
      AddedClock(p, stop, s, c);
    } else {
      AddedStateful(p, stop, s, c);
    }
  }

  ghost predicate SourcesProjected(p: Program, stop: nat, s: State) {
    forall c: nat :: c < |p.components| && p.components[c].primitive.IsSource() ==>
      Projected(s, c, 0) == SourceFinal(p.components[c], stop)
  }

  ghost predicate UndrivenUnknown(p: Program, s: State)
    requires |p.drivers| == |s.nets|
  {
    forall n :: 0 <= n < |p.drivers| && |p.drivers[n]| == 0 ==> s.nets[n] == X
  }

  /** Components below `c` have had their start-up events queued, and each source's last one is its final value. */
  ghost predicate StartedUpTo(p: Program, stop: nat, s: State, c: nat) {
    && Ordered(s) && ValidEvents(p, s.queue)
    && (forall e :: e in s.queue ==> e.driver.component < c && e.time <= stop && !IsGate(p, e.driver.component))
    && (forall k :: 0 <= k < c && k < |p.components| && p.components[k].primitive.IsSource() ==>
          Project(Z, s.queue, DriverKey(k, 0)) == SourceFinal(p.components[k], stop))
    && (forall k: nat :: k < c && IsStore(p, k) ==> ShownAtStart(p, s, k) && PendingAtZero(s, k))
  }

  ghost predicate AsCompiled(p: Program, states: seq<RuntimeState>) {
    && |states| == |p.components|
    && forall k :: 0 <= k < |p.components| ==> states[k] == InitialRuntimeState(p.components[k])
  }

  lemma StartedNext(p: Program, stop: nat, s: State, c: nat)
    requires WellFormed(p) && Shaped(p, s) && c < |p.components| && AsCompiled(p, s.states)
    requires StartedUpTo(p, stop, s, c)
    ensures var r := StartOne(p, stop, s, c); r.Ok? ==> StartedUpTo(p, stop, r.value, c + 1)
  {
    hide SourceFinal, StartOne, Sorted, WellFormed, ShownAtStart, PendingAtZero;
    assert WellFormedComponent(p.components[c], |p.drivers|) by {
      ComponentIsWellFormed(p, c);
    }
    AddedAtStart(p, stop, s, c);
    if IsStore(p, c) {
      StartedStoreShows(p, stop, s, c);
    }
    var r := StartOne(p, stop, s, c);
    if r.Ok? {
      forall k: nat | k < c && IsStore(p, k)
        ensures ShownAtStart(p, r.value, k) && PendingAtZero(r.value, k)
      {
        StillShown(p, stop, s, r.value, c, k);
      }
    }
  }

  lemma ComponentIsWellFormed(p: Program, c: nat)
    requires WellFormed(p) && c < |p.components|
    ensures WellFormedComponent(p.components[c], |p.drivers|)
  {
  }

  lemma StillShown(p: Program, stop: nat, s: State, t: State, c: nat, k: nat)
    requires Added(p, stop, s, t, c) && k < c && k < |p.components| && ShownAtStart(p, s, k) && PendingAtZero(s, k)
    ensures ShownAtStart(p, t, k) && PendingAtZero(t, k)
  {
    hide Sorted, Project;
  }

  lemma StartFromStep(p: Program, stop: nat, s: State, c: nat)
    requires WellFormed(p) && Shaped(p, s) && c <= |p.components|
    ensures c == |p.components| ==> StartFrom(p, stop, s, c) == Ok(s)
    ensures c < |p.components| ==>
              var next := StartOne(p, stop, s, c);
              StartFrom(p, stop, s, c) == if next.Err? then Err(next.error) else StartFrom(p, stop, next.value, c + 1)
  {
    hide StartOne, WellFormed;
  }

  lemma StartOneShape(p: Program, stop: nat, s: State, c: nat)
    requires WellFormed(p) && Shaped(p, s) && c < |p.components|
    ensures var r := StartOne(p, stop, s, c); r.Ok? ==> Shaped(p, r.value) && r.value.states == s.states
  {
    hide StartOne, WellFormed;
  }

  lemma {:induction false} AddedFrom(p: Program, stop: nat, s: State, c: nat)
    requires WellFormed(p) && Shaped(p, s) && c <= |p.components| && AsCompiled(p, s.states)
    requires StartedUpTo(p, stop, s, c)
    ensures var r := StartFrom(p, stop, s, c); r.Ok? ==> StartedUpTo(p, stop, r.value, |p.components|)
    decreases |p.components| - c
  {
    hide StartedUpTo, StartOne, StartFrom, WellFormed, AsCompiled, Shaped, Grew;
    StartFromStep(p, stop, s, c);
    if c < |p.components| {
      StartedNext(p, stop, s, c);
      StartOneShape(p, stop, s, c);
      var next := StartOne(p, stop, s, c);
      if next.Ok? {
        AddedFrom(p, stop, next.value, c + 1);
      }
    }
  }

  /** The start-up state satisfies every invariant. */
  lemma StartKeeps(p: Program, stop: nat)
    requires WellFormed(p)
    ensures var r := Start(p, stop);
            r.Ok? ==> Inv(p, stop, 0, r.value) && SourcesProjected(p, stop, r.value) && UndrivenUnknown(p, r.value)
  {
    AddedFrom(p, stop, EmptyState(p), 0);
    var r := Start(p, stop);
    if r.Ok? {
      StartedStores(p, stop, r.value);
    }
  }

  lemma StartedStores(p: Program, stop: nat, s: State)
    requires WellFormed(p) && Start(p, stop) == Ok(s) && StartedUpTo(p, stop, s, |p.components|)
    ensures StoresInv(p, stop, 0, s) && Timely(p, 0, s)
  {
    hide StartFrom, Sorted;
    forall c: nat | IsStore(p, c)
      ensures StoreInv(p, stop, 0, s, c)
    {
      ComponentIsWellFormed(p, c);
      assert ShownAtStart(p, s, c);
    }
    forall e | e in s.queue && !p.components[e.driver.component].primitive.IsSource()
      ensures e.time == 0
    {
      var c := e.driver.component;
      assert !p.components[c].primitive.Sink? by {
        ComponentIsWellFormed(p, c);
      }
      assert IsStore(p, c);
      assert PendingAtZero(s, c);
    }
  }

  /* ---- What the loop does to sources and undriven nets ---- */

  lemma StepKeepsSources(p: Program, stop: nat, s: State)
    requires WellFormed(p) && Base(p, stop, s) && |s.queue| > 0
    requires SourcesProjected(p, stop, s) && UndrivenUnknown(p, s)
    ensures Step(p, stop, s).Ok? ==>
              SourcesProjected(p, stop, Step(p, stop, s).value) && UndrivenUnknown(p, Step(p, stop, s).value)
  {
    var time, m := s.queue[0].time, Popped(p, s);
    var comps := AffectedFrom(p, s.nets, m.nets, 0);
    StepReady(p, stop, s);
    PoppedEffect(p, s);
    forall c: nat | c < |p.components| && p.components[c].primitive.IsSource()
      ensures var r := EvaluateList(p, stop, m, time, comps); r.Ok? ==> Projected(r.value, c, 0) == Projected(s, c, 0)
    {
      assert c !in comps by {
        assert forall n :: 0 <= n < |p.drivers| ==> c !in p.dependents[n];
      }
      ListKeeps(p, stop, m, time, comps, DriverKey(c, 0));
    }
  }

  /** Every invariant at once, for a loop that runs to `stop`. */
  lemma {:induction false} ProcessKeepsAll(p: Program, stop: nat, now: nat, s: State) returns (last: nat)
    requires WellFormed(p) && Inv(p, stop, now, s) && now <= stop && SourcesProjected(p, stop, s)
    requires UndrivenUnknown(p, s)
    ensures var r := Process(p, stop, s, stop);
            r.Ok? ==>
              && last <= stop && Inv(p, stop, last, r.value) && r.value.queue == []
              && SourcesProjected(p, stop, r.value) && UndrivenUnknown(p, r.value)
    decreases Measure(s)
  {
    last := now;
    if |s.queue| > 0 {
      assert s.queue[0] in s.queue;
      StepKeepsInv(p, stop, now, s);
      StepKeepsSources(p, stop, s);
      StepReady(p, stop, s);
      var next := Step(p, stop, s);
      if next.Ok? {
        last := ProcessKeepsAll(p, stop, s.queue[0].time, next.value);
      }
    }
  }

  /* ---- One pass in topological order ---- */

  /** Sources, zero-delay gates and sinks only, with at most one driver on every net. */
  ghost predicate LevelizedCircuit(p: Program) {
    && WellFormed(p)
    && (forall c :: 0 <= c < |p.components| ==>
          var comp := p.components[c];
          comp.primitive.IsSource() || comp.primitive.Sink? || (comp.primitive.IsCombinational() && comp.delay == 0))
    && (forall n :: 0 <= n < |p.drivers| ==> |p.drivers[n]| <= 1)
  }

  /** The components in an order in which whatever drives an input comes first. */
  ghost predicate Topological(p: Program, order: seq<nat>) {
    && (forall c: nat :: c < |p.components| ==> c in order)
    && (forall i :: 0 <= i < |order| ==> order[i] < |p.components|)
    && (forall i, j :: 0 <= i < j < |order| ==> order[i] != order[j])
    && (forall i, n, d :: 0 <= i < |order| && n in p.components[order[i]].inputs.Values ==>
          n < |p.drivers| && d in p.drivers[n] ==> d.component in order[..i])
  }

  function Level(c: Component, source: LogicValue, nets: seq<LogicValue>): seq<LogicValue> {
    if c.primitive.IsSource() then [source]
    else if c.primitive.IsCombinational() then CombOutputs(c, nets)
    else []
  }

  /** Net `n` after component `c` has put `values` on its outputs `o` and up. */
  function Placed(c: Component, values: seq<LogicValue>, o: nat, n: nat, current: LogicValue): LogicValue
    decreases |values| - o
  {
    if o >= |values| || o >= |c.outputs| then current
    else Placed(c, values, o + 1, n, if c.outputs[o] == n then values[o] else current)
  }

  function PlaceAll(c: Component, values: seq<LogicValue>, nets: seq<LogicValue>): (r: seq<LogicValue>)
    ensures |r| == |nets| && forall n :: 0 <= n < |nets| ==> r[n] == Placed(c, values, 0, n, nets[n])
  {
    seq(|nets|, n requires 0 <= n < |nets| => Placed(c, values, 0, n, nets[n]))
  }

  /** Evaluates each component once, in the given order, from `base`, with source `c` at `sources[c]`. */
  function LevelizeFrom(p: Program, base: seq<LogicValue>, sources: seq<LogicValue>, order: seq<nat>)
    : (r: seq<LogicValue>)
    requires |sources| == |p.components| && forall i :: 0 <= i < |order| ==> order[i] < |p.components|
    ensures |r| == |base|
  {
    if |order| == 0 then base
    else
      var nets := LevelizeFrom(p, base, sources, order[..|order| - 1]);
      var c := order[|order| - 1];
      PlaceAll(p.components[c], Level(p.components[c], sources[c], nets), nets)
  }

  function FinalSources(p: Program, stop: nat): (r: seq<LogicValue>)
    ensures |r| == |p.components| && forall c :: 0 <= c < |r| ==> r[c] == SourceFinal(p.components[c], stop)
  {
    seq(|p.components|, c requires 0 <= c < |p.components| => SourceFinal(p.components[c], stop))
  }

  /** The pass from unknown nets, every source at its final value. */
  function Levelize(p: Program, stop: nat, order: seq<nat>): (r: seq<LogicValue>)
    requires forall i :: 0 <= i < |order| ==> order[i] < |p.components|
    ensures |r| == |p.drivers|
  {
    LevelizeFrom(p, Repeat(X, |p.drivers|), FinalSources(p, stop), order)
  }

  lemma {:induction false} PlacedElsewhere(c: Component, values: seq<LogicValue>, o: nat, n: nat, current: LogicValue)
    requires forall j :: o <= j < |c.outputs| ==> c.outputs[j] != n
    ensures Placed(c, values, o, n, current) == current
    decreases |values| - o
  {
    if o < |values| && o < |c.outputs| {
      PlacedElsewhere(c, values, o + 1, n, current);
    }
  }

  lemma {:induction false} PlacedAt(c: Component, values: seq<LogicValue>, o: nat, j: nat, current: LogicValue)
    requires o <= j < |c.outputs| && j < |values| && forall k :: j < k < |c.outputs| ==> c.outputs[k] != c.outputs[j]
    ensures Placed(c, values, o, c.outputs[j], current) == values[j]
    decreases j - o
  {
    var next := if c.outputs[o] == c.outputs[j] then values[o] else current;
    if o == j {
      PlacedElsewhere(c, values, o + 1, c.outputs[j], next);
    } else {
      PlacedAt(c, values, o + 1, j, next);
    }
  }

  /** Agreement up to reading both sides through an input buffer. */
  predicate SameBuffered(a: LogicValue, b: LogicValue) {
    a.Buffer() == b.Buffer()
  }

  lemma CombOutputsBuffered(c: Component, before: seq<LogicValue>, after: seq<LogicValue>)
    requires c.primitive.IsCombinational() && |before| == |after|
    requires forall pin :: pin in c.inputs && c.inputs[pin] < |before| ==>
               SameBuffered(before[c.inputs[pin]], after[c.inputs[pin]])
    ensures CombOutputs(c, before) == CombOutputs(c, after)
  {
    forall pin: Pin
      ensures SameBuffered(Input(c, pin, before), Input(c, pin, after))
    {
    }
    if c.primitive.Gate? {
      GateBuffered(c.primitive.kind, c, before, after);
    }
  }

  lemma GateBuffered(kind: GateKind, c: Component, before: seq<LogicValue>, after: seq<LogicValue>)
    requires SameBuffered(Input(c, A, before), Input(c, A, after))
    requires SameBuffered(Input(c, B, before), Input(c, B, after))
    requires SameBuffered(Input(c, In, before), Input(c, In, after))
    ensures GateOutput(kind, c, before) == GateOutput(kind, c, after)
  {
  }

  /** A gate whose inputs are all unknown has unknown outputs, so not evaluating it does no harm. */
  lemma UnknownInUnknownOut(c: Component, nets: seq<LogicValue>, n: nat)
    requires c.primitive.IsCombinational() && WellFormedComponent(c, n) && n == |nets| && InputsUnknown(c, nets)
    ensures forall o :: 0 <= o < OutputCount(c.primitive) ==> CombOutputs(c, nets)[o] == X
  {
    forall pin | RequiresPin(c.primitive, pin)
      ensures Input(c, pin, nets) == X
    {
    }
    if c.primitive.Gate? {
      assert RequiresPin(c.primitive, In) || (RequiresPin(c.primitive, A) && RequiresPin(c.primitive, B));
    } else {
      assert c.primitive.TriState? ==> RequiresPin(c.primitive, Enable);
      assert c.primitive.Mux2? ==>
          RequiresPin(c.primitive, Sel) && RequiresPin(c.primitive, A) && RequiresPin(c.primitive, B);
      assert c.primitive.Demux2? ==> RequiresPin(c.primitive, Sel);
      assert c.primitive.Decoder2To4? ==> RequiresPin(c.primitive, Enable);
    }
  }

  /** A net with one driver carries that driver's value, up to buffering. */
  lemma SingleDriver(p: Program, s: State, d: DriverKey)
    requires LevelizedCircuit(p) && ValidKey(p, d) && |p.drivers| == |s.nets| && NetsConsistent(p, s)
    ensures SameBuffered(s.nets[NetOf(p, d)], DriverValue(s.drivers, d))
  {
    var n := NetOf(p, d);
    assert d in p.drivers[n];
    assert p.drivers[n] == [d];
    assert ValuesOf(p.drivers[n], s.drivers) == [DriverValue(s.drivers, d)];
    assert NetConsistent(p, s, n);
  }

  /** A gate with nothing pending, its drivers at its present outputs, or never evaluated and never disturbed. */
  ghost predicate GateAtRest(p: Program, s: State, c: nat)
    requires IsGate(p, c)
  {
    && (forall e :: e in s.queue ==> e.driver.component != c)
    && (if c in s.lastEval then
          forall o :: 0 <= o < OutputCount(p.components[c].primitive) ==>
            DriverValue(s.drivers, DriverKey(c, o)) == CombOutputs(p.components[c], s.nets)[o]
        else Untouched(p, s, c))
  }

  ghost predicate AtRest(p: Program, s: State) {
    && |s.nets| == |p.drivers| && NetsConsistent(p, s)
    && forall c: nat :: IsGate(p, c) ==> GateAtRest(p, s, c)
  }

  /** When the queue is empty every gate is at rest. */
  lemma EndIsRest(p: Program, stop: nat, last: nat, s: State)
    requires LevelizedCircuit(p) && Inv(p, stop, last, s) && last <= stop && s.queue == []
    ensures AtRest(p, s)
  {
    forall c: nat | IsGate(p, c)
      ensures GateAtRest(p, s, c)
    {
      assert GateInv(p, stop, last, s, c);
    }
  }

  /** `sources` are what the sources drive in `s`. */
  ghost predicate SourcesAre(p: Program, s: State, sources: seq<LogicValue>) {
    && |sources| == |p.components|
    && forall c: nat :: c < |p.components| && p.components[c].primitive.IsSource() ==>
      sources[c] == DriverValue(s.drivers, DriverKey(c, 0))
  }

  lemma EndSources(p: Program, stop: nat, s: State)
    requires SourcesProjected(p, stop, s) && s.queue == []
    ensures SourcesAre(p, s, FinalSources(p, stop))
  {
    forall c: nat | c < |p.components| && p.components[c].primitive.IsSource()
      ensures FinalSources(p, stop)[c] == DriverValue(s.drivers, DriverKey(c, 0))
    {
      assert Projected(s, c, 0) == SourceFinal(p.components[c], stop);
    }
  }

  /** Then each output net of `c` carries, up to buffering, what `c` computes. */
  lemma RestingNet(p: Program, s: State, sources: seq<LogicValue>, c: nat, o: nat)
    requires LevelizedCircuit(p) && AtRest(p, s) && SourcesAre(p, s, sources) && ValidKey(p, DriverKey(c, o))
    ensures var values := Level(p.components[c], sources[c], s.nets);
            o < |values| && SameBuffered(s.nets[p.components[c].outputs[o]], values[o])
  {
    hide NetsConsistent;
    var comp, d := p.components[c], DriverKey(c, o);
    SingleDriver(p, s, d);
    if comp.primitive.IsCombinational() {
      assert GateAtRest(p, s, c);
      if c !in s.lastEval {
        UnknownInUnknownOut(comp, s.nets, |p.drivers|);
      }
    }
  }

  ghost predicate DrivenWithin(p: Program, n: nat, comps: seq<nat>)
    requires n < |p.drivers|
  {
    forall d :: d in p.drivers[n] ==> d.component in comps
  }

  /** Placing the outputs `values` of `c` extends the agreement with `final` to the nets `c` drives. */
  lemma NetAgrees(p: Program, before: seq<nat>, c: nat, values: seq<LogicValue>, n: nat, final: LogicValue,
                  current: LogicValue)
    requires c < |p.components| && n < |p.drivers| && |p.drivers[n]| <= 1
    requires forall d :: d in p.drivers[n] <==> ValidKey(p, d) && NetOf(p, d) == n
    requires forall o :: 0 <= o < |p.components[c].outputs| && p.components[c].outputs[o] == n ==>
               o < |values| && SameBuffered(final, values[o])
    requires DrivenWithin(p, n, before) ==> SameBuffered(final, current)
    requires forall d :: d in p.drivers[n] && d.component !in before ==> current == X
    ensures var v := Placed(p.components[c], values, 0, n, current);
            && (DrivenWithin(p, n, before + [c]) ==> SameBuffered(final, v))
            && (forall d :: d in p.drivers[n] && d.component !in before + [c] ==> v == X)
  {
    var comp := p.components[c];
    if j :| 0 <= j < |comp.outputs| && comp.outputs[j] == n {
      assert DriverKey(c, j) in p.drivers[n];
      forall i | j < i < |comp.outputs|
        ensures comp.outputs[i] != n
      {
        assert ValidKey(p, DriverKey(c, i)) && NetOf(p, DriverKey(c, i)) == comp.outputs[i];
      }
      PlacedAt(comp, values, 0, j, current);
    } else {
      PlacedElsewhere(comp, values, 0, n, current);
      assert DrivenWithin(p, n, before + [c]) ==> DrivenWithin(p, n, before);
    }
  }

  /** Nets driven by `comps` agree with the final ones; nets with any other driver are still unknown. */
  ghost predicate AgreesAt(p: Program, final: seq<LogicValue>, nets: seq<LogicValue>, comps: seq<nat>, n: nat)
    requires n < |p.drivers| == |final| == |nets|
  {
    && (DrivenWithin(p, n, comps) ==> SameBuffered(final[n], nets[n]))
    && (forall d :: d in p.drivers[n] && d.component !in comps ==> nets[n] == X)
  }

  ghost predicate Agrees(p: Program, final: seq<LogicValue>, nets: seq<LogicValue>, comps: seq<nat>) {
    |p.drivers| == |final| == |nets| && forall n :: 0 <= n < |p.drivers| ==> AgreesAt(p, final, nets, comps, n)
  }

  /** The pass starts from the undriven nets as they are, and from X elsewhere. */
  ghost predicate Grounded(p: Program, final: seq<LogicValue>, base: seq<LogicValue>) {
    && |p.drivers| == |final| == |base|
    && forall n :: 0 <= n < |p.drivers| ==> base[n] == if |p.drivers[n]| == 0 then final[n] else X
  }

  lemma NothingPlaced(p: Program, final: seq<LogicValue>, base: seq<LogicValue>)
    requires Grounded(p, final, base)
    ensures Agrees(p, final, base, [])
  {
    assert forall n :: 0 <= n < |p.drivers| && |p.drivers[n]| > 0 ==> p.drivers[n][0] in p.drivers[n];
  }

  /** The final nets hold `values` at the outputs of `c`. */
  ghost predicate OutputsAgree(c: Component, final: seq<LogicValue>, values: seq<LogicValue>) {
    forall o :: 0 <= o < |c.outputs| ==>
        o < |values| && c.outputs[o] < |final| && SameBuffered(final[c.outputs[o]], values[o])
  }

  /** Every component's output nets hold what it computes from `final` itself. */
  ghost predicate Stable(p: Program, sources: seq<LogicValue>, final: seq<LogicValue>)
    requires |sources| == |p.components|
  {
    forall c :: 0 <= c < |p.components| ==> OutputsAgree(p.components[c], final,
                                                         Level(p.components[c], sources[c], final))
  }

  lemma RestingOutputs(p: Program, s: State, sources: seq<LogicValue>, c: nat)
    requires LevelizedCircuit(p) && AtRest(p, s) && SourcesAre(p, s, sources) && c < |p.components|
    ensures OutputsAgree(p.components[c], s.nets, Level(p.components[c], sources[c], s.nets))
  {
    OutputsInRange(p, c);
    hide LevelizedCircuit, AtRest, SourcesAre, SameBuffered, Level;
    forall o | 0 <= o < |p.components[c].outputs|
      ensures var values := Level(p.components[c], sources[c], s.nets);
              o < |values| && SameBuffered(s.nets[p.components[c].outputs[o]], values[o])
    {
      RestingNet(p, s, sources, c, o);
    }
  }

  lemma OutputsInRange(p: Program, c: nat)
    requires LevelizedCircuit(p) && c < |p.components|
    ensures forall o :: 0 <= o < |p.components[c].outputs| ==> p.components[c].outputs[o] < |p.drivers|
  {
    assert WellFormedComponent(p.components[c], |p.drivers|);
  }

  /** So it is whenever all gates are at rest. */
  lemma RestIsStable(p: Program, s: State, sources: seq<LogicValue>)
    requires LevelizedCircuit(p) && AtRest(p, s) && SourcesAre(p, s, sources)
    ensures Stable(p, sources, s.nets)
  {
    hide LevelizedCircuit, AtRest, OutputsAgree, Level;
    forall c: nat | c < |p.components|
      ensures OutputsAgree(p.components[c], s.nets, Level(p.components[c], sources[c], s.nets))
    {
      RestingOutputs(p, s, sources, c);
    }
  }

  /** One more component placed. */
  lemma AgreesNext(p: Program, final: seq<LogicValue>, nets: seq<LogicValue>, comps: seq<nat>, c: nat,
                   values: seq<LogicValue>)
    requires LevelizedCircuit(p) && c < |p.components| && Agrees(p, final, nets, comps)
    requires OutputsAgree(p.components[c], final, values)
    ensures Agrees(p, final, PlaceAll(p.components[c], values, nets), comps + [c])
  {
    hide SameBuffered, DrivenWithin;
    forall n | 0 <= n < |p.drivers|
      ensures AgreesAt(p, final, PlaceAll(p.components[c], values, nets), comps + [c], n)
    {
      assert AgreesAt(p, final, nets, comps, n);
      NetAgrees(p, comps, c, values, n, final[n], nets[n]);
    }
  }

  /** Induction over the order. */
  lemma {:induction false} PrefixAgrees(p: Program, base: seq<LogicValue>, sources: seq<LogicValue>,
                                        final: seq<LogicValue>,
                                        order: seq<nat>, k: nat)
    requires LevelizedCircuit(p) && Topological(p, order) && k <= |order| && |sources| == |p.components|
    requires Grounded(p, final, base) && Stable(p, sources, final)
    ensures Agrees(p, final, LevelizeFrom(p, base, sources, order[..k]), order[..k])
  {
    hide Agrees, LevelizedCircuit, PlaceAll, OutputsAgree, Level;
    if k == 0 {
      NothingPlaced(p, final, base);
    } else {
      PrefixAgrees(p, base, sources, final, order, k - 1);
      var c, nets := order[k - 1], LevelizeFrom(p, base, sources, order[..k - 1]);
      assert order[..k][..k - 1] == order[..k - 1];
      assert order[..k] == order[..k - 1] + [c];
      LevelAgrees(p, sources[c], final, order, k - 1, nets);
      AgreesNext(p, final, nets, order[..k - 1], c, Level(p.components[c], sources[c], nets));
    }
  }

  /** The component at position `k` computes the same from the final nets and from the pass's nets. */
  lemma LevelAgrees(p: Program, source: LogicValue, final: seq<LogicValue>, order: seq<nat>, k: nat,
                    nets: seq<LogicValue>)
    requires LevelizedCircuit(p) && Topological(p, order) && k < |order| && Agrees(p, final, nets, order[..k])
    ensures Level(p.components[order[k]], source, final) == Level(p.components[order[k]], source, nets)
  {
    var comp := p.components[order[k]];
    if comp.primitive.IsCombinational() {
      forall pin | pin in comp.inputs
        ensures SameBuffered(final[comp.inputs[pin]], nets[comp.inputs[pin]])
      {
        var n := comp.inputs[pin];
        assert n in comp.inputs.Values;
        assert AgreesAt(p, final, nets, order[..k], n) && DrivenWithin(p, n, order[..k]);
      }
      CombOutputsBuffered(comp, final, nets);
    }
  }

  /** Stable nets are what one pass computes, up to buffering. */
  lemma StableIsLevelized(p: Program, base: seq<LogicValue>, sources: seq<LogicValue>, final: seq<LogicValue>,
                          order: seq<nat>)
    requires LevelizedCircuit(p) && Topological(p, order) && |sources| == |p.components|
    requires Grounded(p, final, base) && Stable(p, sources, final)
    ensures forall n :: 0 <= n < |p.drivers| ==> SameBuffered(final[n], LevelizeFrom(p, base, sources, order)[n])
  {
    hide LevelizedCircuit, Stable;
    PrefixAgrees(p, base, sources, final, order, |order|);
    assert order[..|order|] == order;
    forall n | 0 <= n < |p.drivers|
      ensures SameBuffered(final[n], LevelizeFrom(p, base, sources, order)[n])
    {
      InRange(p, n);
      assert AgreesAt(p, final, LevelizeFrom(p, base, sources, order), order, n) && DrivenWithin(p, n, order);
    }
  }

  lemma InRange(p: Program, n: nat)
    requires LevelizedCircuit(p) && n < |p.drivers|
    ensures forall d :: d in p.drivers[n] ==> d.component < |p.components|
  {
  }

  /**
   * Glitches, evaluation order and gates that are never evaluated notwithstanding, every run that ends
   * without error ends with each net equal, up to buffering, to one pass in any topological order.
   */
  lemma EventDrivenEqualsLevelized(p: Program, stop: nat, order: seq<nat>)
    requires LevelizedCircuit(p) && Topological(p, order)
    ensures var r := Simulate(p, stop);
            r.Ok? ==> r.value.queue == [] && forall n :: 0 <= n < |p.drivers| ==>
              SameBuffered(r.value.nets[n], Levelize(p, stop, order)[n])
  {
    StartKeeps(p, stop);
    var s := Start(p, stop);
    if s.Ok? {
      var last := ProcessKeepsAll(p, stop, 0, s.value);
      var r := Process(p, stop, s.value, stop);
      if r.Ok? {
        EndIsRest(p, stop, last, r.value);
        EndSources(p, stop, r.value);
        RestIsStable(p, r.value, FinalSources(p, stop));
        StableIsLevelized(p, Repeat(X, |p.drivers|), FinalSources(p, stop), r.value.nets, order);
      }
    }
  }

  /* ---- Unknown inputs ---- */

  /** `q` is `p` with some unknown constants made definite. */
  ghost predicate RefinesSources(p: Program, q: Program) {
    && q.drivers == p.drivers && q.dependents == p.dependents && |q.components| == |p.components|
    && forall c :: 0 <= c < |p.components| ==>
         var a, b := p.components[c], q.components[c];
         || a == b
         || (a.primitive.Constant? && b == a.(primitive := b.primitive) && b.primitive.Constant?
             && Refines(a.primitive.value, b.primitive.value))
  }

  /** The pass is monotone in the nets it starts from and in what the sources drive. */
  lemma {:induction false} LevelizeMonotone(p: Program, q: Program, base: seq<LogicValue>, base': seq<LogicValue>,
                                            sources: seq<LogicValue>, sources': seq<LogicValue>, order: seq<nat>)
    requires RefinesSources(p, q) && RefinesAll(base, base') && |sources| == |sources'| == |p.components|
    requires forall c :: 0 <= c < |p.components| && p.components[c].primitive.IsSource() ==>
      Refines(sources[c], sources'[c])
    requires forall i :: 0 <= i < |order| ==> order[i] < |p.components|
    ensures RefinesAll(LevelizeFrom(p, base, sources, order), LevelizeFrom(q, base', sources', order))
  {
    if |order| > 0 {
      var rest, k := order[..|order| - 1], order[|order| - 1];
      LevelizeMonotone(p, q, base, base', sources, sources', rest);
      var low, high := LevelizeFrom(p, base, sources, rest), LevelizeFrom(q, base', sources', rest);
      var c, d := p.components[k], q.components[k];
      var values, values' := Level(c, sources[k], low), Level(d, sources'[k], high);
      if c.primitive.IsCombinational() {
        CombMonotone(c, low, high);
      }
      forall n | 0 <= n < |low|
        ensures Refines(Placed(c, values, 0, n, low[n]), Placed(d, values', 0, n, high[n]))
      {
        PlacedMonotone(c, d, values, values', 0, n, low[n], high[n]);
      }
    }
  }

  lemma {:induction false} PlacedMonotone(c: Component, d: Component, low: seq<LogicValue>, high: seq<LogicValue>,
                                          o: nat, n: nat,
                                          v: LogicValue, w: LogicValue)
    requires c.outputs == d.outputs && RefinesAll(low, high) && Refines(v, w)
    ensures Refines(Placed(c, low, o, n, v), Placed(d, high, o, n, w))
    decreases |low| - o
  {
    if o < |low| && o < |c.outputs| {
      PlacedMonotone(c, d, low, high, o + 1, n, if c.outputs[o] == n then low[o] else v,
                     if d.outputs[o] == n then high[o] else w);
    }
  }

  /** A known answer computed from unknown inputs survives whatever those inputs turn out to be. */
  lemma KnownOutputsSurviveRefinement(p: Program, q: Program, stop: nat, order: seq<nat>, n: nat)
    requires LevelizedCircuit(p) && LevelizedCircuit(q) && Topological(p, order) && RefinesSources(p, q)
    requires n < |p.drivers|
    requires Simulate(p, stop).Ok? && Simulate(q, stop).Ok? && Simulate(p, stop).value.nets[n].IsKnown()
    ensures Simulate(q, stop).value.nets[n] == Simulate(p, stop).value.nets[n]
  {
    SourcesMonotone(p, q, stop, order);
    hide Levelize, Simulate, LevelizedCircuit, RefinesSources, Topological, WellFormed;
    EventDrivenEqualsLevelized(p, stop, order);
    EventDrivenEqualsLevelized(q, stop, order);
    var low, high := Levelize(p, stop, order), Levelize(q, stop, order);
    assert Refines(low[n], high[n]);
  }

  lemma SourcesMonotone(p: Program, q: Program, stop: nat, order: seq<nat>)
    requires RefinesSources(p, q) && Topological(p, order)
    ensures Topological(q, order) && RefinesAll(Levelize(p, stop, order), Levelize(q, stop, order))
    ensures |q.drivers| == |p.drivers|
  {
    RefinedTopological(p, q, order);
    LevelizeMonotone(p, q, Repeat(X, |p.drivers|), Repeat(X, |q.drivers|), FinalSources(p, stop), FinalSources(q, stop),
                     order);
  }

  lemma RefinedTopological(p: Program, q: Program, order: seq<nat>)
    requires RefinesSources(p, q) && Topological(p, order)
    ensures Topological(q, order)
  {
    assert forall i :: 0 <= i < |order| ==> q.components[order[i]].inputs == p.components[order[i]].inputs;
  }
}
