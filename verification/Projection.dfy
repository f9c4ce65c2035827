/**
 * What the event loop keeps at every batch boundary: net/driver consistency, and the projected-driver
 * invariant (the pending events of an evaluated gate lead its drivers to the gate's present outputs, those of a
 * storage element to the levels it stores).
 */
module Projection {
  import opened Wrappers
  import opened Logic
  import opened Circuit
  import opened Kernel
  import opened Sequential

  /* ---- Applying pending events to one driver ---- */

  /** The value of driver `d`, now `v`, after the events of `q` have been applied in order. */
  function Project(v: LogicValue, q: seq<Event>, d: DriverKey): LogicValue
    decreases |q|
  {
    if |q| == 0 then v else Project(if q[0].driver == d then q[0].value else v, q[1..], d)
  }

  lemma {:induction false} ProjectConcat(v: LogicValue, a: seq<Event>, b: seq<Event>, d: DriverKey)
    ensures Project(v, a + b, d) == Project(Project(v, a, d), b, d)
    decreases |a|
  {
    if |a| == 0 {
      assert a + b == b;
    } else {
      assert (a + b)[1..] == a[1..] + b;
      ProjectConcat(if a[0].driver == d then a[0].value else v, a[1..], b, d);
    }
  }

  lemma {:induction false} ProjectNone(v: LogicValue, q: seq<Event>, d: DriverKey)
    requires forall e :: e in q ==> e.driver != d
    ensures Project(v, q, d) == v
  {
    if |q| > 0 {
      assert q[0] in q;
      ProjectNone(v, q[1..], d);
    }
  }

  lemma {:induction false} ProjectInsertOther(v: LogicValue, q: seq<Event>, e: Event, d: DriverKey)
    requires e.driver != d
    ensures Project(v, Insert(q, e), d) == Project(v, q, d)
    decreases |q|
  {
    if |q| > 0 {
      if Less(e, q[0]) {
        assert ([e] + q)[1..] == q;
      } else {
        ProjectInsertOther(if q[0].driver == d then q[0].value else v, q[1..], e, d);
      }
    }
  }

  /** An event behind every pending event of its driver decides the driver's projected value. */
  lemma {:induction false} ProjectInsertLast(v: LogicValue, q: seq<Event>, e: Event)
    requires Sorted(q) && forall x :: x in q && x.driver == e.driver ==> Less(x, e)
    ensures Project(v, Insert(q, e), e.driver) == e.value
    decreases |q|
  {
    if |q| > 0 {
      if Less(e, q[0]) {
        assert ([e] + q)[1..] == q;
        forall i | 0 <= i < |q|
          ensures q[i].driver != e.driver
        {
          assert q[i] in q;
        }
        ProjectNone(e.value, q, e.driver);
      } else {
        ProjectInsertLast(if q[0].driver == e.driver then q[0].value else v, q[1..], e);
      }
    }
  }

  /* ---- The invariant ---- */

  ghost predicate Ordered(s: State) {
    Sorted(s.queue) && forall e :: e in s.queue ==> e.sequence < s.sequence
  }

  ghost predicate AllZ(drivers: seq<DriverKey>, values: map<DriverKey, LogicValue>) {
    forall d :: d in drivers ==> DriverValue(values, d) == Z
  }

  /** A driven net is its drivers resolved, unless none of its drivers has changed since start-up. */
  ghost predicate NetConsistent(p: Program, s: State, n: nat)
    requires n < |p.drivers| == |s.nets|
  {
    || s.nets[n] == Resolve(ValuesOf(p.drivers[n], s.drivers))
    || (s.nets[n] == X && AllZ(p.drivers[n], s.drivers))
  }

  ghost predicate NetsConsistent(p: Program, s: State)
    requires |p.drivers| == |s.nets|
  {
    forall n :: 0 <= n < |p.drivers| && |p.drivers[n]| > 0 ==> NetConsistent(p, s, n)
  }

  function Projected(s: State, c: nat, o: nat): LogicValue {
    Project(DriverValue(s.drivers, DriverKey(c, o)), s.queue, DriverKey(c, o))
  }

  /** Pending events lead every driver of gate `c` to what the gate now computes. */
  ghost predicate Settled(p: Program, s: State, c: nat)
    requires c < |p.components| && p.components[c].primitive.IsCombinational()
  {
    forall o :: 0 <= o < OutputCount(p.components[c].primitive) ==>
      Projected(s, c, o) == CombOutputs(p.components[c], s.nets)[o]
  }

  ghost predicate InputsUnknown(c: Component, nets: seq<LogicValue>) {
    forall pin :: pin in c.inputs && c.inputs[pin] < |nets| ==> nets[c.inputs[pin]] == X
  }

  /** Never evaluated: its inputs have stayed X and its drivers Z, with nothing pending. */
  ghost predicate Untouched(p: Program, s: State, c: nat)
    requires c < |p.components|
  {
    && InputsUnknown(p.components[c], s.nets)
    && (forall o :: 0 <= o < |p.components[c].outputs| ==> DriverValue(s.drivers, DriverKey(c, o)) == Z)
    && (forall e :: e in s.queue ==> e.driver.component != c)
  }

  ghost predicate GateInv(p: Program, stop: nat, now: nat, s: State, c: nat)
    requires c < |p.components| && p.components[c].primitive.IsCombinational()
  {
    if c in s.lastEval then
      s.lastEval[c] <= now && (s.lastEval[c] + p.components[c].delay <= stop ==> Settled(p, s, c))
    else Untouched(p, s, c)
  }

  predicate IsGate(p: Program, c: nat) {
    c < |p.components| && p.components[c].primitive.IsCombinational()
  }

  ghost predicate GatesInv(p: Program, stop: nat, now: nat, s: State) {
    forall c: nat :: IsGate(p, c) ==> GateInv(p, stop, now, s, c)
  }

  predicate IsStore(p: Program, c: nat) {
    c < |p.components| && p.components[c].primitive.IsStateful()
  }

  /** Pending events lead every driver of storage element `c` to the level it now stores for that output. */
  ghost predicate Shown(p: Program, s: State, c: nat)
    requires c < |p.components| == |s.states| && Fits(p.components[c], s.states[c])
  {
    forall o :: 0 <= o < |p.components[c].outputs| ==>
      Projected(s, c, o) == StoredLevel(p.components[c].primitive, s.states[c], o)
  }

  /** What `c` stores is what evaluating it on the present nets would make of it. */
  ghost predicate UpToDate(p: Program, s: State, c: nat)
    requires c < |p.components| == |s.states|
  {
    Evaluate(p.components[c], s.nets, s.states[c]).0 == s.states[c]
  }

  /** A storage element shows its initial levels until it is evaluated, and from then on what it stores. */
  ghost predicate StoreInv(p: Program, stop: nat, now: nat, s: State, c: nat)
    requires c < |p.components| == |s.states|
  {
    && Fits(p.components[c], s.states[c])
    && if c in s.lastEval then
         && s.lastEval[c] <= now && UpToDate(p, s, c)
         && (s.lastEval[c] + p.components[c].delay <= stop ==> Shown(p, s, c))
       else
         && s.states[c] == InitialRuntimeState(p.components[c]) && InputsUnknown(p.components[c], s.nets)
         && Shown(p, s, c)
  }

  ghost predicate StoresInv(p: Program, stop: nat, now: nat, s: State)
    requires |p.components| == |s.states|
  {
    forall c: nat :: IsStore(p, c) ==> StoreInv(p, stop, now, s, c)
  }

  /** Nothing is pending before `now`, and outputs, except those of sources, are pending for at most the delay. */
  ghost predicate Timely(p: Program, now: nat, s: State)
    requires ValidEvents(p, s.queue)
  {
    forall e :: e in s.queue ==>
      && now <= e.time
      && (!p.components[e.driver.component].primitive.IsSource() ==>
            e.time <= now + p.components[e.driver.component].delay)
  }

  /** What holds at every batch boundary, whatever inputs are written in between. */
  ghost predicate Base(p: Program, stop: nat, s: State) {
    Ready(p, s) && Ordered(s) && NetsConsistent(p, s) && forall e :: e in s.queue ==> e.time <= stop
  }

  /** The rest needs evaluation times that never decrease; `now` is the latest of them. */
  ghost predicate Inv(p: Program, stop: nat, now: nat, s: State) {
    Base(p, stop, s) && Timely(p, now, s) && GatesInv(p, stop, now, s) && StoresInv(p, stop, now, s)
  }

  /* ---- Scheduling keeps the queue ordered and settles the scheduled outputs ---- */

  lemma ScheduleOrdered(s: State, time: nat, c: nat, o: nat, value: LogicValue)
    requires Counted(s) && Ordered(s)
    ensures var r := ScheduleOutput(s, time, c, o, value);
            r.Ok? ==> Ordered(r.value) && forall e :: e in r.value.queue ==>
              e in s.queue || (e.time == time && e.driver == DriverKey(c, o))
  {
    InsertSorted(s.queue, Event(time, s.sequence, DriverKey(c, o), value));
  }

  lemma {:induction false} OutputsOrdered(p: Program, stop: nat, s: State, time: nat, c: nat, o: nat,
                                          values: seq<LogicValue>)
    requires c < |p.components| && Counted(s) && Ordered(s)
    ensures var r := ScheduleOutputs(p, stop, s, time, c, o, values);
            r.Ok? ==> Ordered(r.value) && forall e :: e in r.value.queue ==>
              || e in s.queue
              || (e.driver.component == c && e.time == time + p.components[c].delay && e.time <= stop)
    decreases |values| - o
  {
    if o < |values| && o < |p.components[c].outputs| {
      var at := time + p.components[c].delay;
      var next := if at <= stop then ScheduleOutput(s, at, c, o, values[o]) else Ok(s);
      if next.Ok? {
        ScheduleOrdered(s, at, c, o, values[o]);
        OutputsOrdered(p, stop, next.value, time, c, o + 1, values);
      }
    }
  }

  /** Scheduling outputs `o` and up of `c` leaves every other driver's projected value alone. */
  lemma {:induction false} OutputsKeep(p: Program, stop: nat, s: State, time: nat, c: nat, o: nat,
                                       values: seq<LogicValue>,
                                       v: LogicValue, d: DriverKey)
    requires c < |p.components| && Counted(s)
    requires d.component != c || d.output < o
    ensures var r := ScheduleOutputs(p, stop, s, time, c, o, values);
            r.Ok? ==> Project(v, r.value.queue, d) == Project(v, s.queue, d)
    decreases |values| - o
  {
    if o < |values| && o < |p.components[c].outputs| {
      var at := time + p.components[c].delay;
      var next := if at <= stop then ScheduleOutput(s, at, c, o, values[o]) else Ok(s);
      if next.Ok? {
        ProjectInsertOther(v, s.queue, Event(at, s.sequence, DriverKey(c, o), values[o]), d);
        OutputsKeep(p, stop, next.value, time, c, o + 1, values, v, d);
      }
    }
  }

  /** ... and takes output `j` to its scheduled value, provided nothing of `c` is pending for later. */
  lemma {:induction false} OutputsSettle(p: Program, stop: nat, s: State, time: nat, c: nat, o: nat,
                                         values: seq<LogicValue>,
                                         v: LogicValue, j: nat)
    requires c < |p.components| && Counted(s) && Ordered(s)
    requires o <= j < |values| && j < |p.components[c].outputs|
    requires time + p.components[c].delay <= stop
    requires forall e :: e in s.queue && e.driver.component == c ==> e.time <= time + p.components[c].delay
    ensures var r := ScheduleOutputs(p, stop, s, time, c, o, values);
            r.Ok? ==> Project(v, r.value.queue, DriverKey(c, j)) == values[j]
    decreases |values| - o
  {
    var at := time + p.components[c].delay;
    var next := ScheduleOutput(s, at, c, o, values[o]);
    if next.Ok? {
      ScheduleOrdered(s, at, c, o, values[o]);
      if o == j {
        ProjectInsertLast(v, s.queue, Event(at, s.sequence, DriverKey(c, o), values[o]));
        OutputsKeep(p, stop, next.value, time, c, o + 1, values, v, DriverKey(c, j));
      } else {
        OutputsSettle(p, stop, next.value, time, c, o + 1, values, v, j);
      }
    }
  }

  /* ---- Evaluating a list of components ---- */

  /** Events queued during an evaluation at `time`. */
  ghost predicate FreshEvents(p: Program, stop: nat, time: nat, s: State, t: State, comps: seq<nat>) {
    forall e :: e in t.queue ==>
      || e in s.queue
      || (&& e.driver.component in comps && e.driver.component < |p.components|
          && e.time == time + p.components[e.driver.component].delay && e.time <= stop)
  }

  lemma {:induction false} ListOrdered(p: Program, stop: nat, s: State, time: nat, comps: seq<nat>)
    requires Shaped(p, s) && Ordered(s) && forall i :: 0 <= i < |comps| ==> comps[i] < |p.components|
    ensures var r := EvaluateList(p, stop, s, time, comps);
            r.Ok? ==> Ordered(r.value) && FreshEvents(p, stop, time, s, r.value, comps)
    decreases |comps|
  {
    if |comps| > 0 {
      OneOrdered(p, stop, s, time, comps[0]);
      var next := EvaluateOne(p, stop, s, time, comps[0]);
      if next.Ok? {
        ListOrdered(p, stop, next.value, time, comps[1..]);
      }
    }
  }

  lemma OneOrdered(p: Program, stop: nat, s: State, time: nat, c: nat)
    requires Shaped(p, s) && Ordered(s) && c < |p.components|
    ensures var r := EvaluateOne(p, stop, s, time, c);
            r.Ok? ==> Ordered(r.value) && FreshEvents(p, stop, time, s, r.value, [c])
  {
    var (rs, out) := Evaluate(p.components[c], s.nets, s.states[c]);
    if out.Some? {
      OutputsOrdered(p, stop, s.(states := s.states[c := rs], lastEval := s.lastEval[c := time]), time, c, 0,
                     out.value);
    }
  }

  /** A component outside the list keeps its projected drivers and its evaluation time. */
  lemma {:induction false} ListKeeps(p: Program, stop: nat, s: State, time: nat, comps: seq<nat>, d: DriverKey)
    requires Shaped(p, s) && forall i :: 0 <= i < |comps| ==> comps[i] < |p.components|
    requires d.component !in comps
    ensures var r := EvaluateList(p, stop, s, time, comps);
            r.Ok? ==>
              && Project(DriverValue(s.drivers, d), r.value.queue, d) == Project(DriverValue(s.drivers, d), s.queue, d)
              && (d.component in r.value.lastEval <==> d.component in s.lastEval)
              && (d.component in s.lastEval ==> r.value.lastEval[d.component] == s.lastEval[d.component])
    decreases |comps|
  {
    if |comps| > 0 {
      OneKeeps(p, stop, s, time, comps[0], d);
      var next := EvaluateOne(p, stop, s, time, comps[0]);
      if next.Ok? {
        ListKeeps(p, stop, next.value, time, comps[1..], d);
      }
    }
  }

  lemma OneKeeps(p: Program, stop: nat, s: State, time: nat, c: nat, d: DriverKey)
    requires Shaped(p, s) && c < |p.components| && d.component != c
    ensures var r := EvaluateOne(p, stop, s, time, c);
            r.Ok? ==>
              && Project(DriverValue(s.drivers, d), r.value.queue, d) == Project(DriverValue(s.drivers, d), s.queue, d)
              && (d.component in r.value.lastEval <==> d.component in s.lastEval)
              && (d.component in s.lastEval ==> r.value.lastEval[d.component] == s.lastEval[d.component])
  {
    var (rs, out) := Evaluate(p.components[c], s.nets, s.states[c]);
    if out.Some? {
      var updated := s.(states := s.states[c := rs], lastEval := s.lastEval[c := time]);
      OutputsKeep(p, stop, updated, time, c, 0, out.value, DriverValue(s.drivers, d), d);
      KeptByOutputs(p, stop, updated, time, c, 0, out.value);
    }
  }

  lemma {:induction false} KeptByOutputs(p: Program, stop: nat, s: State, time: nat, c: nat, o: nat,
                                         values: seq<LogicValue>)
    requires c < |p.components| && Counted(s)
    ensures var r := ScheduleOutputs(p, stop, s, time, c, o, values);
            r.Ok? ==> r.value.lastEval == s.lastEval && r.value.states == s.states
    decreases |values| - o
  {
    if o < |values| && o < |p.components[c].outputs| {
      var at := time + p.components[c].delay;
      var next := if at <= stop then ScheduleOutput(s, at, c, o, values[o]) else Ok(s);
      if next.Ok? {
        KeptByOutputs(p, stop, next.value, time, c, o + 1, values);
      }
    }
  }

  /** Pending events lead every driver of `c` to the output values given. */
  ghost predicate LeadTo(p: Program, s: State, c: nat, values: seq<LogicValue>)
    requires c < |p.components| && |values| == |p.components[c].outputs|
  {
    forall o :: 0 <= o < |values| ==> Projected(s, c, o) == values[o]
  }

  /** What an evaluation of `c` from the state `from` at `time` leaves behind. */
  ghost predicate Evaluated(p: Program, stop: nat, time: nat, nets: seq<LogicValue>, from: RuntimeState, r: State,
                            c: nat)
    requires c < |p.components| == |r.states|
  {
    var (rs, out) := Evaluate(p.components[c], nets, from);
    && r.states[c] == rs && c in r.lastEval && r.lastEval[c] == time
    && (out.Some? && |out.value| == |p.components[c].outputs| && time + p.components[c].delay <= stop ==>
          LeadTo(p, r, c, out.value))
  }

  /** A gate or storage element in the list ends up evaluated at `time`, once or more with the same effect. */
  lemma {:induction false} ListSettles(p: Program, stop: nat, s: State, time: nat, comps: seq<nat>, c: nat)
    requires Shaped(p, s) && Ordered(s) && forall i :: 0 <= i < |comps| ==> comps[i] < |p.components|
    requires c in comps && (IsGate(p, c) || IsStore(p, c))
    requires forall e :: e in s.queue && e.driver.component == c ==> e.time <= time + p.components[c].delay
    ensures var r := EvaluateList(p, stop, s, time, comps);
            r.Ok? ==> Evaluated(p, stop, time, s.nets, s.states[c], r.value, c)
    decreases |comps|
  {
    hide Evaluate, Sorted, Evaluated, IsGate, IsStore, ScheduleOutputs, EvaluateOne;
    var next := EvaluateOne(p, stop, s, time, comps[0]);
    if next.Ok? {
      OneOrdered(p, stop, s, time, comps[0]);
      OneStores(p, stop, s, time, comps[0], c);
      if comps[0] == c {
        OneSettles(p, stop, s, time, c);
      }
      if c in comps[1..] {
        EvaluateIsIdempotent(p.components[c], s.nets, s.states[c]);
        ListSettles(p, stop, next.value, time, comps[1..], c);
        EvaluatedAgain(p, stop, time, s, next.value, comps, c);
      } else {
        RestKeeps(p, stop, time, s, next.value, comps, c);
      }
    }
  }

  lemma EvaluatedAgain(p: Program, stop: nat, time: nat, s: State, next: State, comps: seq<nat>, c: nat)
    requires Shaped(p, next) && c < |p.components| == |s.states| && |comps| > 0 && next.nets == s.nets
    requires forall i :: 0 <= i < |comps| ==> comps[i] < |p.components|
    requires next.states[c] == s.states[c] || next.states[c] == Evaluate(p.components[c], s.nets, s.states[c]).0
    ensures var r := EvaluateList(p, stop, next, time, comps[1..]);
            r.Ok? && Evaluated(p, stop, time, next.nets, next.states[c], r.value, c) ==>
              Evaluated(p, stop, time, s.nets, s.states[c], r.value, c)
  {
    hide Evaluate, EvaluateList;
    EvaluateIsIdempotent(p.components[c], s.nets, s.states[c]);
  }

  lemma RestKeeps(p: Program, stop: nat, time: nat, s: State, next: State, comps: seq<nat>, c: nat)
    requires Shaped(p, next) && c < |p.components| == |s.states| && |comps| > 0 && c !in comps[1..]
    requires forall i :: 0 <= i < |comps| ==> comps[i] < |p.components|
    requires Evaluated(p, stop, time, s.nets, s.states[c], next, c)
    ensures var r := EvaluateList(p, stop, next, time, comps[1..]);
            r.Ok? ==> Evaluated(p, stop, time, s.nets, s.states[c], r.value, c)
  {
    hide Evaluate, EvaluateList, Project;
    var r := EvaluateList(p, stop, next, time, comps[1..]);
    if r.Ok? {
      ListStores(p, stop, next, time, comps[1..], c);
      ListKeeps(p, stop, next, time, comps[1..], DriverKey(c, 0));
      forall o: nat
        ensures Projected(r.value, c, o) == Projected(next, c, o)
      {
        ListKeeps(p, stop, next, time, comps[1..], DriverKey(c, o));
      }
    }
  }

  lemma OneSettles(p: Program, stop: nat, s: State, time: nat, c: nat)
    requires Shaped(p, s) && Ordered(s) && (IsGate(p, c) || IsStore(p, c))
    requires forall e :: e in s.queue && e.driver.component == c ==> e.time <= time + p.components[c].delay
    ensures var r := EvaluateOne(p, stop, s, time, c);
            r.Ok? ==> Evaluated(p, stop, time, s.nets, s.states[c], r.value, c)
  {
    hide Sorted, Project, ScheduleOutputs;
    var (rs, out) := Evaluate(p.components[c], s.nets, s.states[c]);
    assert out.Some?;
    hide Evaluate;
    var updated := s.(states := s.states[c := rs], lastEval := s.lastEval[c := time]);
    KeptByOutputs(p, stop, updated, time, c, 0, out.value);
    if time + p.components[c].delay <= stop && |out.value| == |p.components[c].outputs| {
      forall j | 0 <= j < |out.value|
        ensures var r := ScheduleOutputs(p, stop, updated, time, c, 0, out.value);
                r.Ok? ==>
                  Project(DriverValue(s.drivers, DriverKey(c, j)), r.value.queue, DriverKey(c, j)) == out.value[j]
      {
        OutputsSettle(p, stop, updated, time, c, 0, out.value, DriverValue(s.drivers, DriverKey(c, j)), j);
      }
    }
  }

  /* ---- What a list of evaluations stores ---- */

  lemma OneStores(p: Program, stop: nat, s: State, time: nat, first: nat, c: nat)
    requires Shaped(p, s) && first < |p.components| && c < |p.components|
    ensures var r := EvaluateOne(p, stop, s, time, first);
            r.Ok? ==>
              && r.value.nets == s.nets
              && r.value.states[c] == if c == first then Evaluate(p.components[c], s.nets, s.states[c]).0
                                      else s.states[c]
  {
    var (rs, out) := Evaluate(p.components[first], s.nets, s.states[first]);
    hide Evaluate;
    if out.Some? {
      KeptByOutputs(p, stop, s.(states := s.states[first := rs], lastEval := s.lastEval[first := time]), time, first, 0,
                    out.value);
    }
  }

  /** Every component in the list stores what its evaluation on the present nets yields, and no other changes. */
  lemma {:induction false} ListStores(p: Program, stop: nat, s: State, time: nat, comps: seq<nat>, c: nat)
    requires Shaped(p, s) && forall i :: 0 <= i < |comps| ==> comps[i] < |p.components|
    requires c < |p.components|
    ensures var r := EvaluateList(p, stop, s, time, comps);
            r.Ok? ==>
              && r.value.nets == s.nets
              && r.value.states[c] == if c in comps then Evaluate(p.components[c], s.nets, s.states[c]).0
                                      else s.states[c]
    decreases |comps|
  {
    hide Evaluate, EvaluateOne;
    if |comps| > 0 {
      OneStores(p, stop, s, time, comps[0], c);
      EvaluateIsIdempotent(p.components[c], s.nets, s.states[c]);
      var next := EvaluateOne(p, stop, s, time, comps[0]);
      if next.Ok? {
        ListStores(p, stop, next.value, time, comps[1..], c);
      }
    }
  }

  /* ---- One batch ---- */

  lemma {:induction false} ApplyEffect(p: Program, drivers: map<DriverKey, LogicValue>, touched: set<nat>,
                                       batch: seq<Event>)
    requires WellFormed(p) && ValidEvents(p, batch)
    ensures var (after, nets) := ApplyEvents(p, drivers, touched, batch);
            && touched <= nets
            && (forall d :: DriverValue(after, d) == Project(DriverValue(drivers, d), batch, d))
            && (forall n, d :: 0 <= n < |p.drivers| && n !in nets && d in p.drivers[n] ==>
                  DriverValue(after, d) == DriverValue(drivers, d))
            && (forall n :: n in nets && n !in touched ==> n < |p.drivers| && |p.drivers[n]| > 0)
    decreases |batch|
  {
    if |batch| > 0 {
      var e := batch[0];
      assert e in batch && e.driver in p.drivers[NetOf(p, e.driver)];
      var more := if DriverValue(drivers, e.driver) != e.value then {NetOf(p, e.driver)} else {};
      ApplyEffect(p, drivers[e.driver := e.value], touched + more, batch[1..]);
    }
  }

  /** The popped batch is a prefix; what stays behind is later. */
  lemma PoppedQueue(p: Program, s: State)
    requires Ready(p, s) && Ordered(s) && |s.queue| > 0
    ensures var k := BatchLength(s.queue, s.queue[0].time);
            && Popped(p, s).queue == s.queue[k..] && s.queue == s.queue[..k] + s.queue[k..]
            && Ordered(Popped(p, s)) && forall e :: e in s.queue[k..] ==> e in s.queue && e.time > s.queue[0].time
  {
    var k := BatchLength(s.queue, s.queue[0].time);
    forall e | e in s.queue[k..]
      ensures e.time > s.queue[0].time
    {
      assert Less(s.queue[0], s.queue[k]);
    }
  }

  lemma PoppedDriver(p: Program, s: State, d: DriverKey)
    requires WellFormed(p) && Ready(p, s) && Ordered(s) && |s.queue| > 0
    ensures var r := Popped(p, s);
            && Project(DriverValue(r.drivers, d), r.queue, d) == Project(DriverValue(s.drivers, d), s.queue, d)
            && ((forall e :: e in s.queue ==> e.driver != d) ==> DriverValue(r.drivers, d) == DriverValue(s.drivers, d))
  {
    hide WellFormed, Sorted, NetsAfter;
    PoppedQueue(p, s);
    var k := BatchLength(s.queue, s.queue[0].time);
    var batch, rest := s.queue[..k], s.queue[k..];
    ApplyEffect(p, s.drivers, {}, batch);
    ProjectConcat(DriverValue(s.drivers, d), batch, rest, d);
    if forall e :: e in s.queue ==> e.driver != d {
      ProjectNone(DriverValue(s.drivers, d), batch, d);
    }
  }

  /** No projected driver value changes, nor any driver without a pending event. */
  lemma PoppedDrivers(p: Program, s: State)
    requires WellFormed(p) && Ready(p, s) && Ordered(s) && |s.queue| > 0
    ensures var r := Popped(p, s);
            && (forall c, o :: Projected(r, c, o) == Projected(s, c, o))
            && (forall d :: (forall e :: e in s.queue ==> e.driver != d) ==>
                  DriverValue(r.drivers, d) == DriverValue(s.drivers, d))
  {
    hide WellFormed, Popped, Ordered, Project;
    forall c: nat, o: nat
      ensures Projected(Popped(p, s), c, o) == Projected(s, c, o)
    {
      PoppedDriver(p, s, DriverKey(c, o));
    }
    forall d | forall e :: e in s.queue ==> e.driver != d
      ensures DriverValue(Popped(p, s).drivers, d) == DriverValue(s.drivers, d)
    {
      PoppedDriver(p, s, d);
    }
  }

  /** Nets stay consistent with the drivers, and undriven nets as they were. */
  lemma PoppedNets(p: Program, s: State)
    requires WellFormed(p) && Ready(p, s) && |s.queue| > 0 && NetsConsistent(p, s)
    ensures NetsConsistent(p, Popped(p, s))
    ensures forall n :: 0 <= n < |p.drivers| && |p.drivers[n]| == 0 ==> Popped(p, s).nets[n] == s.nets[n]
  {
    var batch, r := s.queue[..BatchLength(s.queue, s.queue[0].time)], Popped(p, s);
    ApplyEffect(p, s.drivers, {}, batch);
    var touched := ApplyEvents(p, s.drivers, {}, batch).1;
    forall n | 0 <= n < |p.drivers| && |p.drivers[n]| > 0
      ensures NetConsistent(p, r, n)
    {
      assert NetConsistent(p, s, n);
      if n !in touched {
        assert ValuesOf(p.drivers[n], r.drivers) == ValuesOf(p.drivers[n], s.drivers);
      }
    }
  }

  /** Event number `i` of the batch gives a driver of net `n` a value other than the one it has by then. */
  ghost predicate Stirs(p: Program, drivers: map<DriverKey, LogicValue>, batch: seq<Event>, n: nat, i: nat)
    requires i < |batch| && n < |p.drivers|
  {
    && batch[i].driver in p.drivers[n]
    && Project(DriverValue(drivers, batch[i].driver), batch[..i], batch[i].driver) != batch[i].value
  }

  ghost predicate Stirred(p: Program, drivers: map<DriverKey, LogicValue>, batch: seq<Event>, n: nat)
    requires n < |p.drivers|
  {
    exists i: nat :: i < |batch| && Stirs(p, drivers, batch, n, i)
  }

  lemma StirredNext(p: Program, drivers: map<DriverKey, LogicValue>, batch: seq<Event>, n: nat)
    requires n < |p.drivers| && |batch| > 0
    ensures var e := batch[0];
            Stirred(p, drivers, batch, n) <==>
              || (e.driver in p.drivers[n] && DriverValue(drivers, e.driver) != e.value)
              || Stirred(p, drivers[e.driver := e.value], batch[1..], n)
  {
    var e, rest := batch[0], batch[1..];
    var after := drivers[e.driver := e.value];
    assert batch[..0] == [];
    assert Stirs(p, drivers, batch, n, 0) <==> e.driver in p.drivers[n] && DriverValue(drivers, e.driver) != e.value;
    forall i: nat | i < |rest|
      ensures Stirs(p, after, rest, n, i) <==> Stirs(p, drivers, batch, n, i + 1)
    {
      assert batch[..i + 1] == [e] + rest[..i] && batch[i + 1] == rest[i];
      var d := rest[i].driver;
      ProjectConcat(DriverValue(drivers, d), [e], rest[..i], d);
      assert [e][1..] == [];
      assert Project(DriverValue(drivers, d), [e], d) == DriverValue(after, d);
    }
    if i: nat :| i < |batch| && Stirs(p, drivers, batch, n, i) {
      assert i > 0 ==> Stirs(p, after, rest, n, i - 1);
    }
    if i: nat :| i < |rest| && Stirs(p, after, rest, n, i) {
      assert Stirs(p, drivers, batch, n, i + 1);
    }
  }

  lemma {:induction false} TouchedExactly(p: Program, drivers: map<DriverKey, LogicValue>, touched: set<nat>,
                                          batch: seq<Event>, n: nat)
    requires WellFormed(p) && ValidEvents(p, batch) && n < |p.drivers|
    ensures n in ApplyEvents(p, drivers, touched, batch).1 <==> n in touched || Stirred(p, drivers, batch, n)
    decreases |batch|
  {
    hide Stirred;
    if |batch| == 0 {
      NothingStirs(p, drivers, n);
    } else {
      var e := batch[0];
      assert e in batch && ValidKey(p, e.driver);
      assert e.driver in p.drivers[n] <==> NetOf(p, e.driver) == n;
      var more := if DriverValue(drivers, e.driver) != e.value then {NetOf(p, e.driver)} else {};
      StirredNext(p, drivers, batch, n);
      TouchedExactly(p, drivers[e.driver := e.value], touched + more, batch[1..], n);
    }
  }

  lemma NothingStirs(p: Program, drivers: map<DriverKey, LogicValue>, n: nat)
    requires n < |p.drivers|
    ensures !Stirred(p, drivers, [], n)
  {
  }

  /** A batch moves a net, to its drivers resolved, exactly if one of its events changes a driver of that net. */
  lemma StepMovesNets(p: Program, stop: nat, s: State, n: nat)
    requires WellFormed(p) && Ready(p, s) && |s.queue| > 0 && n < |p.drivers|
    ensures var (r, batch) := (Step(p, stop, s), s.queue[..BatchLength(s.queue, s.queue[0].time)]);
            r.Ok? ==>
              r.value.nets[n] == if Stirred(p, s.drivers, batch, n)
                                 then Resolve(ValuesOf(p.drivers[n], r.value.drivers)) else s.nets[n]
  {
    hide EvaluateList, WellFormed, Stirred;
    var batch := s.queue[..BatchLength(s.queue, s.queue[0].time)];
    TouchedExactly(p, s.drivers, {}, batch, n);
  }

  lemma PoppedEffect(p: Program, s: State)
    requires WellFormed(p) && Ready(p, s) && Ordered(s) && |s.queue| > 0 && NetsConsistent(p, s)
    ensures var r := Popped(p, s);
            && Ordered(r) && NetsConsistent(p, r)
            && (forall c, o :: Projected(r, c, o) == Projected(s, c, o))
            && (forall e :: e in r.queue ==> e in s.queue && e.time > s.queue[0].time)
            && (forall d :: (forall e :: e in s.queue ==> e.driver != d) ==>
                  DriverValue(r.drivers, d) == DriverValue(s.drivers, d))
            && (forall n :: 0 <= n < |p.drivers| && |p.drivers[n]| == 0 ==> r.nets[n] == s.nets[n])
  {
    hide Popped, Ordered, NetsConsistent, Projected, WellFormed;
    PoppedQueue(p, s);
    PoppedDrivers(p, s);
    PoppedNets(p, s);
  }

  ghost predicate SameInputs(c: Component, before: seq<LogicValue>, after: seq<LogicValue>) {
    && |before| == |after|
    && forall pin :: pin in c.inputs && c.inputs[pin] < |before| ==> before[c.inputs[pin]] == after[c.inputs[pin]]
  }

  lemma EvaluateDependsOnInputs(c: Component, before: seq<LogicValue>, after: seq<LogicValue>, s: RuntimeState)
    requires SameInputs(c, before, after)
    ensures Evaluate(c, before, s) == Evaluate(c, after, s)
    ensures c.primitive.IsCombinational() ==> CombOutputs(c, before) == CombOutputs(c, after)
  {
    assert forall pin: Pin :: Input(c, pin, before) == Input(c, pin, after);
    if c.primitive.IsVector() {
      assert DataInputs(c, before, c.primitive.width) == DataInputs(c, after, c.primitive.width);
    }
    hide Input;
  }

  /** The queue and drivers of `m` are those of `s` after a batch: nothing new is pending or changed unasked. */
  ghost predicate Carried(s: State, m: State) {
    && m.lastEval == s.lastEval && m.states == s.states
    && (forall c, o :: Projected(m, c, o) == Projected(s, c, o))
    && (forall e :: e in m.queue ==> e in s.queue)
    && (forall d :: (forall e :: e in s.queue ==> e.driver != d) ==>
          DriverValue(m.drivers, d) == DriverValue(s.drivers, d))
  }

  ghost predicate Listed(p: Program, comps: seq<nat>) {
    forall i :: 0 <= i < |comps| ==> comps[i] < |p.components|
  }

  /**
   * Evaluating `comps` at `time` restores the invariant after the nets moved from those of `s` to those of `m`,
   * provided every component with a changed input is in the list.
   */
  lemma EvaluationRestores(p: Program, stop: nat, now: nat, time: nat, s: State, m: State, comps: seq<nat>)
    requires WellFormed(p) && Ready(p, s) && Ready(p, m) && Ordered(m) && now <= time && Listed(p, comps)
    requires GatesInv(p, stop, now, s) && StoresInv(p, stop, now, s) && Timely(p, now, s) && Carried(s, m)
    requires forall c: nat :: c < |p.components| && c !in comps ==> SameInputs(p.components[c], s.nets, m.nets)
    requires forall e :: e in m.queue ==> time <= e.time
    ensures var r := EvaluateList(p, stop, m, time, comps);
            r.Ok? ==>
                && Ready(p, r.value) && Ordered(r.value) && Timely(p, time, r.value)
                && GatesInv(p, stop, time, r.value) && StoresInv(p, stop, time, r.value)
  {
    hide Carried, WellFormed, Sorted, EvaluateList, SameInputs, GateInv, StoreInv;
    var r := EvaluateList(p, stop, m, time, comps);
    if r.Ok? {
      EvaluatedEventsValid(p, stop, m, time, comps);
      EvaluationKeepsTimely(p, stop, now, time, s, m, comps);
      forall c: nat | IsGate(p, c)
        ensures GateInv(p, stop, time, r.value, c)
      {
        if c in comps {
          ListedGateSettles(p, stop, now, time, s, m, comps, c);
        } else {
          UnlistedGateKept(p, stop, now, time, s, m, comps, c);
        }
      }
      forall c: nat | IsStore(p, c)
        ensures StoreInv(p, stop, time, r.value, c)
      {
        if c in comps {
          ListedStoreShows(p, stop, now, time, s, m, comps, c);
        } else {
          UnlistedStoreKept(p, stop, now, time, s, m, comps, c);
        }
      }
    }
  }

  lemma EvaluationKeepsTimely(p: Program, stop: nat, now: nat, time: nat, s: State, m: State, comps: seq<nat>)
    requires Ready(p, s) && Ready(p, m) && Ordered(m) && now <= time && Listed(p, comps)
    requires Timely(p, now, s) && Carried(s, m) && forall e :: e in m.queue ==> time <= e.time
    requires EvaluateList(p, stop, m, time, comps).Ok?
    requires ValidEvents(p, EvaluateList(p, stop, m, time, comps).value.queue)
    ensures var r := EvaluateList(p, stop, m, time, comps).value; Ordered(r) && Timely(p, time, r)
  {
    hide Sorted, EvaluateList, Projected;
    ListOrdered(p, stop, m, time, comps);
  }

  /** What is pending for a component at the start of a list is due within its delay. */
  lemma PendingWithinDelay(p: Program, now: nat, time: nat, s: State, m: State, c: nat)
    requires ValidEvents(p, s.queue) && Timely(p, now, s) && Carried(s, m) && now <= time
    requires IsGate(p, c) || IsStore(p, c)
    ensures forall e :: e in m.queue && e.driver.component == c ==> e.time <= time + p.components[c].delay
  {
    hide Projected;
  }

  lemma ListedGateSettles(p: Program, stop: nat, now: nat, time: nat, s: State, m: State, comps: seq<nat>, c: nat)
    requires WellFormed(p) && Ready(p, s) && Ready(p, m) && Ordered(m) && now <= time && Listed(p, comps)
    requires IsGate(p, c) && c in comps && Timely(p, now, s) && Carried(s, m)
    requires EvaluateList(p, stop, m, time, comps).Ok?
    ensures GateInv(p, stop, time, EvaluateList(p, stop, m, time, comps).value, c)
  {
    hide Carried, Sorted, EvaluateList, Projected;
    assert WellFormedComponent(p.components[c], |p.drivers|);
    PendingWithinDelay(p, now, time, s, m, c);
    ListSettles(p, stop, m, time, comps, c);
    ListStores(p, stop, m, time, comps, c);
  }

  lemma ListedStoreShows(p: Program, stop: nat, now: nat, time: nat, s: State, m: State, comps: seq<nat>, c: nat)
    requires WellFormed(p) && Ready(p, s) && Ready(p, m) && Ordered(m) && now <= time && Listed(p, comps)
    requires IsStore(p, c) && c in comps && Timely(p, now, s) && Carried(s, m) && StoreInv(p, stop, now, s, c)
    requires EvaluateList(p, stop, m, time, comps).Ok?
    ensures StoreInv(p, stop, time, EvaluateList(p, stop, m, time, comps).value, c)
  {
    hide Sorted, EvaluateList, Projected, Evaluate;
    assert WellFormedComponent(p.components[c], |p.drivers|);
    PendingWithinDelay(p, now, time, s, m, c);
    ListSettles(p, stop, m, time, comps, c);
    ListStores(p, stop, m, time, comps, c);
    OutputsShowStore(p.components[c], m.nets, m.states[c]);
    EvaluateIsIdempotent(p.components[c], m.nets, m.states[c]);
  }

  /** A component outside the list keeps its state and its projected drivers. */
  lemma UnlistedKept(p: Program, stop: nat, time: nat, s: State, m: State, comps: seq<nat>, c: nat)
    requires Shaped(p, m) && Listed(p, comps) && c < |p.components| == |s.states| && c !in comps && Carried(s, m)
    requires EvaluateList(p, stop, m, time, comps).Ok?
    ensures var r := EvaluateList(p, stop, m, time, comps).value;
            && r.nets == m.nets && r.states[c] == s.states[c]
            && (c in r.lastEval <==> c in s.lastEval) && (c in s.lastEval ==> r.lastEval[c] == s.lastEval[c])
            && forall o :: Projected(r, c, o) == Projected(s, c, o)
  {
    hide EvaluateList, Project;
    var r := EvaluateList(p, stop, m, time, comps).value;
    ListStores(p, stop, m, time, comps, c);
    ListKeeps(p, stop, m, time, comps, DriverKey(c, 0));
    forall o: nat
      ensures Projected(r, c, o) == Projected(s, c, o)
    {
      ListKeeps(p, stop, m, time, comps, DriverKey(c, o));
    }
  }

  lemma UnlistedGateKept(p: Program, stop: nat, now: nat, time: nat, s: State, m: State, comps: seq<nat>, c: nat)
    requires WellFormed(p) && Ready(p, s) && Ready(p, m) && Ordered(m) && now <= time && Listed(p, comps)
    requires IsGate(p, c) && c !in comps && GateInv(p, stop, now, s, c) && Carried(s, m)
    requires SameInputs(p.components[c], s.nets, m.nets)
    requires EvaluateList(p, stop, m, time, comps).Ok?
    ensures GateInv(p, stop, time, EvaluateList(p, stop, m, time, comps).value, c)
  {
    hide EvaluateList, Projected, Evaluate, CombOutputs, WellFormed;
    UnlistedKept(p, stop, time, s, m, comps, c);
    ListOrdered(p, stop, m, time, comps);
    EvaluateDependsOnInputs(p.components[c], s.nets, m.nets, s.states[c]);
  }

  lemma UnlistedStoreKept(p: Program, stop: nat, now: nat, time: nat, s: State, m: State, comps: seq<nat>, c: nat)
    requires WellFormed(p) && Ready(p, s) && Ready(p, m) && Ordered(m) && now <= time && Listed(p, comps)
    requires IsStore(p, c) && c !in comps && StoreInv(p, stop, now, s, c) && Carried(s, m)
    requires SameInputs(p.components[c], s.nets, m.nets)
    requires EvaluateList(p, stop, m, time, comps).Ok?
    ensures StoreInv(p, stop, time, EvaluateList(p, stop, m, time, comps).value, c)
  {
    hide EvaluateList, Projected, Evaluate, WellFormed;
    UnlistedKept(p, stop, time, s, m, comps, c);
    EvaluateDependsOnInputs(p.components[c], s.nets, m.nets, s.states[c]);
  }

  lemma EvaluationKeepsBase(p: Program, stop: nat, s: State, time: nat, comps: seq<nat>)
    requires Base(p, stop, s) && forall i :: 0 <= i < |comps| ==> comps[i] < |p.components|
    ensures var r := EvaluateList(p, stop, s, time, comps); r.Ok? ==> Base(p, stop, r.value)
  {
    EvaluatedEventsValid(p, stop, s, time, comps);
    ListOrdered(p, stop, s, time, comps);
  }

  lemma StepKeepsBase(p: Program, stop: nat, s: State)
    requires WellFormed(p) && Base(p, stop, s) && |s.queue| > 0
    ensures Step(p, stop, s).Ok? ==> Base(p, stop, Step(p, stop, s).value)
  {
    var m := Popped(p, s);
    StepReady(p, stop, s);
    PoppedEffect(p, s);
    EvaluationKeepsBase(p, stop, m, s.queue[0].time, AffectedFrom(p, s.nets, m.nets, 0));
  }

  /** Nothing is scheduled for before the batch that schedules it. */
  lemma StepNotBefore(p: Program, stop: nat, s: State, low: nat)
    requires WellFormed(p) && Base(p, stop, s) && |s.queue| > 0
    requires forall e :: e in s.queue ==> low <= e.time
    ensures Step(p, stop, s).Ok? ==> forall e :: e in Step(p, stop, s).value.queue ==> low <= e.time
  {
    var m := Popped(p, s);
    PoppedEffect(p, s);
    assert s.queue[0] in s.queue;
    ListOrdered(p, stop, m, s.queue[0].time, AffectedFrom(p, s.nets, m.nets, 0));
  }

  lemma {:induction false} ProcessKeepsBase(p: Program, stop: nat, s: State, bound: nat)
    requires WellFormed(p) && Base(p, stop, s)
    ensures Process(p, stop, s, bound).Ok? ==> Base(p, stop, Process(p, stop, s, bound).value)
    decreases Measure(s)
  {
    if |s.queue| > 0 && s.queue[0].time <= bound {
      StepKeepsBase(p, stop, s);
      var next := Step(p, stop, s);
      if next.Ok? {
        ProcessKeepsBase(p, stop, next.value, bound);
      }
    }
  }

  /** A component that the batch does not affect sees the same inputs. */
  lemma UnaffectedSeesTheSame(p: Program, s: State, m: State, c: nat)
    requires WellFormed(p) && Shaped(p, s) && Shaped(p, m) && c < |p.components|
    requires c !in AffectedFrom(p, s.nets, m.nets, 0)
    ensures SameInputs(p.components[c], s.nets, m.nets)
  {
    assert !Affected(p, s.nets, m.nets, c);
    forall pin | pin in p.components[c].inputs
      ensures var n := p.components[c].inputs[pin]; n < |s.nets| ==> s.nets[n] == m.nets[n]
    {
      assert p.components[c].inputs[pin] in p.components[c].inputs.Values;
    }
  }

  /** The invariant is kept by every turn of the event loop ... */
  lemma StepKeepsInv(p: Program, stop: nat, now: nat, s: State)
    requires WellFormed(p) && Inv(p, stop, now, s) && |s.queue| > 0
    ensures now <= s.queue[0].time
    ensures Step(p, stop, s).Ok? ==> Inv(p, stop, s.queue[0].time, Step(p, stop, s).value)
  {
    hide NetsConsistent, Sorted, GatesInv, StoresInv, Popped, WellFormed, Project;
    var time := s.queue[0].time;
    assert s.queue[0] in s.queue;
    var m := Popped(p, s);
    var comps := AffectedFrom(p, s.nets, m.nets, 0);
    StepReady(p, stop, s);
    StepKeepsBase(p, stop, s);
    PoppedEffect(p, s);
    forall c: nat | c < |p.components| && c !in comps
      ensures SameInputs(p.components[c], s.nets, m.nets)
    {
      UnaffectedSeesTheSame(p, s, m, c);
    }
    EvaluationRestores(p, stop, now, time, s, m, comps);
  }

  /** What a batch stores: each affected component its evaluation on the nets the batch leaves, the others nothing. */
  lemma StepStores(p: Program, stop: nat, s: State, c: nat)
    requires Ready(p, s) && |s.queue| > 0 && c < |p.components|
    ensures var r := Step(p, stop, s);
            r.Ok? ==>
              r.value.states[c] == if Affected(p, s.nets, r.value.nets, c)
                                   then Evaluate(p.components[c], r.value.nets, s.states[c]).0
                                   else s.states[c]
  {
    hide Evaluate, Popped;
    StepReady(p, stop, s);
    var m := Popped(p, s);
    ListStores(p, stop, m, s.queue[0].time, AffectedFrom(p, s.nets, m.nets, 0), c);
  }

  /** ... and so by the whole loop. */
  lemma {:induction false} ProcessKeepsInv(p: Program, stop: nat, now: nat, s: State, bound: nat) returns (last: nat)
    requires WellFormed(p) && Inv(p, stop, now, s)
    ensures now <= last && (last == now || last <= bound)
    ensures Process(p, stop, s, bound).Ok? ==> Inv(p, stop, last, Process(p, stop, s, bound).value)
    decreases Measure(s)
  {
    last := now;
    if |s.queue| > 0 && s.queue[0].time <= bound {
      StepKeepsInv(p, stop, now, s);
      StepReady(p, stop, s);
      var next := Step(p, stop, s);
      if next.Ok? {
        last := ProcessKeepsInv(p, stop, s.queue[0].time, next.value, bound);
      }
    }
  }

  /** With nothing left to apply, the drivers of a storage element are at the levels it stores. */
  lemma NothingPendingShows(p: Program, stop: nat, now: nat, s: State, c: nat, o: nat)
    requires Inv(p, stop, now, s) && s.queue == [] && IsStore(p, c) && o < |p.components[c].outputs|
    requires c in s.lastEval ==> s.lastEval[c] + p.components[c].delay <= stop
    ensures Fits(p.components[c], s.states[c])
    ensures DriverValue(s.drivers, DriverKey(c, o)) == StoredLevel(p.components[c].primitive, s.states[c], o)
  {
    hide NetsConsistent, GateInv, Evaluate;
    assert StoreInv(p, stop, now, s, c);
    assert Shown(p, s, c);
    assert Projected(s, c, o) == DriverValue(s.drivers, DriverKey(c, o));
  }
}
