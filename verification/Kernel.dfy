/**
 * The event kernel as a function on states: the time-ordered queue, batches of simultaneous events,
 * and the loop over batches. Times are whole femtoseconds, counted from zero.
 */
module Kernel {
  import opened Wrappers
  import opened Logic
  import opened Circuit

  const MAX_EVENTS: nat := 1_000_000

  datatype DigitalError =
    | EventLimit
    | Interrupted        // cancelled or timed out
    | OutputLimit        // transition budget of the execution policy
    | InvalidClock
    | TimeInvalid
    | BindingInvalid

  datatype Event = Event(time: nat, sequence: nat, driver: DriverKey, value: LogicValue)

  /**
   * `lastEval` is a history variable: the time of each component's latest evaluation.
   * The queue is kept in the order the heap would pop it.
   */
  datatype State = State(
    nets: seq<LogicValue>,
    drivers: map<DriverKey, LogicValue>,
    states: seq<RuntimeState>,
    queue: seq<Event>,
    sequence: nat,
    scheduled: nat,
    processed: nat,
    lastEval: map<nat, nat>)

  /* ---- Queue ---- */

  predicate Less(a: Event, b: Event) {
    a.time < b.time || (a.time == b.time && a.sequence < b.sequence)
  }

  predicate Sorted(q: seq<Event>) {
    forall i, j :: 0 <= i < j < |q| ==> Less(q[i], q[j])
  }

  function Insert(q: seq<Event>, e: Event): (r: seq<Event>)
    ensures |r| == |q| + 1
    ensures forall x :: x in r <==> x == e || x in q
  {
    if |q| == 0 then [e]
    else if Less(e, q[0]) then [e] + q
    else
      assert q == [q[0]] + q[1..];
      [q[0]] + Insert(q[1..], e)
  }

  lemma {:induction false} InsertSorted(q: seq<Event>, e: Event)
    requires Sorted(q) && forall x :: x in q ==> x.sequence < e.sequence
    ensures Sorted(Insert(q, e))
  {
    if |q| > 0 && !Less(e, q[0]) {
      InsertSorted(q[1..], e);
      var r := Insert(q[1..], e);
      forall i | 0 <= i < |r|
        ensures Less(q[0], r[i])
      {
        assert r[i] in r;
      }
    }
  }

  /** How many events at the front of the queue happen at time `t`. */
  function BatchLength(q: seq<Event>, t: nat): (r: nat)
    ensures r <= |q|
    ensures forall i :: 0 <= i < r ==> q[i].time == t
    ensures r < |q| ==> q[r].time != t
  {
    if |q| > 0 && q[0].time == t then 1 + BatchLength(q[1..], t) else 0
  }

  /* ---- Scheduling ---- */

  /** The bookkeeping every step keeps; in particular the sequence counter never wraps. */
  predicate Counted(s: State) {
    s.scheduled <= MAX_EVENTS && s.sequence == s.scheduled == s.processed + |s.queue|
  }

  predicate Shaped(p: Program, s: State) {
    |s.nets| == |p.drivers| && |s.states| == |p.components| && Counted(s)
  }

  /** `t` is `s` with more events queued. */
  predicate Grew(s: State, t: State) {
    && t.nets == s.nets && t.drivers == s.drivers && t.processed == s.processed
    && |t.states| == |s.states| && t.scheduled - s.scheduled == |t.queue| - |s.queue| >= 0
    && Counted(t)
  }

  function ScheduleOutput(s: State, time: nat, c: nat, o: nat, value: LogicValue): (r: Result<State, DigitalError>)
    requires Counted(s)
    ensures r.Ok? ==> Grew(s, r.value) && r.value.scheduled == s.scheduled + 1
    ensures r.Err? <==> s.scheduled == MAX_EVENTS
    ensures r.Err? ==> r.error == EventLimit
  {
    if s.scheduled + 1 > MAX_EVENTS then Err(EventLimit)
    else
      Ok(s.(queue := Insert(s.queue, Event(time, s.sequence, DriverKey(c, o), value)),
            sequence := (s.sequence + 1) % U64_RANGE,
            scheduled := s.scheduled + 1))
  }

  /** Schedules outputs `o` and up; an output that would fall after `stop` is dropped. */
  function ScheduleOutputs(p: Program, stop: nat, s: State, time: nat, c: nat, o: nat, values: seq<LogicValue>)
    : (r: Result<State, DigitalError>)
    requires c < |p.components| && Counted(s)
    ensures r.Ok? ==> Grew(s, r.value)
    ensures r.Err? ==> r.error == EventLimit
    decreases |values| - o
  {
    if o >= |values| || o >= |p.components[c].outputs| then Ok(s)
    else
      var at := time + p.components[c].delay;
      var next :- if at <= stop then ScheduleOutput(s, at, c, o, values[o]) else Ok(s);
      ScheduleOutputs(p, stop, next, time, c, o + 1, values)
  }

  function EvaluateOne(p: Program, stop: nat, s: State, time: nat, c: nat): (r: Result<State, DigitalError>)
    requires Shaped(p, s) && c < |p.components|
    ensures r.Ok? ==> Grew(s, r.value)
    ensures r.Err? ==> r.error == EventLimit
  {
    var (rs, out) := Evaluate(p.components[c], s.nets, s.states[c]);
    var updated := s.(states := s.states[c := rs]);
    if out.None? then Ok(updated)
    else ScheduleOutputs(p, stop, updated.(lastEval := s.lastEval[c := time]), time, c, 0, out.value)
  }

  function EvaluateList(p: Program, stop: nat, s: State, time: nat, comps: seq<nat>): (r: Result<State, DigitalError>)
    requires Shaped(p, s) && forall i :: 0 <= i < |comps| ==> comps[i] < |p.components|
    ensures r.Ok? ==> Grew(s, r.value)
    ensures r.Err? ==> r.error == EventLimit
    decreases |comps|
  {
    if |comps| == 0 then Ok(s)
    else
      var next :- EvaluateOne(p, stop, s, time, comps[0]);
      EvaluateList(p, stop, next, time, comps[1..])
  }

  /* ---- One batch of simultaneous events ---- */

  function NetOf(p: Program, d: DriverKey): nat
    requires ValidKey(p, d)
  {
    p.components[d.component].outputs[d.output]
  }

  predicate ValidEvents(p: Program, q: seq<Event>) {
    forall e :: e in q ==> ValidKey(p, e.driver)
  }

  /** Applies the events in order; `touched` collects the nets one of whose drivers took a new value. */
  function ApplyEvents(p: Program, drivers: map<DriverKey, LogicValue>, touched: set<nat>, batch: seq<Event>)
    : (map<DriverKey, LogicValue>, set<nat>)
    requires ValidEvents(p, batch)
    decreases |batch|
  {
    if |batch| == 0 then (drivers, touched)
    else
      var e := batch[0];
      var more := if DriverValue(drivers, e.driver) != e.value then {NetOf(p, e.driver)} else {};
      ApplyEvents(p, drivers[e.driver := e.value], touched + more, batch[1..])
  }

  function NetAfter(p: Program, nets: seq<LogicValue>, drivers: map<DriverKey, LogicValue>, touched: set<nat>, n: nat)
    : LogicValue
    requires n < |p.drivers| == |nets|
  {
    if n in touched then Resolve(ValuesOf(p.drivers[n], drivers)) else nets[n]
  }

  function NetsAfter(p: Program, nets: seq<LogicValue>, drivers: map<DriverKey, LogicValue>, touched: set<nat>)
    : (r: seq<LogicValue>)
    requires |p.drivers| == |nets|
    ensures |r| == |nets|
    ensures forall n :: 0 <= n < |nets| ==> r[n] == NetAfter(p, nets, drivers, touched, n)
  {
    seq(|nets|, n requires 0 <= n < |nets| => NetAfter(p, nets, drivers, touched, n))
  }

  predicate Affected(p: Program, before: seq<LogicValue>, after: seq<LogicValue>, c: nat)
    requires |before| == |after| <= |p.dependents|
  {
    exists n :: 0 <= n < |before| && before[n] != after[n] && c in p.dependents[n]
  }

  /** The affected components from `c` up, in ascending order. */
  function AffectedFrom(p: Program, before: seq<LogicValue>, after: seq<LogicValue>, c: nat): (r: seq<nat>)
    requires |before| == |after| <= |p.dependents| && c <= |p.components|
    ensures forall k :: k in r <==> c <= k < |p.components| && Affected(p, before, after, k)
    ensures forall i :: 0 <= i < |r| ==> r[i] < |p.components|
    decreases |p.components| - c
  {
    if c == |p.components| then []
    else (if Affected(p, before, after, c) then [c] else []) + AffectedFrom(p, before, after, c + 1)
  }

  predicate Ready(p: Program, s: State) {
    Shaped(p, s) && ValidEvents(p, s.queue) && |p.dependents| == |p.drivers|
  }

  /** The state once the earliest batch has been popped and its nets updated, before any evaluation. */
  function Popped(p: Program, s: State): (r: State)
    requires Ready(p, s) && |s.queue| > 0
    ensures Shaped(p, r) && |r.queue| < |s.queue|
    ensures r.scheduled == s.scheduled && r.states == s.states && r.lastEval == s.lastEval
  {
    var k := BatchLength(s.queue, s.queue[0].time);
    var (drivers, touched) := ApplyEvents(p, s.drivers, {}, s.queue[..k]);
    s.(queue := s.queue[k..], processed := s.processed + k, drivers := drivers,
       nets := NetsAfter(p, s.nets, drivers, touched))
  }

  /** One turn of the event loop. */
  function Step(p: Program, stop: nat, s: State): (r: Result<State, DigitalError>)
    requires Ready(p, s) && |s.queue| > 0
    ensures r.Ok? ==> Shaped(p, r.value) && Measure(r.value) < Measure(s)
    ensures r.Err? ==> r.error == EventLimit
  {
    var popped := Popped(p, s);
    if popped.processed > MAX_EVENTS then Err(EventLimit)
    else EvaluateList(p, stop, popped, s.queue[0].time, AffectedFrom(p, s.nets, popped.nets, 0))
  }

  /** Scheduling an event costs two and queues one, so zero-delay feedback cannot loop for ever. */
  function Measure(s: State): nat
    requires Counted(s)
  {
    2 * (MAX_EVENTS - s.scheduled) + |s.queue|
  }

  lemma {:induction false} ScheduledEventsValid(p: Program, stop: nat, s: State, time: nat, c: nat, o: nat,
                                                values: seq<LogicValue>)
    requires c < |p.components| && Counted(s) && ValidEvents(p, s.queue)
    ensures var r := ScheduleOutputs(p, stop, s, time, c, o, values); r.Ok? ==> ValidEvents(p, r.value.queue)
    decreases |values| - o
  {
    if o < |values| && o < |p.components[c].outputs| {
      var at := time + p.components[c].delay;
      var next := if at <= stop then ScheduleOutput(s, at, c, o, values[o]) else Ok(s);
      if next.Ok? {
        ScheduledEventsValid(p, stop, next.value, time, c, o + 1, values);
      }
    }
  }

  lemma {:induction false} EvaluatedEventsValid(p: Program, stop: nat, s: State, time: nat, comps: seq<nat>)
    requires Shaped(p, s) && ValidEvents(p, s.queue) && forall i :: 0 <= i < |comps| ==> comps[i] < |p.components|
    ensures var r := EvaluateList(p, stop, s, time, comps); r.Ok? ==> ValidEvents(p, r.value.queue)
    decreases |comps|
  {
    if |comps| > 0 {
      var c := comps[0];
      var (rs, out) := Evaluate(p.components[c], s.nets, s.states[c]);
      if out.Some? {
        ScheduledEventsValid(p, stop, s.(states := s.states[c := rs], lastEval := s.lastEval[c := time]),
                             time, c, 0, out.value);
      }
      var next := EvaluateOne(p, stop, s, time, c);
      if next.Ok? {
        EvaluatedEventsValid(p, stop, next.value, time, comps[1..]);
      }
    }
  }

  lemma StepReady(p: Program, stop: nat, s: State)
    requires Ready(p, s) && |s.queue| > 0
    ensures Popped(p, s).processed <= MAX_EVENTS
    ensures ValidEvents(p, Popped(p, s).queue)
    ensures Step(p, stop, s).Ok? ==> Ready(p, Step(p, stop, s).value)
  {
    var popped := Popped(p, s);
    EvaluatedEventsValid(p, stop, popped, s.queue[0].time, AffectedFrom(p, s.nets, popped.nets, 0));
  }

  /** The event loop: every batch at or before `bound`, in time order. */
  function Process(p: Program, stop: nat, s: State, bound: nat): (r: Result<State, DigitalError>)
    requires Ready(p, s)
    ensures r.Ok? ==> Ready(p, r.value) && (|r.value.queue| > 0 ==> r.value.queue[0].time > bound)
    ensures r.Err? ==> r.error == EventLimit
    decreases Measure(s)
  {
    if |s.queue| == 0 || s.queue[0].time > bound then Ok(s)
    else
      StepReady(p, stop, s);
      var next :- Step(p, stop, s);
      Process(p, stop, next, bound)
  }

  lemma NothingDue(p: Program, stop: nat, s: State, bound: nat)
    requires Ready(p, s) && (|s.queue| == 0 || s.queue[0].time > bound)
    ensures Process(p, stop, s, bound) == Ok(s)
  {
  }

  /* ---- Start-up: gates are not evaluated ---- */

  function AllKeys(p: Program): set<DriverKey> {
    set c, o | 0 <= c < |p.components| && 0 <= o < |p.components[c].outputs| :: DriverKey(c, o)
  }

  function EmptyState(p: Program): (s: State)
    ensures |p.dependents| == |p.drivers| ==> Ready(p, s)
  {
    State(Repeat(X, |p.drivers|), map d | d in AllKeys(p) :: Z,
          seq(|p.components|, c requires 0 <= c < |p.components| => InitialRuntimeState(p.components[c])),
          [], 0, 0, 0, map[])
  }

  function Flip(v: LogicValue): LogicValue {
    if v == One then Zero else One
  }

  /** The edges of a clock after `time`, where it has the value `value`. */
  function ClockEdges(stop: nat, high: nat, low: nat, time: nat, value: LogicValue): (r: seq<(nat, LogicValue)>)
    requires high > 0 && low > 0
    decreases stop - time
  {
    var next := time + (if value == One then high else low);
    if time >= stop || next > stop then []
    else [(next, Flip(value))] + ClockEdges(stop, high, low, next, Flip(value))
  }

  function ScheduleAll(s: State, c: nat, events: seq<(nat, LogicValue)>): (r: Result<State, DigitalError>)
    requires Counted(s)
    ensures r.Ok? ==> Grew(s, r.value) && r.value.states == s.states && r.value.lastEval == s.lastEval
    ensures r.Err? ==> r.error == EventLimit
    decreases |events|
  {
    if |events| == 0 then Ok(s)
    else
      var next :- ScheduleOutput(s, events[0].0, c, 0, events[0].1);
      ScheduleAll(next, c, events[1..])
  }

  function InitialOutputs(c: Component, s: RuntimeState): seq<LogicValue> {
    if c.primitive.IsVector() then s.bits else QOutputs(s.q, |c.outputs|)
  }

  function ScheduleEach(s: State, c: nat, o: nat, values: seq<LogicValue>): (r: Result<State, DigitalError>)
    requires Counted(s)
    ensures r.Ok? ==> Grew(s, r.value) && r.value.states == s.states && r.value.lastEval == s.lastEval
    ensures r.Err? ==> r.error == EventLimit
    decreases |values| - o
  {
    if o >= |values| then Ok(s)
    else
      var next :- ScheduleOutput(s, 0, c, o, values[o]);
      ScheduleEach(next, c, o + 1, values)
  }

  /** Start-up events of component `c`. */
  function StartOne(p: Program, stop: nat, s: State, c: nat): (r: Result<State, DigitalError>)
    requires WellFormed(p) && Shaped(p, s) && c < |p.components|
    ensures r.Ok? ==> Grew(s, r.value) && r.value.states == s.states && r.value.lastEval == s.lastEval
    ensures r.Err? ==> r.error == EventLimit || r.error == InvalidClock
  {
    match p.components[c].primitive
    case Constant(value) => ScheduleOutput(s, 0, c, 0, value)
    case Clock(high, low, initial) =>
      if !initial.IsKnown() then Err(InvalidClock)
      else
        var next :- ScheduleOutput(s, 0, c, 0, initial);
        ScheduleAll(next, c, ClockEdges(stop, high, low, 0, initial))
    case _ =>
      if p.components[c].primitive.IsStateful() then
        ScheduleEach(s, c, 0, InitialOutputs(p.components[c], s.states[c]))
      else Ok(s)
  }

  function StartFrom(p: Program, stop: nat, s: State, c: nat): (r: Result<State, DigitalError>)
    requires WellFormed(p) && Shaped(p, s) && c <= |p.components|
    ensures r.Ok? ==> Grew(s, r.value) && r.value.states == s.states && r.value.lastEval == s.lastEval
    ensures r.Err? ==> r.error == EventLimit || r.error == InvalidClock
    decreases |p.components| - c
  {
    if c == |p.components| then Ok(s)
    else
      var next :- StartOne(p, stop, s, c);
      StartFrom(p, stop, next, c + 1)
  }

  /** The state in which both the engine and a session begin. */
  function Start(p: Program, stop: nat): (r: Result<State, DigitalError>)
    requires WellFormed(p)
    ensures r.Ok? ==> Shaped(p, r.value)
  {
    StartFrom(p, stop, EmptyState(p), 0)
  }
}
