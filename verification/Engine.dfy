/** The batch engine: one loop over the event queue from start-up to the stop time. */
module Engine {
  import opened Wrappers
  import opened Logic
  import opened Circuit
  import opened Kernel
  import opened Projection
  import opened Levelized
  import opened Moments
  import Recorder

  /* ---- Transition histories ---- */

  type History = seq<(nat, LogicValue)>

  /** A transition at the time of the last one overwrites it; a repeated value is not recorded. */
  function PushTransition(h: History, time: nat, value: LogicValue): (r: History)
    ensures |r| > 0 && r[|r| - 1].1 == value
    ensures Rising(h, time) ==> Rising(r, time)
  {
    if |h| > 0 && h[|h| - 1].0 == time then h[..|h| - 1] + [(time, value)]
    else if |h| > 0 && h[|h| - 1].1 == value then h
    else h + [(time, value)]
  }

  /** Strictly rising times, none after `time`. */
  predicate Rising(h: History, time: nat) {
    && (forall i, j :: 0 <= i < j < |h| ==> h[i].0 < h[j].0)
    && (forall i :: 0 <= i < |h| ==> h[i].0 <= time)
  }

  /** Each history ends in the present value of its net. */
  ghost predicate Recorded(histories: seq<History>, nets: seq<LogicValue>, time: nat) {
    && |histories| == |nets|
    && forall n :: 0 <= n < |nets| ==>
         |histories[n]| > 0 && histories[n][|histories[n]| - 1].1 == nets[n] && Rising(histories[n], time)
  }

  lemma RecordedLater(histories: seq<History>, nets: seq<LogicValue>, time: nat, later: nat)
    requires Recorded(histories, nets, time) && time <= later
    ensures Recorded(histories, nets, later)
  {
  }

  /** Recording the new value of one net. */
  lemma RecordedPush(histories: seq<History>, nets: seq<LogicValue>, n: nat, time: nat, value: LogicValue)
    requires Recorded(histories, nets, time) && n < |nets|
    ensures Recorded(histories[n := PushTransition(histories[n], time, value)], nets[n := value], time)
  {
  }

  /** What a history says of time `t`: its last transition by then. */
  function At(h: History, t: nat): Option<LogicValue> {
    Recorder.Decode(h, t)
  }

  /** A history that goes on from `before` at `time` with the value `value`. */
  ghost predicate GoesOn(before: History, after: History, time: nat, value: LogicValue) {
    forall t: nat :: At(after, t) == if time <= t then Some(value) else At(before, t)
  }

  lemma PushGoesOn(h: History, time: nat, value: LogicValue)
    requires Rising(h, time)
    ensures GoesOn(h, PushTransition(h, time, value), time, value)
  {
    var n, r := |h|, PushTransition(h, time, value);
    if n > 0 && h[n - 1].0 == time {
      assert r[..n - 1] == h[..n - 1];
    } else if n > 0 && h[n - 1].1 == value {
    } else {
      assert r[..n] == h;
    }
  }

  /** A value pushed on top of one pushed at the same time replaces it. */
  lemma GoesOnTwice(before: History, between: History, after: History, time: nat, one: LogicValue, other: LogicValue)
    requires GoesOn(before, between, time, one) && GoesOn(between, after, time, other)
    ensures GoesOn(before, after, time, other)
  {
  }

  lemma LastGoesOn(h: History, time: nat)
    requires |h| > 0 && Rising(h, time)
    ensures GoesOn(h, h, time, h[|h| - 1].1)
  {
  }

  /** From `time` on every net has the value given; before, the histories are as they were. */
  ghost predicate AllGoOn(before: seq<History>, after: seq<History>, time: nat, nets: seq<LogicValue>) {
    |before| == |after| == |nets| && forall n :: 0 <= n < |nets| ==> GoesOn(before[n], after[n], time, nets[n])
  }

  lemma RecordedGoOn(histories: seq<History>, nets: seq<LogicValue>, last: nat, time: nat)
    requires Recorded(histories, nets, last) && last <= time
    ensures AllGoOn(histories, histories, time, nets)
  {
    hide GoesOn;
    forall n | 0 <= n < |nets|
      ensures GoesOn(histories[n], histories[n], time, nets[n])
    {
      LastGoesOn(histories[n], time);
    }
  }

  lemma PushedGoOn(before: seq<History>, histories: seq<History>, nets: seq<LogicValue>, n: nat, time: nat,
                   value: LogicValue)
    requires AllGoOn(before, histories, time, nets) && n < |nets| && Rising(histories[n], time)
    ensures AllGoOn(before, histories[n := PushTransition(histories[n], time, value)], time, nets[n := value])
  {
    hide GoesOn, PushTransition, Rising;
    PushGoesOn(histories[n], time, value);
    GoesOnTwice(before[n], histories[n], PushTransition(histories[n], time, value), time, nets[n], value);
  }

  /** The history of net `n` says of time `t` what the course of the run has it be. */
  ghost predicate ShowsAt(histories: seq<History>, h: seq<Moment>, start: Moment, n: nat, t: nat)
    requires n < |histories|
  {
    n < |AsOf(h, start, t).nets| && At(histories[n], t) == Some(AsOf(h, start, t).nets[n])
  }

  ghost predicate Shows(histories: seq<History>, h: seq<Moment>, start: Moment) {
    forall n: nat, t: nat :: n < |histories| ==> ShowsAt(histories, h, start, n, t)
  }

  lemma ShowsMore(before: seq<History>, after: seq<History>, h: seq<Moment>, m: Moment, start: Moment)
    requires Shows(before, h, start) && AllGoOn(before, after, m.time, m.nets)
    ensures Shows(after, h + [m], start)
  {
    hide At, AsOf;
    forall n: nat, t: nat | n < |after|
      ensures ShowsAt(after, h + [m], start, n, t)
    {
      AsOfBefore(h, m, start, t);
      assert GoesOn(before[n], after[n], m.time, m.nets[n]);
      assert ShowsAt(before, h, start, n, t);
    }
  }

  lemma InitiallyShown(p: Program)
    ensures Shows(InitialHistories(|p.drivers|), [], Compiled(p))
  {
    forall n: nat, t: nat | n < |p.drivers|
      ensures ShowsAt(InitialHistories(|p.drivers|), [], Compiled(p), n, t)
    {
      assert InitialHistories(|p.drivers|)[n] == [(0, X)];
    }
  }

  function InitialHistories(n: nat): seq<History> {
    seq(n, _ => [(0, X)])
  }

  const APPROX_TRANSITION_BYTES: nat := 24

  function TotalTransitions(histories: seq<History>): nat {
    if |histories| == 0 then 0
    else TotalTransitions(histories[..|histories| - 1]) + |histories[|histories| - 1]|
  }

  /** Zero means no limit. */
  predicate WithinBudget(histories: seq<History>, maxOutputBytes: nat) {
    maxOutputBytes == 0 || TotalTransitions(histories) * APPROX_TRANSITION_BYTES <= maxOutputBytes
  }

  method CheckTransitionBudget(histories: seq<History>, maxOutputBytes: nat) returns (ok: bool)
    ensures ok == WithinBudget(histories, maxOutputBytes)
  {
    var transitions := 0;
    for i := 0 to |histories|
      invariant transitions == TotalTransitions(histories[..i])
    {
      assert histories[..i + 1][..i] == histories[..i];
      transitions := transitions + |histories[i]|;
    }
    assert histories[..|histories|] == histories;
    ok := maxOutputBytes == 0 || transitions * APPROX_TRANSITION_BYTES <= maxOutputBytes;
  }

  /* ---- Scheduling, on the queue and counters alone ---- */

  /** The queue and the two counters, passed together by every scheduling routine. */
  datatype Agenda = Agenda(queue: seq<Event>, sequence: nat, scheduled: nat)

  function WithAgenda(s: State, a: Agenda): State {
    s.(queue := a.queue, sequence := a.sequence, scheduled := a.scheduled)
  }

  method ScheduleOutputAt(a: Agenda, time: nat, c: nat, o: nat, value: LogicValue)
    returns (r: Result<Agenda, DigitalError>)
    ensures a.scheduled + 1 > MAX_EVENTS ==> r == Err(EventLimit)
    ensures a.scheduled + 1 <= MAX_EVENTS ==>
              r == Ok(Agenda(Insert(a.queue, Event(time, a.sequence, DriverKey(c, o), value)),
                             (a.sequence + 1) % U64_RANGE, a.scheduled + 1))
  {
    var scheduled := a.scheduled + 1;
    if scheduled > MAX_EVENTS {
      return Err(EventLimit);
    }
    var queue := Insert(a.queue, Event(time, a.sequence, DriverKey(c, o), value));
    return Ok(Agenda(queue, (a.sequence + 1) % U64_RANGE, scheduled));
  }

  /** `result` is the agenda of the outcome `spec`; only an interruption may come instead. */
  ghost predicate Delivers(s: State, result: Result<Agenda, DigitalError>, spec: Result<State, DigitalError>) {
    match result
    case Ok(a) => spec == Ok(WithAgenda(s, a))
    case Err(e) => e == Interrupted || spec == Err(e)
  }

  /** The first of a clock's remaining edges, if there is one. */
  lemma NextEdge(s: State, c: nat, stop: nat, high: nat, low: nat, time: nat, value: LogicValue)
    requires Counted(s) && high > 0 && low > 0
    ensures var next := time + (if value == One then high else low);
            var scheduled := ScheduleOutput(s, next, c, 0, Flip(value));
            ScheduleAll(s, c, ClockEdges(stop, high, low, time, value)) ==
              if time >= stop || next > stop then Ok(s)
              else if scheduled.Err? then Err(scheduled.error)
              else ScheduleAll(scheduled.value, c, ClockEdges(stop, high, low, next, Flip(value)))
  {
    hide Insert;
    var next := time + (if value == One then high else low);
    if time < stop && next <= stop {
      assert ClockEdges(stop, high, low, time, value)[1..] == ClockEdges(stop, high, low, next, Flip(value));
    }
  }

  method ScheduleClock(ghost p: Program, ghost s: State, agenda: Agenda, c: nat, stop: nat, high: nat, low: nat,
                       initial: LogicValue)
    returns (r: Result<Agenda, DigitalError>)
    requires WellFormed(p) && Shaped(p, s) && c < |p.components|
    requires p.components[c].primitive == Clock(high, low, initial)
    requires agenda == Agenda(s.queue, s.sequence, s.scheduled)
    ensures Delivers(s, r, StartOne(p, stop, s, c))
  {
    hide Insert, ScheduleAll, ClockEdges;
    if !initial.IsKnown() {
      return Err(InvalidClock);
    }
    var a :- ScheduleOutputAt(agenda, 0, c, 0, initial);
    var time, value := 0, initial;
    ghost var first := ScheduleOutput(s, 0, c, 0, initial).value;
    while time < stop
      invariant Counted(WithAgenda(s, a))
      invariant ScheduleAll(WithAgenda(s, a), c, ClockEdges(stop, high, low, time, value))
             == ScheduleAll(first, c, ClockEdges(stop, high, low, 0, initial))
      decreases stop - time
    {
      if * {
        return Err(Interrupted);
      }
      NextEdge(WithAgenda(s, a), c, stop, high, low, time, value);
      var next := time + (if value == One then high else low);
      if next > stop {
        break;
      }
      time := next;
      value := Flip(value);
      a :- ScheduleOutputAt(a, time, c, 0, value);
    }
    NextEdge(WithAgenda(s, a), c, stop, high, low, time, value);
    return Ok(a);
  }

  method ScheduleInitialOutputs(ghost s: State, agenda: Agenda, c: nat, values: seq<LogicValue>)
    returns (r: Result<Agenda, DigitalError>)
    requires Counted(s) && agenda == Agenda(s.queue, s.sequence, s.scheduled)
    ensures Delivers(s, r, ScheduleEach(s, c, 0, values))
  {
    var a := agenda;
    for o := 0 to |values|
      invariant Counted(WithAgenda(s, a))
      invariant ScheduleEach(WithAgenda(s, a), c, o, values) == ScheduleEach(s, c, 0, values)
    {
      a :- ScheduleOutputAt(a, 0, c, o, values[o]);
    }
    return Ok(a);
  }

  method ScheduleComponent(p: Program, stop: nat, ghost s: State, agenda: Agenda, c: nat, state: RuntimeState)
    returns (r: Result<Agenda, DigitalError>)
    requires WellFormed(p) && Shaped(p, s) && c < |p.components| && state == s.states[c]
    requires agenda == Agenda(s.queue, s.sequence, s.scheduled)
    ensures Delivers(s, r, StartOne(p, stop, s, c))
  {
    var comp := p.components[c];
    match comp.primitive {
      case Constant(value) => r := ScheduleOutputAt(agenda, 0, c, 0, value);
      case Clock(high, low, initial) => r := ScheduleClock(p, s, agenda, c, stop, high, low, initial);
      case _ =>
        if comp.primitive.IsStateful() {
          r := ScheduleInitialOutputs(s, agenda, c, InitialOutputs(comp, state));
        } else {
          r := Ok(agenda);
        }
    }
  }

  method ScheduleInitial(p: Program, stop: nat, ghost s: State, states: seq<RuntimeState>)
    returns (r: Result<Agenda, DigitalError>)
    requires WellFormed(p) && s == EmptyState(p) && states == s.states
    ensures Delivers(s, r, Start(p, stop))
  {
    var a := Agenda([], 0, 0);
    for c := 0 to |p.components|
      invariant Shaped(p, WithAgenda(s, a))
      invariant StartFrom(p, stop, WithAgenda(s, a), c) == Start(p, stop)
    {
      a :- ScheduleComponent(p, stop, WithAgenda(s, a), a, c, states[c]);
    }
    return Ok(a);
  }

  /* ---- One batch ---- */

  method PopBatch(pending: seq<Event>) returns (batch: seq<Event>, queue: seq<Event>)
    requires |pending| > 0
    ensures var k := BatchLength(pending, pending[0].time); batch == pending[..k] && queue == pending[k..]
  {
    var time := pending[0].time;
    batch, queue := [pending[0]], pending[1..];
    while |queue| > 0 && queue[0].time == time
      invariant batch + queue == pending && |batch| > 0
      invariant forall i :: 0 <= i < |batch| ==> pending[i].time == time
    {
      assert queue[0] == pending[|batch|];
      batch, queue := batch + [queue[0]], queue[1..];
    }
    assert |queue| > 0 ==> queue[0] == pending[|batch|];
    assert batch == pending[..|batch|] && queue == pending[|batch|..];
  }

  method ApplyBatch(p: Program, before: map<DriverKey, LogicValue>, batch: seq<Event>)
    returns (drivers: map<DriverKey, LogicValue>, affectedNets: set<nat>)
    requires ValidEvents(p, batch)
    ensures (drivers, affectedNets) == ApplyEvents(p, before, {}, batch)
  {
    drivers, affectedNets := before, {};
    for i := 0 to |batch|
      invariant ApplyEvents(p, drivers, affectedNets, batch[i..]) == ApplyEvents(p, before, {}, batch)
    {
      var event := batch[i];
      assert event in batch && batch[i..][1..] == batch[i + 1..];
      var previous := DriverValue(drivers, event.driver);
      drivers := drivers[event.driver := event.value];
      if previous != event.value {
        affectedNets := affectedNets + {NetOf(p, event.driver)};
      } else {
        assert affectedNets + {} == affectedNets;
      }
    }
  }

  /** `affected` is what the changes to nets below `n` call for. */
  ghost predicate AffectedBelow(p: Program, before: seq<LogicValue>, nets: seq<LogicValue>, n: nat, affected: set<nat>)
    requires n <= |before| == |nets| <= |p.dependents|
  {
    forall c :: c in affected <==> exists i :: 0 <= i < n && before[i] != nets[i] && c in p.dependents[i]
  }

  lemma AffectedNext(p: Program, before: seq<LogicValue>, nets: seq<LogicValue>, n: nat, value: LogicValue,
                     affected: set<nat>)
    requires n < |before| == |nets| <= |p.dependents| && AffectedBelow(p, before, nets, n, affected)
    ensures var more := if value != before[n] then set c | c in p.dependents[n] else {};
            AffectedBelow(p, before, nets[n := value], n + 1, affected + more)
  {
    var more := if value != before[n] then set c | c in p.dependents[n] else {};
    var after := nets[n := value];
    forall c
      ensures c in affected + more <==> exists i :: 0 <= i < n + 1 && before[i] != after[i] && c in p.dependents[i]
    {
      if c in affected {
        var i :| 0 <= i < n && before[i] != nets[i] && c in p.dependents[i];
        assert before[i] != after[i];
      }
      if i :| 0 <= i < n + 1 && before[i] != after[i] && c in p.dependents[i] {
        assert i < n ==> before[i] != nets[i];
      }
    }
  }

  /** Resolves the touched nets, records their transitions and collects the components to evaluate. */
  method UpdateNets(p: Program, before: seq<LogicValue>, drivers: map<DriverKey, LogicValue>, touched: set<nat>,
                    recorded: seq<History>, ghost last: nat, time: nat, maxOutputBytes: nat)
    returns (nets: seq<LogicValue>, histories: seq<History>, affected: set<nat>, ok: bool)
    requires |p.drivers| == |p.dependents| == |before| && last <= time && Recorded(recorded, before, last)
    ensures ok ==> nets == NetsAfter(p, before, drivers, touched) && Recorded(histories, nets, time)
    ensures ok ==> AllGoOn(recorded, histories, time, nets)
    ensures ok ==> forall c :: c in affected <==> Affected(p, before, nets, c)
    ensures ok ==> histories == recorded || WithinBudget(histories, maxOutputBytes)
    ensures !ok ==> maxOutputBytes > 0 && !WithinBudget(histories, maxOutputBytes)
  {
    hide AllGoOn, Resolve;
    RecordedLater(recorded, before, last, time);
    RecordedGoOn(recorded, before, last, time);
    nets, histories, affected := before, recorded, {};
    for n := 0 to |before|
      invariant |nets| == |before| && Recorded(histories, nets, time) && AllGoOn(recorded, histories, time, nets)
      invariant histories == recorded || WithinBudget(histories, maxOutputBytes)
      invariant forall i :: 0 <= i < n ==> nets[i] == NetAfter(p, before, drivers, touched, i)
      invariant forall i :: n <= i < |before| ==> nets[i] == before[i]
      invariant AffectedBelow(p, before, nets, n, affected)
    {
      AffectedNext(p, before, nets, n, NetAfter(p, before, drivers, touched, n), affected);
      assert nets[n := nets[n]] == nets && affected + {} == affected;
      if n in touched {
        var resolved := ResolveNet(p.drivers[n], drivers);
        if resolved != nets[n] {
          RecordedPush(histories, nets, n, time, resolved);
          PushedGoOn(recorded, histories, nets, n, time, resolved);
          nets := nets[n := resolved];
          histories := histories[n := PushTransition(histories[n], time, resolved)];
          ok := CheckTransitionBudget(histories, maxOutputBytes);
          if !ok {
            return;
          }
          affected := affected + set c | c in p.dependents[n];
        }
      }
    }
    ok := true;
  }

  /** Evaluates the affected components in ascending order and schedules their outputs. */
  method EvaluateAffected(p: Program, stop: nat, ghost s: State, ghost before: seq<LogicValue>, affected: set<nat>,
                          time: nat,
                          nets: seq<LogicValue>, entering: seq<RuntimeState>, agenda: Agenda)
    returns (r: Result<Agenda, DigitalError>, states: seq<RuntimeState>, ghost t: State)
    requires Ready(p, s) && s.nets == nets && s.states == entering && agenda == Agenda(s.queue, s.sequence, s.scheduled)
    requires |before| == |nets| && forall c :: c in affected <==> Affected(p, before, nets, c)
    ensures var spec := EvaluateList(p, stop, s, time, AffectedFrom(p, before, nets, 0));
            && (r.Ok? ==> spec == Ok(t) && t == WithAgenda(t, r.value) && t.states == states)
            && (r.Err? ==> spec == Err(r.error))
  {
    hide Evaluate, Affected;
    var a := agenda;
    states, t := entering, s;
    for c := 0 to |p.components|
      invariant Shaped(p, t) && t.nets == nets && t.states == states && a == Agenda(t.queue, t.sequence, t.scheduled)
      invariant EvaluateList(p, stop, t, time, AffectedFrom(p, before, nets, c))
             == EvaluateList(p, stop, s, time, AffectedFrom(p, before, nets, 0))
    {
      if c in affected {
        ghost var rest := AffectedFrom(p, before, nets, c + 1);
        assert AffectedFrom(p, before, nets, c) == [c] + rest && ([c] + rest)[1..] == rest;
        var (state, outputs) := Evaluate(p.components[c], nets, states[c]);
        states := states[c := state];
        ghost var one := EvaluateOne(p, stop, t, time, c);
        t := t.(states := states);
        if outputs.Some? {
          t := t.(lastEval := t.lastEval[c := time]);
          r := ScheduleValues(p, stop, t, a, time, c, outputs.value);
          if r.Err? {
            return;
          }
          a := r.value;
          t := WithAgenda(t, a);
        }
        assert one == Ok(t);
      } else {
        assert AffectedFrom(p, before, nets, c) == AffectedFrom(p, before, nets, c + 1);
      }
    }
    r := Ok(a);
  }

  method ScheduleValues(p: Program, stop: nat, ghost s: State, agenda: Agenda, time: nat, c: nat,
                        values: seq<LogicValue>)
    returns (r: Result<Agenda, DigitalError>)
    requires c < |p.components| && Counted(s) && agenda == Agenda(s.queue, s.sequence, s.scheduled)
    ensures match r
            case Ok(a) => ScheduleOutputs(p, stop, s, time, c, 0, values) == Ok(WithAgenda(s, a))
            case Err(e) => ScheduleOutputs(p, stop, s, time, c, 0, values) == Err(e)
  {
    hide Insert, Sorted;
    var a := agenda;
    for o := 0 to |values|
      invariant Counted(WithAgenda(s, a))
      invariant ScheduleOutputs(p, stop, WithAgenda(s, a), time, c, o, values)
          == ScheduleOutputs(p, stop, s, time, c, 0, values)
    {
      if o >= |p.components[c].outputs| {
        break;
      }
      var outputTime := time + p.components[c].delay;
      if outputTime <= stop {
        a :- ScheduleOutputAt(a, outputTime, c, o, values[o]);
      }
    }
    return Ok(a);
  }

  /* ---- The run ---- */

  datatype RunResult = RunResult(nets: seq<LogicValue>, histories: seq<History>)

  /**
   * The loop of `DigitalEngine::run`. On Ok the nets are those of `Simulate`; `first.time > stop` and the
   * processed-event limit are dead branches.
   */
  method Run(p: Program, stop: nat, maxOutputBytes: nat) returns (r: Result<RunResult, DigitalError>)
    requires WellFormed(p)
    ensures r.Ok? ==> Simulate(p, stop).Ok? && r.value.nets == Simulate(p, stop).value.nets
    ensures r.Ok? ==> Recorded(r.value.histories, r.value.nets, stop)
    ensures r.Ok? ==> (StartKeeps(p, stop);
                       |r.value.histories| == |p.drivers|
                       && Shows(r.value.histories, Batches(p, stop, Start(p, stop).value, stop), Compiled(p)))
    ensures r.Ok? ==>
              r.value.histories == InitialHistories(|p.drivers|) || WithinBudget(r.value.histories, maxOutputBytes)
    ensures r.Err? && r.error != Interrupted && r.error != OutputLimit ==> Simulate(p, stop) == Err(r.error)
    ensures r == Err(OutputLimit) ==> maxOutputBytes > 0
  {
    hide Process, Step, EvaluateList, Popped, AffectedFrom, ApplyEvents, NetsConsistent, Ordered, Recorded, NetsAfter;
    hide Batches, Shows, AllGoOn, Traced;
    if * {
      return Err(Interrupted);
    }
    ghost var empty := EmptyState(p);
    var nets := Repeat(X, |p.drivers|);
    var histories := InitialHistories(|p.drivers|);
    ghost var initial := histories;
    var drivers := map d | d in AllKeys(p) :: Z;
    var states := seq(|p.components|, c requires 0 <= c < |p.components| => InitialRuntimeState(p.components[c]));
    var agenda :- ScheduleInitial(p, stop, empty, states);
    var processed: nat := 0;

    ghost var s := WithAgenda(empty, agenda);
    ghost var time0: nat := 0;
    StartKeeps(p, stop);
    InitiallyRecorded(|p.drivers|);
    ghost var course: seq<Moment>, whole := [], Batches(p, stop, s, stop);
    InitiallyTraced(p, stop, s);
    while |agenda.queue| > 0
      invariant s == State(nets, drivers, states, agenda.queue, agenda.sequence, agenda.scheduled, processed,
                           s.lastEval)
      invariant Base(p, stop, s) && Process(p, stop, s, stop) == Simulate(p, stop)
      invariant time0 <= stop && Recorded(histories, nets, time0)
      invariant forall e :: e in agenda.queue ==> time0 <= e.time
      invariant histories == initial || WithinBudget(histories, maxOutputBytes)
      invariant Traced(p, stop, s, histories, course, whole)
      decreases Measure(s)
    {
      if * {
        return Err(Interrupted);
      }
      var first := agenda.queue[0];
      NeverLate(p, stop, s);
      if first.time > stop {
        assert false;
        break;
      }
      var time := first.time;
      var batch, rest := PopBatch(agenda.queue);
      processed := processed + |batch|;
      Turn(p, stop, s, time, batch, rest);
      if processed > MAX_EVENTS {
        assert false;
        return Err(EventLimit);
      }
      var touched, affected, ok, scheduled;
      drivers, touched := ApplyBatch(p, drivers, batch);
      ghost var shown := histories;
      nets, histories, affected, ok := UpdateNets(p, nets, drivers, touched, histories, time0, time, maxOutputBytes);
      if !ok {
        return Err(OutputLimit);
      }
      agenda := agenda.(queue := rest);
      ghost var popped, next := Popped(p, s), s;
      assert popped == State(nets, drivers, states, rest, agenda.sequence, agenda.scheduled, processed, s.lastEval);
      scheduled, states, next := EvaluateAffected(p, stop, popped, s.nets, affected, time, nets, states, agenda);
      if scheduled.Err? {
        return Err(scheduled.error);
      }
      agenda := scheduled.value;
      TracedNext(p, stop, s, next, shown, histories, course, whole);
      s, time0, course := next, time, course + [Moment(time, next.nets, next.states)];
    }
    NothingDue(p, stop, s, stop);
    TracedToTheEnd(p, stop, s, histories, course, whole);
    RecordedLater(histories, nets, time0, stop);
    return Ok(RunResult(nets, histories));
  }

  lemma OneMoreBatch(p: Program, stop: nat, s: State, after: State)
    requires Ready(p, s) && |s.queue| > 0 && s.queue[0].time <= stop
    requires EvaluateList(p, stop, Popped(p, s), s.queue[0].time, AffectedFrom(p, s.nets, Popped(p, s).nets, 0))
          == Ok(after)
    ensures Ready(p, after)
    ensures Batches(p, stop, s, stop)
         == [Moment(s.queue[0].time, after.nets, after.states)] + Batches(p, stop, after, stop)
  {
    hide EvaluateList, Popped, AffectedFrom;
    StepReady(p, stop, s);
    assert Step(p, stop, s) == Ok(after);
  }

  /** So far the histories show the course of the run, of which the rest is still to come. */
  ghost predicate Traced(p: Program, stop: nat, s: State, histories: seq<History>, course: seq<Moment>,
                         whole: seq<Moment>)
    requires Ready(p, s)
  {
    && course + Batches(p, stop, s, stop) == whole && |histories| == |p.drivers|
    && Shows(histories, course, Compiled(p))
  }

  lemma InitiallyTraced(p: Program, stop: nat, s: State)
    requires Ready(p, s)
    ensures Traced(p, stop, s, InitialHistories(|p.drivers|), [], Batches(p, stop, s, stop))
  {
    hide Shows, Batches;
    InitiallyShown(p);
  }

  lemma TracedNext(p: Program, stop: nat, s: State, after: State, shown: seq<History>, histories: seq<History>,
                   course: seq<Moment>, whole: seq<Moment>)
    requires Ready(p, s) && |s.queue| > 0 && s.queue[0].time <= stop && Traced(p, stop, s, shown, course, whole)
    requires EvaluateList(p, stop, Popped(p, s), s.queue[0].time, AffectedFrom(p, s.nets, Popped(p, s).nets, 0))
          == Ok(after)
    requires AllGoOn(shown, histories, s.queue[0].time, after.nets)
    ensures Ready(p, after)
    ensures Traced(p, stop, after, histories, course + [Moment(s.queue[0].time, after.nets, after.states)], whole)
  {
    hide EvaluateList, Popped, AffectedFrom, Shows, Batches;
    var made := Moment(s.queue[0].time, after.nets, after.states);
    OneMoreBatch(p, stop, s, after);
    ShowsMore(shown, histories, course, made, Compiled(p));
    var rest := Batches(p, stop, after, stop);
    assert course + ([made] + rest) == (course + [made]) + rest;
    assert |shown| == |histories|;
  }

  lemma TracedToTheEnd(p: Program, stop: nat, s: State, histories: seq<History>, course: seq<Moment>,
                       whole: seq<Moment>)
    requires Ready(p, s) && s.queue == [] && Traced(p, stop, s, histories, course, whole)
    ensures |histories| == |p.drivers| && Shows(histories, whole, Compiled(p))
  {
    assert course + [] == course;
  }

  lemma InitiallyRecorded(n: nat)
    ensures Recorded(InitialHistories(n), Repeat(X, n), 0)
  {
  }

  lemma NeverLate(p: Program, stop: nat, s: State)
    requires Base(p, stop, s)
    ensures |s.queue| > 0 ==> s.queue[0] in s.queue && s.queue[0].time <= stop
  {
  }

  /** What one turn of the loop amounts to. */
  lemma Turn(p: Program, stop: nat, s: State, time: nat, batch: seq<Event>, rest: seq<Event>)
    requires WellFormed(p) && Base(p, stop, s) && |s.queue| > 0 && s.queue[0].time == time <= stop
    requires var k := BatchLength(s.queue, time); batch == s.queue[..k] && rest == s.queue[k..]
    ensures var (drivers, touched) := ApplyEvents(p, s.drivers, {}, batch);
            Popped(p, s) == State(NetsAfter(p, s.nets, drivers, touched), drivers, s.states, rest, s.sequence,
                                  s.scheduled,
                                  s.processed + |batch|, s.lastEval)
    ensures Ready(p, Popped(p, s)) && Popped(p, s).processed <= MAX_EVENTS
    ensures match EvaluateList(p, stop, Popped(p, s), time, AffectedFrom(p, s.nets, Popped(p, s).nets, 0))
            case Err(e) => Process(p, stop, s, stop) == Err(e)
            case Ok(next) =>
              && Base(p, stop, next) && Process(p, stop, s, stop) == Process(p, stop, next, stop)
              && Measure(next) < Measure(s) && next.nets == Popped(p, s).nets && next.drivers == Popped(p, s).drivers
              && next.processed == Popped(p, s).processed
              && forall e :: e in next.queue ==> time <= e.time
  {
    hide NetsConsistent, EvaluateList, ApplyEvents, WellFormed;
    StepReady(p, stop, s);
    StepKeepsBase(p, stop, s);
    StepNotBefore(p, stop, s, time);
  }
}
