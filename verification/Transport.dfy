/**
 * The timing of the event loop: at every time of a run each driver shows what its component made of the nets as
 * they were one delay before, and each source its own wave.
 */
module Transport {
  import opened Wrappers
  import opened Logic
  import opened Circuit
  import opened Kernel
  import opened Sequential
  import opened Projection
  import opened Levelized
  import opened Moments
  import opened Storage
  import opened Session
  import opened Incremental

  /* ---- What a driver will show at a time ---- */

  /** The value of driver `d`, now `v`, after those events of `q` that are due by `t`. */
  function Until(v: LogicValue, q: seq<Event>, d: DriverKey, t: nat): LogicValue
    decreases |q|
  {
    if |q| == 0 then v else Until(if q[0].driver == d && q[0].time <= t then q[0].value else v, q[1..], d, t)
  }

  lemma {:induction false} UntilConcat(v: LogicValue, a: seq<Event>, b: seq<Event>, d: DriverKey, t: nat)
    ensures Until(v, a + b, d, t) == Until(Until(v, a, d, t), b, d, t)
    decreases |a|
  {
    if |a| == 0 {
      assert a + b == b;
    } else {
      assert (a + b)[1..] == a[1..] + b;
      UntilConcat(if a[0].driver == d && a[0].time <= t then a[0].value else v, a[1..], b, d, t);
    }
  }

  /** Nothing due means nothing changes ... */
  lemma {:induction false} UntilNone(v: LogicValue, q: seq<Event>, d: DriverKey, t: nat)
    requires forall e :: e in q && e.driver == d ==> e.time > t
    ensures Until(v, q, d, t) == v
  {
    if |q| > 0 {
      assert q[0] in q;
      UntilNone(v, q[1..], d, t);
    }
  }

  /** ... and everything due, that all is applied. */
  lemma {:induction false} UntilAll(v: LogicValue, q: seq<Event>, d: DriverKey, t: nat)
    requires forall e :: e in q && e.driver == d ==> e.time <= t
    ensures Until(v, q, d, t) == Project(v, q, d)
    decreases |q|
  {
    if |q| > 0 {
      assert q[0] in q;
      UntilAll(if q[0].driver == d then q[0].value else v, q[1..], d, t);
    }
  }

  lemma {:induction false} UntilInsertOther(v: LogicValue, q: seq<Event>, e: Event, d: DriverKey, t: nat)
    requires e.driver != d
    ensures Until(v, Insert(q, e), d, t) == Until(v, q, d, t)
    decreases |q|
  {
    if |q| > 0 {
      if Less(e, q[0]) {
        assert ([e] + q)[1..] == q;
      } else {
        UntilInsertOther(if q[0].driver == d && q[0].time <= t then q[0].value else v, q[1..], e, d, t);
      }
    }
  }

  /** An event behind every pending event of its driver decides the times from its own on, and only those. */
  lemma {:induction false} UntilInsertLast(v: LogicValue, q: seq<Event>, e: Event, t: nat)
    requires Sorted(q) && forall x :: x in q && x.driver == e.driver ==> Less(x, e)
    ensures Until(v, Insert(q, e), e.driver, t) == if e.time <= t then e.value else Until(v, q, e.driver, t)
    decreases |q|
  {
    if |q| > 0 {
      if Less(e, q[0]) {
        assert ([e] + q)[1..] == q;
        forall i | 0 <= i < |q|
          ensures q[i].driver != e.driver
        {
          assert q[i] in q;
        }
        UntilNone(e.value, q, e.driver, t);
        UntilNone(v, q, e.driver, t);
      } else {
        UntilInsertLast(if q[0].driver == e.driver && q[0].time <= t then q[0].value else v, q[1..], e, t);
      }
    }
  }

  /** What driver `o` of `c` shows at `t`, as far as pending events tell. */
  function ShownAt(s: State, c: nat, o: nat, t: nat): LogicValue {
    Until(DriverValue(s.drivers, DriverKey(c, o)), s.queue, DriverKey(c, o), t)
  }

  /* ---- Evaluations ---- */

  lemma {:induction false} OutputsSpare(p: Program, stop: nat, s: State, time: nat, c: nat, o: nat,
                                        values: seq<LogicValue>, v: LogicValue, d: DriverKey, t: nat)
    requires c < |p.components| && Counted(s) && (d.component != c || d.output < o)
    ensures var r := ScheduleOutputs(p, stop, s, time, c, o, values);
            r.Ok? ==> Until(v, r.value.queue, d, t) == Until(v, s.queue, d, t)
    decreases |values| - o
  {
    if o < |values| && o < |p.components[c].outputs| {
      var at := time + p.components[c].delay;
      var next := if at <= stop then ScheduleOutput(s, at, c, o, values[o]) else Ok(s);
      if next.Ok? {
        UntilInsertOther(v, s.queue, Event(at, s.sequence, DriverKey(c, o), values[o]), d, t);
        OutputsSpare(p, stop, next.value, time, c, o + 1, values, v, d, t);
      }
    }
  }

  /** Output `j` takes its new value one delay after the evaluation, and keeps its old course until then. */
  lemma {:induction false} OutputsAppear(p: Program, stop: nat, s: State, time: nat, c: nat, o: nat,
                                         values: seq<LogicValue>, v: LogicValue, j: nat, t: nat)
    requires c < |p.components| && Counted(s) && Ordered(s) && t <= stop
    requires o <= j < |values| && j < |p.components[c].outputs|
    requires forall e :: e in s.queue && e.driver.component == c ==> e.time <= time + p.components[c].delay
    ensures var r := ScheduleOutputs(p, stop, s, time, c, o, values);
            r.Ok? ==>
              Until(v, r.value.queue, DriverKey(c, j), t)
                == if time + p.components[c].delay <= t then values[j] else Until(v, s.queue, DriverKey(c, j), t)
    decreases |values| - o
  {
    var at := time + p.components[c].delay;
    var next := if at <= stop then ScheduleOutput(s, at, c, o, values[o]) else Ok(s);
    if next.Ok? {
      var e := Event(at, s.sequence, DriverKey(c, o), values[o]);
      if at <= stop {
        ScheduleOrdered(s, at, c, o, values[o]);
      }
      if o == j {
        if at <= stop {
          UntilInsertLast(v, s.queue, e, t);
        }
        OutputsSpare(p, stop, next.value, time, c, o + 1, values, v, DriverKey(c, j), t);
      } else {
        UntilInsertOther(v, s.queue, e, DriverKey(c, j), t);
        OutputsAppear(p, stop, next.value, time, c, o + 1, values, v, j, t);
      }
    }
  }

  lemma OneSpares(p: Program, stop: nat, s: State, time: nat, first: nat, c: nat, o: nat, t: nat)
    requires Shaped(p, s) && first < |p.components| && c != first
    ensures var r := EvaluateOne(p, stop, s, time, first); r.Ok? ==> ShownAt(r.value, c, o, t) == ShownAt(s, c, o, t)
  {
    var (rs, out) := Evaluate(p.components[first], s.nets, s.states[first]);
    hide Evaluate;
    if out.Some? {
      var updated := s.(states := s.states[first := rs], lastEval := s.lastEval[first := time]);
      OutputsSpare(p, stop, updated, time, first, 0, out.value, DriverValue(s.drivers, DriverKey(c, o)),
                   DriverKey(c, o), t);
    }
  }

  lemma {:induction false} ListSpares(p: Program, stop: nat, s: State, time: nat, comps: seq<nat>, c: nat, o: nat,
                                      t: nat)
    requires Shaped(p, s) && Listed(p, comps) && c !in comps
    ensures var r := EvaluateList(p, stop, s, time, comps); r.Ok? ==> ShownAt(r.value, c, o, t) == ShownAt(s, c, o, t)
    decreases |comps|
  {
    hide EvaluateOne, ShownAt;
    if |comps| > 0 {
      OneSpares(p, stop, s, time, comps[0], c, o, t);
      var next := EvaluateOne(p, stop, s, time, comps[0]);
      if next.Ok? {
        ListSpares(p, stop, next.value, time, comps[1..], c, o, t);
      }
    }
  }

  lemma OneAppears(p: Program, stop: nat, s: State, time: nat, c: nat, o: nat, t: nat)
    requires Shaped(p, s) && Ordered(s) && (IsGate(p, c) || IsStore(p, c)) && t <= stop
    requires forall e :: e in s.queue && e.driver.component == c ==> e.time <= time + p.components[c].delay
    ensures var r := EvaluateOne(p, stop, s, time, c);
            var out := Evaluate(p.components[c], s.nets, s.states[c]).1;
            r.Ok? && out.Some? && o < |out.value| && o < |p.components[c].outputs| ==>
              ShownAt(r.value, c, o, t)
                == if time + p.components[c].delay <= t then out.value[o] else ShownAt(s, c, o, t)
  {
    hide Sorted, ScheduleOutputs;
    var (rs, out) := Evaluate(p.components[c], s.nets, s.states[c]);
    hide Evaluate;
    if out.Some? && o < |out.value| && o < |p.components[c].outputs| {
      var updated := s.(states := s.states[c := rs], lastEval := s.lastEval[c := time]);
      OutputsAppear(p, stop, updated, time, c, 0, out.value, DriverValue(s.drivers, DriverKey(c, o)), o, t);
    }
  }

  /** After a list of evaluations: the new output from one delay later on, the old course until then. */
  lemma {:induction false} ListAppears(p: Program, stop: nat, s: State, time: nat, comps: seq<nat>, c: nat, o: nat,
                                       t: nat)
    requires Shaped(p, s) && Ordered(s) && Listed(p, comps) && c in comps && (IsGate(p, c) || IsStore(p, c))
    requires t <= stop
    requires forall e :: e in s.queue && e.driver.component == c ==> e.time <= time + p.components[c].delay
    ensures var r := EvaluateList(p, stop, s, time, comps);
            var out := Evaluate(p.components[c], s.nets, s.states[c]).1;
            r.Ok? && out.Some? && o < |out.value| && o < |p.components[c].outputs| ==>
              ShownAt(r.value, c, o, t)
                == if time + p.components[c].delay <= t then out.value[o] else ShownAt(s, c, o, t)
    decreases |comps|
  {
    hide Evaluate, Sorted, EvaluateOne, ShownAt, IsGate, IsStore;
    var next := EvaluateOne(p, stop, s, time, comps[0]);
    if next.Ok? {
      OneOrdered(p, stop, s, time, comps[0]);
      OneStores(p, stop, s, time, comps[0], c);
      EvaluateIsIdempotent(p.components[c], s.nets, s.states[c]);
      if comps[0] == c {
        OneAppears(p, stop, s, time, c, o, t);
      } else {
        OneSpares(p, stop, s, time, comps[0], c, o, t);
      }
      if c in comps[1..] {
        ListAppears(p, stop, next.value, time, comps[1..], c, o, t);
      } else {
        ListSpares(p, stop, next.value, time, comps[1..], c, o, t);
      }
    }
  }

  /** Popping a batch does not change what is shown from its time on. */
  lemma PoppedShows(p: Program, s: State, c: nat, o: nat, t: nat)
    requires WellFormed(p) && Ready(p, s) && Ordered(s) && |s.queue| > 0 && s.queue[0].time <= t
    ensures ShownAt(Popped(p, s), c, o, t) == ShownAt(s, c, o, t)
  {
    hide WellFormed, Sorted, NetsAfter;
    PoppedQueue(p, s);
    var d := DriverKey(c, o);
    var k := BatchLength(s.queue, s.queue[0].time);
    var batch, rest := s.queue[..k], s.queue[k..];
    ApplyEffect(p, s.drivers, {}, batch);
    UntilConcat(DriverValue(s.drivers, d), batch, rest, d, t);
    UntilAll(DriverValue(s.drivers, d), batch, d, t);
  }

  /* ---- Sources ---- */

  function Phase(high: nat, low: nat, value: LogicValue): nat {
    if value == One then high else low
  }

  /** The level of a periodic clock `d` after a moment at which it just took the level `value`. */
  function WaveLevel(high: nat, low: nat, value: LogicValue, d: nat): LogicValue
    requires high > 0 && low > 0
  {
    if d % (high + low) < Phase(high, low, value) then value else Flip(value)
  }

  /** What a source drives at time `t`. */
  function SourceWave(c: Component, t: nat): LogicValue {
    match c.primitive
    case Constant(value) => value
    case Clock(high, low, initial) => if high > 0 && low > 0 then WaveLevel(high, low, initial, t) else initial
    case _ => X
  }

  /** The value after the edges up to time `t`. */
  function LastBy(edges: seq<(nat, LogicValue)>, t: nat, value: LogicValue): LogicValue
    decreases |edges|
  {
    if |edges| == 0 || edges[0].0 > t then value else LastBy(edges[1..], t, edges[0].1)
  }

  /** Position `d` in a period of two phases `first` and `second`, seen from the end of the first. */
  lemma SecondPhase(first: nat, second: nat, d: nat)
    requires first > 0 && second > 0
    ensures d < first ==> d % (first + second) == d
    ensures d >= first ==> ((d - first) % (first + second) < second <==> first <= d % (first + second))
  {
    var period := first + second;
    var q, r := d / period, d % period;
    assert d == q * period + r;
    if d < first {
      DivModUnique(d, period, 0, d);
    } else if r >= first {
      DivModUnique(d - first, period, q, r - first);
    } else {
      EarlierPeriod(period, first, d, q, r);
      DivModUnique(d - first, period, q - 1, r + period - first);
    }
  }

  lemma EarlierPeriod(period: nat, first: nat, d: nat, q: nat, r: nat)
    requires d == q * period + r && r < first <= d && first < period
    ensures q > 0 && d - first == (q - 1) * period + (r + period - first)
  {
    assert (q - 1) * period == q * period - period;
  }

  lemma NextPhase(high: nat, low: nat, value: LogicValue, d: nat)
    requires high > 0 && low > 0 && value.IsKnown()
    ensures d < Phase(high, low, value) ==> WaveLevel(high, low, value, d) == value
    ensures d >= Phase(high, low, value) ==>
              WaveLevel(high, low, value, d) == WaveLevel(high, low, Flip(value), d - Phase(high, low, value))
  {
    SecondPhase(Phase(high, low, value), Phase(high, low, Flip(value)), d);
  }

  /** The edges of a clock are those of a periodic wave: its level is known in closed form at every time of the run. */
  lemma {:induction false} EdgesAreAWave(stop: nat, high: nat, low: nat, time: nat, value: LogicValue, t: nat)
    requires high > 0 && low > 0 && value.IsKnown() && time <= t <= stop
    ensures LastBy(ClockEdges(stop, high, low, time, value), t, value) == WaveLevel(high, low, value, t - time)
    decreases stop - time
  {
    hide WaveLevel;
    var next := time + Phase(high, low, value);
    NextPhase(high, low, value, t - time);
    if time < stop && next <= stop && next <= t {
      EdgesAreAWave(stop, high, low, next, Flip(value), t);
    }
  }

  lemma {:induction false} EdgesShow(s: State, c: nat, edges: seq<(nat, LogicValue)>, stop: nat, time: nat,
                                     value: LogicValue, t: nat)
    requires Counted(s) && Ordered(s) && Edges(edges, stop, time, value)
    requires forall e :: e in s.queue && e.driver.component == c ==> e.time <= time
    ensures var r := ScheduleAll(s, c, edges);
            r.Ok? ==>
              Until(Z, r.value.queue, DriverKey(c, 0), t) == LastBy(edges, t, Until(Z, s.queue, DriverKey(c, 0), t))
    decreases |edges|
  {
    hide Until, Insert, Sorted;
    if |edges| > 0 {
      var (at, v) := edges[0];
      ScheduleOrdered(s, at, c, 0, v);
      var next := ScheduleOutput(s, at, c, 0, v);
      if next.Ok? {
        UntilInsertLast(Z, s.queue, Event(at, s.sequence, DriverKey(c, 0), v), t);
        EdgesShow(next.value, c, edges[1..], stop, at, v, t);
        if at > t {
          LaterEdges(edges, stop, time, value, t);
        }
      }
    }
  }

  /** Edges after one that is still to come are still to come. */
  lemma LaterEdges(edges: seq<(nat, LogicValue)>, stop: nat, time: nat, value: LogicValue, t: nat)
    requires |edges| > 0 && Edges(edges, stop, time, value) && edges[0].0 > t
    ensures forall v :: LastBy(edges[1..], t, v) == v
  {
  }

  lemma {:induction false} AllSpare(s: State, c: nat, events: seq<(nat, LogicValue)>, d: DriverKey, t: nat)
    requires Counted(s) && d.component != c
    ensures var r := ScheduleAll(s, c, events); r.Ok? ==> Until(Z, r.value.queue, d, t) == Until(Z, s.queue, d, t)
    decreases |events|
  {
    hide Until, Insert;
    if |events| > 0 {
      var next := ScheduleOutput(s, events[0].0, c, 0, events[0].1);
      if next.Ok? {
        UntilInsertOther(Z, s.queue, Event(events[0].0, s.sequence, DriverKey(c, 0), events[0].1), d, t);
        AllSpare(next.value, c, events[1..], d, t);
      }
    }
  }

  lemma {:induction false} EachSpares(s: State, c: nat, o: nat, values: seq<LogicValue>, d: DriverKey, t: nat)
    requires Counted(s) && d.component != c
    ensures var r := ScheduleEach(s, c, o, values); r.Ok? ==> Until(Z, r.value.queue, d, t) == Until(Z, s.queue, d, t)
    decreases |values| - o
  {
    hide Until, Insert;
    if o < |values| {
      var next := ScheduleOutput(s, 0, c, o, values[o]);
      if next.Ok? {
        UntilInsertOther(Z, s.queue, Event(0, s.sequence, DriverKey(c, o), values[o]), d, t);
        EachSpares(next.value, c, o + 1, values, d, t);
      }
    }
  }

  lemma StartOneSpares(p: Program, stop: nat, s: State, c: nat, d: DriverKey, t: nat)
    requires WellFormed(p) && Shaped(p, s) && c < |p.components| && d.component != c
    ensures var r := StartOne(p, stop, s, c); r.Ok? ==> Until(Z, r.value.queue, d, t) == Until(Z, s.queue, d, t)
  {
    hide Until, Insert, ClockEdges;
    var prim := p.components[c].primitive;
    if prim.Constant? {
      UntilInsertOther(Z, s.queue, Event(0, s.sequence, DriverKey(c, 0), prim.value), d, t);
    } else if prim.Clock? {
      UntilInsertOther(Z, s.queue, Event(0, s.sequence, DriverKey(c, 0), prim.initial), d, t);
      var next := ScheduleOutput(s, 0, c, 0, prim.initial);
      if next.Ok? {
        AllSpare(next.value, c, ClockEdges(stop, prim.high, prim.low, 0, prim.initial), d, t);
      }
    } else if prim.IsStateful() {
      EachSpares(s, c, 0, InitialOutputs(p.components[c], s.states[c]), d, t);
    }
  }

  lemma StartOneWaves(p: Program, stop: nat, s: State, c: nat, t: nat)
    requires WellFormed(p) && Shaped(p, s) && Ordered(s) && c < |p.components| && p.components[c].primitive.IsSource()
    requires (forall e :: e in s.queue ==> e.driver.component < c) && t <= stop
    ensures var r := StartOne(p, stop, s, c);
            r.Ok? ==> Until(Z, r.value.queue, DriverKey(c, 0), t) == SourceWave(p.components[c], t)
  {
    hide Until, Insert, ClockEdges, Sorted;
    var prim := p.components[c].primitive;
    var value := if prim.Constant? then prim.value else prim.initial;
    var next := ScheduleOutput(s, 0, c, 0, value);
    if next.Ok? {
      ScheduleOrdered(s, 0, c, 0, value);
      UntilInsertLast(Z, s.queue, Event(0, s.sequence, DriverKey(c, 0), value), t);
      if prim.Clock? && prim.initial.IsKnown() {
        ComponentIsWellFormed(p, c);
        ClockEdgesOrdered(stop, prim.high, prim.low, 0, prim.initial);
        EdgesShow(next.value, c, ClockEdges(stop, prim.high, prim.low, 0, prim.initial), stop, 0, prim.initial, t);
        EdgesAreAWave(stop, prim.high, prim.low, 0, prim.initial, t);
      }
    }
  }

  /** Every source among the components below `c` will follow its wave. */
  ghost predicate Waving(p: Program, stop: nat, s: State, c: nat) {
    forall k: nat, t: nat :: k < c && k < |p.components| && p.components[k].primitive.IsSource() && t <= stop ==>
      Until(Z, s.queue, DriverKey(k, 0), t) == SourceWave(p.components[k], t)
  }

  lemma StartOneKeepsWaving(p: Program, stop: nat, s: State, c: nat)
    requires WellFormed(p) && Shaped(p, s) && c < |p.components| && Ordered(s) && Waving(p, stop, s, c)
    requires forall e :: e in s.queue ==> e.driver.component < c
    ensures var r := StartOne(p, stop, s, c); r.Ok? ==> Waving(p, stop, r.value, c + 1)
  {
    hide WellFormed, StartOne, Until, Sorted, SourceWave;
    var r := StartOne(p, stop, s, c);
    if r.Ok? {
      forall k: nat, t: nat | k <= c && p.components[k].primitive.IsSource() && t <= stop
        ensures Until(Z, r.value.queue, DriverKey(k, 0), t) == SourceWave(p.components[k], t)
      {
        if k == c {
          StartOneWaves(p, stop, s, c, t);
        } else {
          StartOneSpares(p, stop, s, c, DriverKey(k, 0), t);
        }
      }
    }
  }

  lemma {:induction false} StartWaves(p: Program, stop: nat, s: State, c: nat)
    requires WellFormed(p) && Shaped(p, s) && c <= |p.components| && AsCompiled(p, s.states)
    requires StartedUpTo(p, stop, s, c) && Waving(p, stop, s, c)
    ensures var r := StartFrom(p, stop, s, c); r.Ok? ==> Waving(p, stop, r.value, |p.components|)
    decreases |p.components| - c
  {
    hide StartOne, StartFrom, WellFormed, AsCompiled, Shaped, Grew, Waving, Ordered;
    StartFromStep(p, stop, s, c);
    if c < |p.components| {
      StartedNext(p, stop, s, c);
      StartOneShape(p, stop, s, c);
      StartOneKeepsWaving(p, stop, s, c);
      var next := StartOne(p, stop, s, c);
      if next.Ok? {
        StartWaves(p, stop, next.value, c + 1);
      }
    }
  }

  /* ---- The course of a run ---- */

  /** An input of `c` was something other than X at or before time `t`. */
  ghost predicate Awake(c: Component, h: seq<Moment>, t: int) {
    exists i :: 0 <= i < |h| && h[i].time <= t && !InputsUnknown(c, h[i].nets)
  }

  ghost predicate MomentOk(p: Program, m: Moment) {
    && |m.nets| == |p.drivers| && |m.states| == |p.components|
    && forall c: nat :: IsStore(p, c) ==> Fits(p.components[c], m.states[c])
  }

  ghost predicate Course(p: Program, h: seq<Moment>, start: Moment) {
    MomentOk(p, start) && forall i :: 0 <= i < |h| ==> MomentOk(p, h[i])
  }

  lemma {:induction false} AsOfIsOk(p: Program, h: seq<Moment>, start: Moment, t: int)
    requires Course(p, h, start)
    ensures MomentOk(p, AsOf(h, start, t))
    decreases |h|
  {
    hide MomentOk;
    if |h| > 0 && h[|h| - 1].time > t {
      AsOfIsOk(p, h[..|h| - 1], start, t);
    }
  }

  /**
   * What driver `o` of `c` has to show at time `t`: a source its wave; a gate what it makes of the nets as they were
   * one delay before, floating as long as it has seen nothing; a storage element what it stored one delay before.
   */
  ghost function Expected(p: Program, h: seq<Moment>, start: Moment, c: nat, o: nat, t: nat): LogicValue
    requires WellFormed(p) && Course(p, h, start) && ValidKey(p, DriverKey(c, o))
  {
    var comp := p.components[c];
    var seen := t - comp.delay;
    AsOfIsOk(p, h, start, seen);
    assert WellFormedComponent(comp, |p.drivers|);
    if comp.primitive.IsSource() then SourceWave(comp, t)
    else if comp.primitive.IsCombinational() then
      if Awake(comp, h, seen) then CombOutputs(comp, AsOf(h, start, seen).nets)[o] else Z
    else
      assert IsStore(p, c);
      StoredLevel(comp.primitive, AsOf(h, start, seen).states[c], o)
  }

  /** Nets and states are those of the last moment. */
  ghost predicate Present(s: State, h: seq<Moment>, start: Moment, now: nat) {
    && (forall i :: 0 <= i < |h| ==> h[i].time <= now)
    && var last := if |h| == 0 then start else h[|h| - 1];
       s.nets == last.nets && s.states == last.states
  }

  ghost predicate ShownAsExpected(p: Program, stop: nat, now: nat, s: State, h: seq<Moment>, start: Moment)
    requires WellFormed(p) && Course(p, h, start)
  {
    forall c: nat, o: nat, t: nat :: ValidKey(p, DriverKey(c, o)) && now <= t <= stop ==>
      ShownAt(s, c, o, t) == Expected(p, h, start, c, o, t)
  }

  /** From `now` on, pending events will show every driver as expected. */
  ghost predicate Timed(p: Program, stop: nat, now: nat, s: State, h: seq<Moment>, start: Moment)
    requires WellFormed(p)
  {
    && Course(p, h, start) && Present(s, h, start, now) && (forall n :: 0 <= n < |start.nets| ==> start.nets[n] == X)
    && ShownAsExpected(p, stop, now, s, h, start)
  }

  lemma {:induction false} AsOfPresent(s: State, h: seq<Moment>, start: Moment, now: nat, t: int)
    requires Present(s, h, start, now) && now <= t
    ensures AsOf(h, start, t).nets == s.nets && AsOf(h, start, t).states == s.states
  {
  }

  lemma AwakeBefore(c: Component, h: seq<Moment>, m: Moment, t: int)
    ensures Awake(c, h + [m], t) <==> Awake(c, h, t) || (m.time <= t && !InputsUnknown(c, m.nets))
  {
    hide InputsUnknown;
    var more := h + [m];
    if Awake(c, h, t) {
      var i :| 0 <= i < |h| && h[i].time <= t && !InputsUnknown(c, h[i].nets);
      assert more[i] == h[i];
    }
    assert more[|h|] == m;
    if i :| 0 <= i < |more| && more[i].time <= t && !InputsUnknown(c, more[i].nets) {
      assert i < |h| ==> h[i] == more[i];
    }
  }

  lemma CourseGrows(p: Program, h: seq<Moment>, m: Moment, start: Moment)
    requires Course(p, h, start) && MomentOk(p, m)
    ensures Course(p, h + [m], start)
  {
    hide MomentOk;
  }

  /** Before one delay after the new moment, nothing else is expected; sources do not care at all. */
  lemma ExpectedBefore(p: Program, h: seq<Moment>, m: Moment, start: Moment, c: nat, o: nat, t: nat)
    requires WellFormed(p) && Course(p, h, start) && MomentOk(p, m) && ValidKey(p, DriverKey(c, o))
    requires t < m.time + p.components[c].delay || p.components[c].primitive.IsSource()
    ensures Course(p, h + [m], start)
    ensures Expected(p, h + [m], start, c, o, t) == Expected(p, h, start, c, o, t)
  {
    hide AsOf, Awake, MomentOk, Course, CombOutputs, StoredLevel;
    CourseGrows(p, h, m, start);
    AsOfBefore(h, m, start, t - p.components[c].delay);
    AwakeBefore(p.components[c], h, m, t - p.components[c].delay);
  }

  /** From then on, what the new moment yields. */
  lemma ExpectedAfter(p: Program, h: seq<Moment>, m: Moment, start: Moment, c: nat, o: nat, t: nat)
    requires WellFormed(p) && Course(p, h, start) && MomentOk(p, m) && ValidKey(p, DriverKey(c, o))
    requires m.time + p.components[c].delay <= t
    ensures Course(p, h + [m], start)
    ensures IsGate(p, c) ==>
              Expected(p, h + [m], start, c, o, t) ==
                if Awake(p.components[c], h + [m], t - p.components[c].delay)
                then CombOutputs(p.components[c], m.nets)[o] else Z
    ensures IsStore(p, c) ==>
              Expected(p, h + [m], start, c, o, t) == StoredLevel(p.components[c].primitive, m.states[c], o)
  {
    hide AsOf, Awake, Course;
    ComponentIsWellFormed(p, c);
    CourseGrows(p, h, m, start);
    AsOfBefore(h, m, start, t - p.components[c].delay);
  }

  /** Once the present nets say anything to a component, it is awake. */
  lemma AwakeNow(p: Program, s: State, h: seq<Moment>, start: Moment, now: nat, c: Component, t: int)
    requires Present(s, h, start, now) && now <= t && (forall n :: 0 <= n < |start.nets| ==> start.nets[n] == X)
    requires !InputsUnknown(c, s.nets)
    ensures Awake(c, h, t)
  {
    if |h| > 0 {
      assert h[|h| - 1].time <= t;
    }
  }

  /** What the evaluated outputs are. */
  lemma EvaluatedOutputs(p: Program, c: nat, nets: seq<LogicValue>, s: RuntimeState)
    requires WellFormed(p) && (IsGate(p, c) || (IsStore(p, c) && Fits(p.components[c], s)))
    ensures var (after, out) := Evaluate(p.components[c], nets, s);
            && out.Some? && |out.value| == |p.components[c].outputs|
            && (IsGate(p, c) ==> out.value == CombOutputs(p.components[c], nets))
            && (IsStore(p, c) ==>
                  && Fits(p.components[c], after)
                  && forall o :: 0 <= o < |out.value| ==>
                    out.value[o] == StoredLevel(p.components[c].primitive, after, o))
  {
    ComponentIsWellFormed(p, c);
    if IsStore(p, c) {
      OutputsShowStore(p.components[c], nets, s);
    }
  }

  /* ---- One batch, one write ---- */

  /** Components `comps` are evaluated at `time`, after the nets moved from those of `s` to those of `m`. */
  ghost predicate Moves(p: Program, stop: nat, now: nat, time: nat, s: State, m: State, comps: seq<nat>, next: State) {
    && WellFormed(p) && Shaped(p, s) && Shaped(p, m) && Shaped(p, next) && Ordered(m) && Listed(p, comps)
    && ValidEvents(p, s.queue) && Timely(p, now, s) && Carried(s, m) && now <= time
    && EvaluateList(p, stop, m, time, comps) == Ok(next) && next.nets == m.nets
    && OnlyTheMoved(p, s.nets, m.nets, comps) && SameFrom(s, m, time)
  }

  /** The list has every component with a changed input, no source, and none that sees nothing before and after. */
  ghost predicate OnlyTheMoved(p: Program, before: seq<LogicValue>, after: seq<LogicValue>, comps: seq<nat>) {
    && (forall c: nat :: c < |p.components| && c !in comps ==> SameInputs(p.components[c], before, after))
    && forall c: nat :: c in comps && c < |p.components| ==>
         && (IsGate(p, c) || IsStore(p, c) || p.components[c].outputs == [])
         && (!InputsUnknown(p.components[c], before) || !InputsUnknown(p.components[c], after))
  }

  /** From `time` on both show the same. */
  ghost predicate SameFrom(s: State, m: State, time: nat) {
    forall c: nat, o: nat, t: nat :: time <= t ==> ShownAt(m, c, o, t) == ShownAt(s, c, o, t)
  }

  function Made(time: nat, next: State): Moment {
    Moment(time, next.nets, next.states)
  }

  /** A component in the list shows its new output one delay later, and until then what it was to show. */
  lemma ListedShows(p: Program, stop: nat, now: nat, time: nat, s: State, m: State, comps: seq<nat>, next: State,
                    c: nat, o: nat, t: nat)
    requires Moves(p, stop, now, time, s, m, comps, next) && ValidKey(p, DriverKey(c, o)) && c in comps
    requires (IsGate(p, c) || (IsStore(p, c) && Fits(p.components[c], s.states[c]))) && time <= t <= stop
    ensures var out := Evaluate(p.components[c], next.nets, s.states[c]).1;
            && out.Some? && o < |out.value|
            && ShownAt(next, c, o, t) ==
                 if time + p.components[c].delay <= t then out.value[o] else ShownAt(s, c, o, t)
  {
    hide WellFormed, Evaluate, EvaluateList, ShownAt, Sorted, Timely, Carried, OnlyTheMoved;
    PendingWithinDelay(p, now, time, s, m, c);
    EvaluatedOutputs(p, c, next.nets, s.states[c]);
    CarriedStates(s, m);
    ListAppears(p, stop, m, time, comps, c, o, t);
  }

  lemma CarriedStates(s: State, m: State)
    requires Carried(s, m)
    ensures m.states == s.states && m.lastEval == s.lastEval
  {
  }

  /** What the list stores, and that it leaves the other components as they were. */
  lemma ListedStore(p: Program, stop: nat, now: nat, time: nat, s: State, m: State, comps: seq<nat>, next: State,
                    c: nat)
    requires Moves(p, stop, now, time, s, m, comps, next) && c < |p.components|
    ensures c in comps ==> next.states[c] == Evaluate(p.components[c], next.nets, s.states[c]).0
    ensures c !in comps ==>
              && next.states[c] == s.states[c]
              && (InputsUnknown(p.components[c], s.nets) <==> InputsUnknown(p.components[c], next.nets))
              && (IsGate(p, c) ==>
                    CombOutputs(p.components[c], s.nets) == CombOutputs(p.components[c], next.nets))
  {
    hide WellFormed, Evaluate, EvaluateList, Sorted, Timely, Carried, CombOutputs, InputsUnknown, SameFrom;
    CarriedStates(s, m);
    ListStores(p, stop, m, time, comps, c);
    if c !in comps {
      EvaluateDependsOnInputs(p.components[c], s.nets, m.nets, s.states[c]);
      SameIsUnknown(p.components[c], s.nets, m.nets);
    }
  }

  lemma SameIsUnknown(c: Component, before: seq<LogicValue>, after: seq<LogicValue>)
    requires SameInputs(c, before, after)
    ensures InputsUnknown(c, before) <==> InputsUnknown(c, after)
  {
  }

  lemma PresentFits(p: Program, s: State, h: seq<Moment>, start: Moment, now: nat, c: nat)
    requires Course(p, h, start) && Present(s, h, start, now) && c < |p.components|
    ensures |s.states| == |p.components| && |s.nets| == |p.drivers|
    ensures IsStore(p, c) ==> Fits(p.components[c], s.states[c])
  {
    hide Fits;
  }

  lemma MovedIsAwake(p: Program, s: State, next: State, h: seq<Moment>, start: Moment, now: nat, time: nat,
                     comps: seq<nat>, c: nat, t: int)
    requires Present(s, h, start, now) && (forall n :: 0 <= n < |start.nets| ==> start.nets[n] == X)
    requires now <= time <= t && c in comps && c < |p.components| && OnlyTheMoved(p, s.nets, next.nets, comps)
    ensures Awake(p.components[c], h + [Made(time, next)], t)
  {
    hide Awake, InputsUnknown, Present, SameInputs;
    AwakeBefore(p.components[c], h, Made(time, next), t);
    if !InputsUnknown(p.components[c], s.nets) {
      AwakeNow(p, s, h, start, now, p.components[c], t);
    }
  }

  /** The listed components then show what is expected ... */
  lemma ListedAsExpected(p: Program, stop: nat, now: nat, time: nat, s: State, m: State, comps: seq<nat>, next: State,
                         h: seq<Moment>, start: Moment, c: nat, o: nat, t: nat)
    requires Moves(p, stop, now, time, s, m, comps, next) && Timed(p, stop, now, s, h, start)
    requires MomentOk(p, Made(time, next)) && ValidKey(p, DriverKey(c, o)) && c in comps && time <= t <= stop
    ensures Course(p, h + [Made(time, next)], start)
    ensures ShownAt(next, c, o, t) == Expected(p, h + [Made(time, next)], start, c, o, t)
  {
    hide WellFormed, Evaluate, EvaluateList, ShownAt, Expected, AsOf, Awake, InputsUnknown, CombOutputs, StoredLevel;
    hide SameInputs, Carried, Sorted, Timely;
    var made, comp := Made(time, next), p.components[c];
    PresentFits(p, s, h, start, now, c);
    ListedShows(p, stop, now, time, s, m, comps, next, c, o, t);
    EvaluatedOutputs(p, c, next.nets, s.states[c]);
    CourseGrows(p, h, made, start);
    if time + comp.delay <= t {
      ExpectedAfter(p, h, made, start, c, o, t);
      MovedIsAwake(p, s, next, h, start, now, time, comps, c, t - comp.delay);
      ListedStore(p, stop, now, time, s, m, comps, next, c);
    } else {
      ExpectedBefore(p, h, made, start, c, o, t);
    }
  }

  /** ... and so do the others, for which there is nothing new. */
  lemma OthersAsExpected(p: Program, stop: nat, now: nat, time: nat, s: State, m: State, comps: seq<nat>, next: State,
                         h: seq<Moment>, start: Moment, c: nat, o: nat, t: nat)
    requires Moves(p, stop, now, time, s, m, comps, next) && Timed(p, stop, now, s, h, start)
    requires MomentOk(p, Made(time, next)) && ValidKey(p, DriverKey(c, o)) && c !in comps && time <= t <= stop
    ensures Course(p, h + [Made(time, next)], start)
    ensures ShownAt(next, c, o, t) == Expected(p, h + [Made(time, next)], start, c, o, t)
  {
    hide WellFormed, Evaluate, EvaluateList, ShownAt, Expected, AsOf, Awake, InputsUnknown, CombOutputs, StoredLevel;
    hide SameInputs, Carried, Sorted, Timely;
    var made, comp := Made(time, next), p.components[c];
    ListSpares(p, stop, m, time, comps, c, o, t);
    CourseGrows(p, h, made, start);
    if comp.primitive.IsSource() || t < time + comp.delay {
      ExpectedBefore(p, h, made, start, c, o, t);
    } else {
      ExpectedAfter(p, h, made, start, c, o, t);
      NothingNew(p, stop, now, time, s, m, comps, next, h, start, c, o, t);
    }
  }

  lemma NothingNew(p: Program, stop: nat, now: nat, time: nat, s: State, m: State, comps: seq<nat>, next: State,
                   h: seq<Moment>, start: Moment, c: nat, o: nat, t: nat)
    requires Moves(p, stop, now, time, s, m, comps, next) && Course(p, h, start) && Present(s, h, start, now)
    requires (forall n :: 0 <= n < |start.nets| ==> start.nets[n] == X) && MomentOk(p, Made(time, next))
    requires ValidKey(p, DriverKey(c, o)) && c !in comps && !p.components[c].primitive.IsSource()
    requires time + p.components[c].delay <= t
    ensures IsGate(p, c) || IsStore(p, c)
    ensures IsGate(p, c) ==>
              Expected(p, h, start, c, o, t) ==
                if Awake(p.components[c], h + [Made(time, next)], t - p.components[c].delay)
                then CombOutputs(p.components[c], next.nets)[o] else Z
    ensures IsStore(p, c) ==>
              Expected(p, h, start, c, o, t) == StoredLevel(p.components[c].primitive, next.states[c], o)
  {
    hide AsOf, Awake, Evaluate, EvaluateList, InputsUnknown, Sorted, CombOutputs, StoredLevel, SameInputs, SameFrom;
    hide Carried, Timely;
    ComponentIsWellFormed(p, c);
    var comp, seen := p.components[c], t - p.components[c].delay;
    AsOfPresent(s, h, start, now, seen);
    ListedStore(p, stop, now, time, s, m, comps, next, c);
    AwakeBefore(comp, h, Made(time, next), seen);
    if !InputsUnknown(comp, s.nets) {
      AwakeNow(p, s, h, start, now, comp, seen);
    }
  }

  lemma MovesTimed(p: Program, stop: nat, now: nat, time: nat, s: State, m: State, comps: seq<nat>, next: State,
                   h: seq<Moment>, start: Moment)
    requires Moves(p, stop, now, time, s, m, comps, next) && Timed(p, stop, now, s, h, start)
    requires MomentOk(p, Made(time, next))
    ensures Timed(p, stop, time, next, h + [Made(time, next)], start)
  {
    hide ShownAt, Expected, MomentOk, OnlyTheMoved, SameFrom, Carried, Timely, EvaluateList, Sorted;
    var made := Made(time, next);
    CourseGrows(p, h, made, start);
    forall c: nat, o: nat, t: nat | ValidKey(p, DriverKey(c, o)) && time <= t <= stop
      ensures ShownAt(next, c, o, t) == Expected(p, h + [made], start, c, o, t)
    {
      if c in comps {
        ListedAsExpected(p, stop, now, time, s, m, comps, next, h, start, c, o, t);
      } else {
        OthersAsExpected(p, stop, now, time, s, m, comps, next, h, start, c, o, t);
      }
    }
  }

  lemma InvMomentOk(p: Program, stop: nat, now: nat, s: State, time: nat)
    requires Inv(p, stop, now, s)
    ensures MomentOk(p, Made(time, s))
  {
    hide NetsConsistent, GatesInv, Ordered, Evaluate, Shown, UpToDate;
    forall c: nat | IsStore(p, c)
      ensures Fits(p.components[c], s.states[c])
    {
      assert StoreInv(p, stop, now, s, c);
    }
  }

  /** Whoever reads a net is a gate or a storage element, or drives nothing. */
  lemma ReaderKinds(p: Program, n: nat, c: nat)
    requires WellFormed(p) && n < |p.drivers| && c in p.dependents[n]
    ensures c < |p.components| && (IsGate(p, c) || IsStore(p, c) || p.components[c].outputs == [])
  {
    assert n in p.components[c].inputs.Values;
    ComponentIsWellFormed(p, c);
  }

  lemma AffectedAreMoved(p: Program, s: State, m: State)
    requires WellFormed(p) && Ready(p, s) && Shaped(p, m)
    ensures OnlyTheMoved(p, s.nets, m.nets, AffectedFrom(p, s.nets, m.nets, 0))
  {
    hide WellFormed, InputsUnknown, SameInputs;
    var comps := AffectedFrom(p, s.nets, m.nets, 0);
    forall c: nat | c < |p.components| && c !in comps
      ensures SameInputs(p.components[c], s.nets, m.nets)
    {
      UnaffectedSeesTheSame(p, s, m, c);
    }
    forall c: nat | c in comps
      ensures IsGate(p, c) || IsStore(p, c) || p.components[c].outputs == []
      ensures !InputsUnknown(p.components[c], s.nets) || !InputsUnknown(p.components[c], m.nets)
    {
      assert Affected(p, s.nets, m.nets, c);
      var n :| 0 <= n < |s.nets| && s.nets[n] != m.nets[n] && c in p.dependents[n];
      ReaderKinds(p, n, c);
      ChangedIsSeen(p, s.nets, m.nets, n, c);
    }
  }

  lemma StepMoves(p: Program, stop: nat, now: nat, s: State, next: State)
    requires WellFormed(p) && Inv(p, stop, now, s) && |s.queue| > 0 && Step(p, stop, s) == Ok(next)
    ensures Moves(p, stop, now, s.queue[0].time, s, Popped(p, s), AffectedFrom(p, s.nets, Popped(p, s).nets, 0), next)
  {
    hide WellFormed, NetsConsistent, GatesInv, StoresInv, Sorted, Project, ShownAt, OnlyTheMoved, EvaluateList;
    var time, m := s.queue[0].time, Popped(p, s);
    assert s.queue[0] in s.queue;
    StepReady(p, stop, s);
    PoppedEffect(p, s);
    ListNets(p, stop, m, time, AffectedFrom(p, s.nets, m.nets, 0));
    AffectedAreMoved(p, s, m);
    forall c: nat, o: nat, t: nat | time <= t
      ensures ShownAt(m, c, o, t) == ShownAt(s, c, o, t)
    {
      PoppedShows(p, s, c, o, t);
    }
  }

  lemma StepTimed(p: Program, stop: nat, now: nat, s: State, next: State, h: seq<Moment>, start: Moment)
    requires WellFormed(p) && Inv(p, stop, now, s) && |s.queue| > 0 && Step(p, stop, s) == Ok(next)
    requires Timed(p, stop, now, s, h, start)
    ensures now <= s.queue[0].time && Inv(p, stop, s.queue[0].time, next)
    ensures Timed(p, stop, s.queue[0].time, next, h + [Made(s.queue[0].time, next)], start)
  {
    hide WellFormed, Inv, Step, Timed, Moves, MomentOk;
    InvIsReady(p, stop, now, s);
    StepKeepsInv(p, stop, now, s);
    InvMomentOk(p, stop, s.queue[0].time, next, s.queue[0].time);
    StepMoves(p, stop, now, s, next);
    MovesTimed(p, stop, now, s.queue[0].time, s, Popped(p, s), AffectedFrom(p, s.nets, Popped(p, s).nets, 0), next, h,
               start);
  }

  /* ---- Whole runs ---- */

  lemma CompiledIsOk(p: Program)
    requires WellFormed(p)
    ensures MomentOk(p, Compiled(p)) && Course(p, [], Compiled(p))
  {
    forall c: nat | IsStore(p, c)
      ensures Fits(p.components[c], Compiled(p).states[c])
    {
      ComponentIsWellFormed(p, c);
    }
  }

  lemma StartFacts(p: Program, stop: nat, s: State)
    requires WellFormed(p) && Start(p, stop) == Ok(s)
    ensures s.nets == Compiled(p).nets && s.states == Compiled(p).states && forall d :: DriverValue(s.drivers, d) == Z
    ensures StartedUpTo(p, stop, s, |p.components|) && Waving(p, stop, s, |p.components|)
  {
    hide StartFrom, WellFormed, Until, SourceWave;
    AddedFrom(p, stop, EmptyState(p), 0);
    StartWaves(p, stop, EmptyState(p), 0);
    StartGrows(p, stop, EmptyState(p), 0);
  }

  lemma {:induction false} StartGrows(p: Program, stop: nat, s: State, c: nat)
    requires WellFormed(p) && Shaped(p, s) && c <= |p.components|
    ensures var r := StartFrom(p, stop, s, c);
            r.Ok? ==> r.value.nets == s.nets && r.value.drivers == s.drivers && r.value.states == s.states
    decreases |p.components| - c
  {
    hide StartOne, WellFormed;
    if c < |p.components| {
      var next := StartOne(p, stop, s, c);
      if next.Ok? {
        StartGrows(p, stop, next.value, c + 1);
      }
    }
  }

  lemma StartsAsExpected(p: Program, stop: nat, s: State, c: nat, o: nat, t: nat)
    requires WellFormed(p) && Start(p, stop) == Ok(s) && ValidKey(p, DriverKey(c, o)) && t <= stop
    ensures Course(p, [], Compiled(p)) && ShownAt(s, c, o, t) == Expected(p, [], Compiled(p), c, o, t)
  {
    hide StartFrom, Sorted, SourceWave, WellFormed, ClockEdges, Start;
    CompiledIsOk(p);
    StartFacts(p, stop, s);
    ComponentIsWellFormed(p, c);
    if IsGate(p, c) {
      UntilNone(Z, s.queue, DriverKey(c, o), t);
    } else if !p.components[c].primitive.IsSource() {
      assert IsStore(p, c);
      assert ShownAtStart(p, s, c) && PendingAtZero(s, c);
      UntilAll(Z, s.queue, DriverKey(c, o), t);
      hide StoredLevel;
    }
  }

  lemma TimedAtStart(p: Program, stop: nat, s: State)
    requires WellFormed(p) && Start(p, stop) == Ok(s)
    ensures Timed(p, stop, 0, s, [], Compiled(p))
  {
    hide Start, WellFormed, ShownAt, Expected, Waving, StartedUpTo;
    CompiledIsOk(p);
    StartFacts(p, stop, s);
    forall c: nat, o: nat, t: nat | ValidKey(p, DriverKey(c, o)) && t <= stop
      ensures ShownAt(s, c, o, t) == Expected(p, [], Compiled(p), c, o, t)
    {
      StartsAsExpected(p, stop, s, c, o, t);
    }
  }

  lemma {:induction false} ProcessTimed(p: Program, stop: nat, now: nat, s: State, bound: nat, h: seq<Moment>,
                                        start: Moment)
    returns (last: nat)
    requires WellFormed(p) && Inv(p, stop, now, s) && Timed(p, stop, now, s, h, start) && now <= bound
    ensures now <= last <= bound
    ensures Process(p, stop, s, bound).Ok? ==>
              var r := Process(p, stop, s, bound).value;
              Inv(p, stop, last, r) && Timed(p, stop, last, r, h + Batches(p, stop, s, bound), start)
    decreases Measure(s)
  {
    hide WellFormed, Timed, Step;
    last := now;
    InvIsReady(p, stop, now, s);
    if |s.queue| > 0 && s.queue[0].time <= bound {
      StepReady(p, stop, s);
      var next := Step(p, stop, s);
      if next.Ok? {
        StepTimed(p, stop, now, s, next.value, h, start);
        var made := Made(s.queue[0].time, next.value);
        last := ProcessTimed(p, stop, s.queue[0].time, next.value, bound, h + [made], start);
        assert h + [made] + Batches(p, stop, next.value, bound) == h + ([made] + Batches(p, stop, next.value, bound));
      }
    } else {
      assert h + [] == h;
    }
  }

  lemma InvIsReady(p: Program, stop: nat, now: nat, s: State)
    requires Inv(p, stop, now, s)
    ensures Ready(p, s)
  {
  }

  /**
   * At every time of every run, of any circuit: once everything due by then has been worked off, each driver shows
   * what the history of the nets demands of it, one delay later, and each net is its drivers resolved.
   */
  lemma DriversFollow(p: Program, stop: nat, time: nat)
    requires WellFormed(p) && Start(p, stop).Ok? && time <= stop
    requires (StartKeeps(p, stop); Process(p, stop, Start(p, stop).value, time).Ok?)
    ensures (StartKeeps(p, stop);
             var s := Start(p, stop).value;
             var (r, h) := (Process(p, stop, s, time).value, Batches(p, stop, s, time));
             && Course(p, h, Compiled(p)) && |r.nets| == |p.drivers|
             && (forall c: nat, o: nat :: ValidKey(p, DriverKey(c, o)) ==>
                   DriverValue(r.drivers, DriverKey(c, o)) == Expected(p, h, Compiled(p), c, o, time))
             && (forall n :: 0 <= n < |p.drivers| && |p.drivers[n]| > 0 ==> NetConsistent(p, r, n)))
  {
    hide WellFormed, Start, Process, Batches, Expected, SourcesProjected, UndrivenUnknown, GatesInv, StoresInv;
    var s := Start(p, stop).value;
    StartKeeps(p, stop);
    TimedAtStart(p, stop, s);
    var last := ProcessTimed(p, stop, 0, s, time, [], Compiled(p));
    var r, h := Process(p, stop, s, time).value, Batches(p, stop, s, time);
    assert [] + h == h;
    forall c: nat, o: nat | ValidKey(p, DriverKey(c, o))
      ensures DriverValue(r.drivers, DriverKey(c, o)) == Expected(p, h, Compiled(p), c, o, time)
    {
      assert ShownAt(r, c, o, time) == Expected(p, h, Compiled(p), c, o, time);
      NothingDueShows(r, c, o, time);
    }
  }

  lemma NothingDueShows(s: State, c: nat, o: nat, t: nat)
    requires Ordered(s) && (|s.queue| > 0 ==> s.queue[0].time > t)
    ensures ShownAt(s, c, o, t) == DriverValue(s.drivers, DriverKey(c, o))
  {
    forall e | e in s.queue
      ensures e.time > t
    {
      var i :| 0 <= i < |s.queue| && s.queue[i] == e;
      assert i > 0 ==> Less(s.queue[0], s.queue[i]);
    }
    UntilNone(DriverValue(s.drivers, DriverKey(c, o)), s.queue, DriverKey(c, o), t);
  }

  /* ---- Sources in sessions ---- */

  /** From `now` on, pending events will show every source's wave. */
  ghost predicate SourcesTimed(p: Program, stop: nat, now: nat, s: State) {
    forall c: nat, t: nat :: c < |p.components| && p.components[c].primitive.IsSource() && now <= t <= stop ==>
      ShownAt(s, c, 0, t) == SourceWave(p.components[c], t)
  }

  lemma ListSparesSources(p: Program, stop: nat, now: nat, s: State, time: nat, comps: seq<nat>)
    requires WellFormed(p) && Shaped(p, s) && Listed(p, comps) && SourcesTimed(p, stop, now, s)
    requires forall c: nat :: c in comps ==> !p.components[c].primitive.IsSource()
    ensures var r := EvaluateList(p, stop, s, time, comps); r.Ok? ==> SourcesTimed(p, stop, now, r.value)
  {
    hide EvaluateList, ShownAt, WellFormed, SourceWave;
    var r := EvaluateList(p, stop, s, time, comps);
    if r.Ok? {
      forall c: nat, t: nat | c < |p.components| && p.components[c].primitive.IsSource() && now <= t <= stop
        ensures ShownAt(r.value, c, 0, t) == SourceWave(p.components[c], t)
      {
        ListSpares(p, stop, s, time, comps, c, 0, t);
      }
    }
  }

  lemma ReadersAreNoSources(p: Program, n: nat, c: nat)
    requires WellFormed(p) && n < |p.drivers| && c in p.dependents[n]
    ensures c < |p.components| && !p.components[c].primitive.IsSource()
  {
    assert n in p.components[c].inputs.Values;
  }

  lemma StepSparesSources(p: Program, stop: nat, now: nat, s: State)
    requires WellFormed(p) && Base(p, stop, s) && |s.queue| > 0 && s.queue[0].time <= now
    requires SourcesTimed(p, stop, now, s)
    ensures Step(p, stop, s).Ok? ==> SourcesTimed(p, stop, now, Step(p, stop, s).value)
  {
    hide EvaluateList, ShownAt, WellFormed, SourceWave, NetsConsistent, Sorted, Popped;
    StepReady(p, stop, s);
    var m := Popped(p, s);
    var comps := AffectedFrom(p, s.nets, m.nets, 0);
    forall c: nat, t: nat | c < |p.components| && p.components[c].primitive.IsSource() && now <= t <= stop
      ensures ShownAt(m, c, 0, t) == SourceWave(p.components[c], t)
    {
      PoppedShows(p, s, c, 0, t);
    }
    forall c: nat | c in comps
      ensures !p.components[c].primitive.IsSource()
    {
      assert Affected(p, s.nets, m.nets, c);
      var n :| 0 <= n < |s.nets| && s.nets[n] != m.nets[n] && c in p.dependents[n];
      ReadersAreNoSources(p, n, c);
    }
    ListSparesSources(p, stop, now, m, s.queue[0].time, comps);
  }

  lemma {:induction false} ProcessSparesSources(p: Program, stop: nat, s: State, bound: nat)
    requires WellFormed(p) && Base(p, stop, s) && SourcesTimed(p, stop, bound, s)
    ensures Process(p, stop, s, bound).Ok? ==> SourcesTimed(p, stop, bound, Process(p, stop, s, bound).value)
    decreases Measure(s)
  {
    hide WellFormed, Step, SourcesTimed, NetsConsistent;
    if |s.queue| > 0 && s.queue[0].time <= bound {
      StepReady(p, stop, s);
      StepKeepsBase(p, stop, s);
      StepSparesSources(p, stop, bound, s);
      var next := Step(p, stop, s);
      if next.Ok? {
        ProcessSparesSources(p, stop, next.value, bound);
      }
    }
  }

  lemma OpSparesSources(p: Program, stop: nat, externals: set<nat>, current: nat, s: State, op: Op)
    requires WellFormed(p) && Base(p, stop, s) && Undriven(p, externals) && SourcesTimed(p, stop, Bound(current), s)
    ensures var r := Apply(p, stop, externals, current, s, op);
            r.Ok? ==> SourcesTimed(p, stop, Bound(r.value.0), r.value.1)
  {
    hide WellFormed, Process, ShownAt, SourceWave, NetsConsistent, EvaluateList, Sorted;
    match op {
      case AdvanceTo(target) =>
        if target >= current {
          ProcessSparesSources(p, stop, s, Bound(target));
        }
      case WriteNet(net, value) =>
        var r := Write(p, stop, externals, current, s, net, current, value);
        if r.Ok? && r.value.1 {
          var written := s.(nets := s.nets[net := value]);
          DependentsInRange(p, net);
          WrittenKeepsBase(p, stop, s, net, value);
          EvaluationKeepsBase(p, stop, written, current * FS_PER_PS, p.dependents[net]);
          forall c: nat | c in p.dependents[net]
            ensures !p.components[c].primitive.IsSource()
          {
            ReadersAreNoSources(p, net, c);
          }
          assert forall c: nat, t: nat :: ShownAt(written, c, 0, t) == ShownAt(s, c, 0, t) by {
            SameShown(s, written);
          }
          ListSparesSources(p, stop, Bound(current), written, current * FS_PER_PS, p.dependents[net]);
          ProcessSparesSources(p, stop, Written(p, stop, current, s, net, value).value, Bound(current));
        }
    }
  }

  lemma SameShown(s: State, t: State)
    requires t.queue == s.queue && t.drivers == s.drivers
    ensures forall c: nat, o: nat, at: nat :: ShownAt(t, c, o, at) == ShownAt(s, c, o, at)
  {
    hide Until;
  }

  lemma {:induction false} SessionSparesSources(p: Program, stop: nat, externals: set<nat>, current: nat, s: State,
                                                ops: seq<Op>)
    requires WellFormed(p) && Base(p, stop, s) && Ahead(current, s) && Undriven(p, externals)
    requires SourcesTimed(p, stop, Bound(current), s)
    ensures var r := ApplyAll(p, stop, externals, current, s, ops);
            r.Ok? ==> SourcesTimed(p, stop, Bound(r.value.0), r.value.1) && Ahead(r.value.0, r.value.1)
                      && Base(p, stop, r.value.1)
    decreases |ops|
  {
    hide WellFormed, Apply, SourcesTimed, NetsConsistent;
    if |ops| > 0 {
      OpSparesSources(p, stop, externals, current, s, ops[0]);
      SessionKeepsConsistency(p, stop, externals, current, s, [ops[0]]);
      var next := Apply(p, stop, externals, current, s, ops[0]);
      if next.Ok? {
        assert [ops[0]][1..] == [];
        assert ApplyAll(p, stop, externals, next.value.0, next.value.1, []) == Ok((next.value.0, next.value.1));
        SessionSparesSources(p, stop, externals, next.value.0, next.value.1, ops[1..]);
      }
    }
  }

  /**
   * Clocks and constants are on time in every session as well, whatever is advanced and written: half a picosecond
   * after the session's tick, each source drives the level its wave has then.
   */
  lemma SessionSourcesOnTime(p: Program, stop: nat, externals: set<nat>, ops: seq<Op>, c: nat)
    requires WellFormed(p) && Undriven(p, externals) && Start(p, stop).Ok?
    requires c < |p.components| && p.components[c].primitive.IsSource()
    ensures (StartKeeps(p, stop);
             var r := ApplyAll(p, stop, externals, 0, Start(p, stop).value, [AdvanceTo(0)] + ops);
             r.Ok? && Bound(r.value.0) <= stop ==>
               DriverValue(r.value.1.drivers, DriverKey(c, 0)) == SourceWave(p.components[c], Bound(r.value.0)))
  {
    hide WellFormed, Start, ApplyAll, Process, NetsConsistent, GatesInv, StoresInv, SourcesProjected, UndrivenUnknown;
    var s := Start(p, stop).value;
    StartKeeps(p, stop);
    SourcesTimedAtStart(p, stop, s);
    ProcessSparesSources(p, stop, s, Bound(0));
    ProcessAhead(p, stop, s, 0);
    OpeningOp(p, stop, externals, s, ops);
    var begun := Advance(p, stop, 0, s, 0);
    if begun.Ok? {
      SessionSparesSources(p, stop, externals, 0, begun.value, ops);
      var r := ApplyAll(p, stop, externals, 0, begun.value, ops);
      if r.Ok? && Bound(r.value.0) <= stop {
        NothingDueShows(r.value.1, c, 0, Bound(r.value.0));
      }
    }
  }

  lemma OpeningOp(p: Program, stop: nat, externals: set<nat>, s: State, ops: seq<Op>)
    requires WellFormed(p) && Ready(p, s)
    ensures var (r, begun) := (ApplyAll(p, stop, externals, 0, s, [AdvanceTo(0)] + ops), Advance(p, stop, 0, s, 0));
            if begun.Err? then r.Err? else r == ApplyAll(p, stop, externals, 0, begun.value, ops)
  {
    hide WellFormed, Process;
    assert ([AdvanceTo(0)] + ops)[1..] == ops;
  }

  lemma SourcesTimedAtStart(p: Program, stop: nat, s: State)
    requires WellFormed(p) && Start(p, stop) == Ok(s)
    ensures SourcesTimed(p, stop, 0, s) && SourcesTimed(p, stop, Bound(0), s)
  {
    hide WellFormed, Start, StartedUpTo, Until, SourceWave;
    StartFacts(p, stop, s);
  }

  /* ---- Sessions ---- */

  lemma WriteMoves(p: Program, stop: nat, current: nat, s: State, net: nat, value: LogicValue, next: State)
    requires WellFormed(p) && Inv(p, stop, current * FS_PER_PS, s) && net < |p.drivers| && p.drivers[net] == []
    requires Ready(p, s) && s.nets[net] != value && Written(p, stop, current, s, net, value) == Ok(next)
    ensures var time := current * FS_PER_PS;
            Moves(p, stop, time, time, s, s.(nets := s.nets[net := value]), p.dependents[net], next)
  {
    hide WellFormed, NetsConsistent, GatesInv, StoresInv, Sorted, Project, ShownAt, EvaluateList;
    var written := s.(nets := s.nets[net := value]);
    DependentsInRange(p, net);
    ListNets(p, stop, written, current * FS_PER_PS, p.dependents[net]);
    SameShown(s, written);
    WrittenAreMoved(p, s, net, value);
  }

  lemma WrittenAreMoved(p: Program, s: State, net: nat, value: LogicValue)
    requires WellFormed(p) && Shaped(p, s) && net < |p.drivers| && s.nets[net] != value
    ensures OnlyTheMoved(p, s.nets, s.nets[net := value], p.dependents[net])
  {
    hide InputsUnknown;
    forall c: nat | c in p.dependents[net]
      ensures c < |p.components| && (IsGate(p, c) || IsStore(p, c) || p.components[c].outputs == [])
      ensures !InputsUnknown(p.components[c], s.nets) || !InputsUnknown(p.components[c], s.nets[net := value])
    {
      ReaderKinds(p, net, c);
      ChangedIsSeen(p, s.nets, s.nets[net := value], net, c);
    }
    forall c: nat | c < |p.components| && c !in p.dependents[net]
      ensures SameInputs(p.components[c], s.nets, s.nets[net := value])
    {
      assert net !in p.components[c].inputs.Values;
    }
  }

  lemma WriteTimed(p: Program, stop: nat, current: nat, s: State, net: nat, value: LogicValue, next: State,
                   h: seq<Moment>, start: Moment)
    requires WellFormed(p) && Inv(p, stop, current * FS_PER_PS, s) && net < |p.drivers| && p.drivers[net] == []
    requires Ready(p, s) && s.nets[net] != value && Written(p, stop, current, s, net, value) == Ok(next)
    requires Timed(p, stop, current * FS_PER_PS, s, h, start)
    ensures Inv(p, stop, current * FS_PER_PS, next)
    ensures Timed(p, stop, current * FS_PER_PS, next, h + [Made(current * FS_PER_PS, next)], start)
  {
    hide WellFormed, Inv, Timed, Moves, MomentOk, Written;
    var time := current * FS_PER_PS;
    WrittenKeepsInv(p, stop, current, s, net, value);
    InvMomentOk(p, stop, time, next, time);
    WriteMoves(p, stop, current, s, net, value, next);
    MovesTimed(p, stop, time, time, s, s.(nets := s.nets[net := value]), p.dependents[net], next, h, start);
  }

  lemma TimedLater(p: Program, stop: nat, now: nat, later: nat, s: State, h: seq<Moment>, start: Moment)
    requires WellFormed(p) && Timed(p, stop, now, s, h, start) && now <= later
    ensures Timed(p, stop, later, s, h, start)
  {
    hide ShownAt, Expected, MomentOk;
  }

  lemma {:induction false} AdvanceTimed(p: Program, stop: nat, now: nat, current: nat, s: State, h: seq<Moment>,
                                        start: Moment)
    requires WellFormed(p) && Inv(p, stop, now, s) && Aligned(p, s) && now <= current * FS_PER_PS && Ready(p, s)
    requires Timed(p, stop, now, s, h, start)
    ensures var r := Process(p, stop, s, Bound(current));
            r.Ok? ==>
                Timed(p, stop, current * FS_PER_PS, r.value, h + Batches(p, stop, s, Bound(current)), start)
    decreases Measure(s)
  {
    hide WellFormed, Inv, Timed, Step, MomentOk, Ordered, EvaluateList, Popped;
    if |s.queue| > 0 && s.queue[0].time <= Bound(current) {
      var time := s.queue[0].time;
      assert s.queue[0] in s.queue;
      assert time <= current * FS_PER_PS;
      StepReady(p, stop, s);
      var next := Step(p, stop, s);
      if next.Ok? {
        StepTimed(p, stop, now, s, next.value, h, start);
        StepKeepsAligned(p, stop, now, s);
        var made := Made(time, next.value);
        AdvanceTimed(p, stop, time, current, next.value, h + [made], start);
        var rest := Batches(p, stop, next.value, Bound(current));
        assert h + [made] + rest == h + ([made] + rest);
      }
    } else {
      assert h + [] == h;
      TimedLater(p, stop, now, current * FS_PER_PS, s, h, start);
    }
  }

  lemma StepKeepsAligned(p: Program, stop: nat, now: nat, s: State)
    requires WellFormed(p) && Inv(p, stop, now, s) && Aligned(p, s) && |s.queue| > 0 && Ready(p, s)
    ensures Step(p, stop, s).Ok? ==> Aligned(p, Step(p, stop, s).value)
  {
    hide WellFormed, NetsConsistent, GatesInv, StoresInv, Sorted, EvaluateList;
    assert s.queue[0] in s.queue;
    PoppedEffect(p, s);
    EvaluationKeepsAligned(p, stop, Popped(p, s), s.queue[0].time, AffectedFrom(p, s.nets, Popped(p, s).nets, 0));
  }

  lemma OpTimed(p: Program, stop: nat, externals: set<nat>, current: nat, s: State, op: Op, h: seq<Moment>,
                start: Moment)
    requires WellFormed(p) && SessionInv(p, stop, current, s) && Undriven(p, externals) && Ready(p, s)
    requires Timed(p, stop, current * FS_PER_PS, s, h, start)
    ensures var r := Apply(p, stop, externals, current, s, op);
            r.Ok? ==> Timed(p, stop, r.value.0 * FS_PER_PS, r.value.1, h + OpMoments(p, stop, current, s, op), start)
  {
    hide WellFormed, Inv, Timed, Aligned, Process, Written, Batches;
    match op {
      case AdvanceTo(target) =>
        if target >= current {
          AdvanceTimed(p, stop, current * FS_PER_PS, target, s, h, start);
        }
      case WriteNet(net, value) =>
        assert h + [] == h;
        if Apply(p, stop, externals, current, s, op).Ok? && s.nets[net] != value {
          var evaluated := Written(p, stop, current, s, net, value).value;
          WriteTimed(p, stop, current, s, net, value, evaluated, h, start);
          InvIsOrdered(p, stop, current * FS_PER_PS, s);
          WrittenKeepsAligned(p, stop, current, s, net, value);
          var made := Made(current * FS_PER_PS, evaluated);
          AdvanceTimed(p, stop, current * FS_PER_PS, current, evaluated, h + [made], start);
          var rest := Batches(p, stop, evaluated, Bound(current));
          assert h + [made] + rest == h + ([made] + rest);
        }
    }
  }

  lemma InvIsOrdered(p: Program, stop: nat, now: nat, s: State)
    requires Inv(p, stop, now, s)
    ensures Ordered(s)
  {
  }

  lemma {:induction false} SessionTimed(p: Program, stop: nat, externals: set<nat>, current: nat, s: State,
                                        ops: seq<Op>, h: seq<Moment>, start: Moment)
    requires WellFormed(p) && SessionInv(p, stop, current, s) && Undriven(p, externals) && Ready(p, s)
    requires Timed(p, stop, current * FS_PER_PS, s, h, start)
    ensures var r := ApplyAll(p, stop, externals, current, s, ops);
            r.Ok? ==>
              Timed(p, stop, r.value.0 * FS_PER_PS, r.value.1,
                    h + SessionMoments(p, stop, externals, current, s, ops), start)
    decreases |ops|
  {
    hide WellFormed, SessionInv, Timed, Apply, OpMoments;
    if |ops| == 0 {
      assert h + [] == h;
    } else {
      OpTimed(p, stop, externals, current, s, ops[0], h, start);
      SessionKeepsProjection(p, stop, externals, current, s, [ops[0]]);
      OneOp(p, stop, externals, current, s, ops[0]);
      var next := Apply(p, stop, externals, current, s, ops[0]);
      if next.Ok? {
        var more := OpMoments(p, stop, current, s, ops[0]);
        SessionTimed(p, stop, externals, next.value.0, next.value.1, ops[1..], h + more, start);
        var rest := SessionMoments(p, stop, externals, next.value.0, next.value.1, ops[1..]);
        assert h + more + rest == h + (more + rest);
      }
    }
  }

  lemma OneOp(p: Program, stop: nat, externals: set<nat>, current: nat, s: State, op: Op)
    requires WellFormed(p) && Ready(p, s)
    ensures ApplyAll(p, stop, externals, current, s, [op]) == Apply(p, stop, externals, current, s, op)
  {
    hide WellFormed, Apply;
    var next := Apply(p, stop, externals, current, s, op);
    if next.Ok? {
      assert [op][1..] == [];
      assert ApplyAll(p, stop, externals, next.value.0, next.value.1, []) == Ok((next.value.0, next.value.1));
    }
  }

  /**
   * The same in sessions with whole-picosecond event times: after any advances and input writes, each driver shows
   * at the session's tick what the history of the nets, writes included, demands of it one delay later.
   */
  lemma SessionDriversFollow(p: Program, stop: nat, externals: set<nat>, ops: seq<Op>, c: nat, o: nat)
    requires WellFormed(p) && Undriven(p, externals) && Start(p, stop).Ok? && Aligned(p, Start(p, stop).value)
    requires ValidKey(p, DriverKey(c, o))
    ensures (StartKeeps(p, stop);
             var s := Start(p, stop).value;
             var all := [AdvanceTo(0)] + ops;
             var (r, h) := (ApplyAll(p, stop, externals, 0, s, all), SessionMoments(p, stop, externals, 0, s, all));
             r.Ok? && r.value.0 * FS_PER_PS <= stop ==>
               && Course(p, h, Compiled(p))
               && DriverValue(r.value.1.drivers, DriverKey(c, o))
               == Expected(p, h, Compiled(p), c, o, r.value.0 * FS_PER_PS))
  {
    hide WellFormed, Start, Process, Expected, SourcesProjected, UndrivenUnknown, GatesInv, StoresInv, Batches, Aligned;
    hide NetsConsistent, Advance;
    var s := Start(p, stop).value;
    StartKeeps(p, stop);
    TimedAtStart(p, stop, s);
    if Advance(p, stop, 0, s, 0).Ok? {
      OpeningMoments(p, stop, externals, s, ops);
    }
    OpeningOp(p, stop, externals, s, ops);
    AdvanceTimed(p, stop, 0, 0, s, [], Compiled(p));
    ProcessKeepsSession(p, stop, 0, 0, s);
    OpeningAdvance(p, stop, s);
    var begun := Advance(p, stop, 0, s, 0);
    if begun.Ok? {
      var first := [] + Batches(p, stop, s, Bound(0));
      assert first == Batches(p, stop, s, Bound(0));
      SessionTimed(p, stop, externals, 0, begun.value, ops, first, Compiled(p));
      SessionKeepsProjection(p, stop, externals, 0, begun.value, ops);
      var r := ApplyAll(p, stop, externals, 0, begun.value, ops);
      if r.Ok? && r.value.0 * FS_PER_PS <= stop {
        NothingDueShows(r.value.1, c, o, r.value.0 * FS_PER_PS);
      }
    }
  }

  lemma OpeningAdvance(p: Program, stop: nat, s: State)
    requires Ready(p, s)
    ensures Advance(p, stop, 0, s, 0) == Process(p, stop, s, Bound(0))
  {
  }

  lemma OpeningMoments(p: Program, stop: nat, externals: set<nat>, s: State, ops: seq<Op>)
    requires WellFormed(p) && Ready(p, s) && Advance(p, stop, 0, s, 0).Ok?
    ensures SessionMoments(p, stop, externals, 0, s, [AdvanceTo(0)] + ops)
         == Batches(p, stop, s, Bound(0)) + SessionMoments(p, stop, externals, 0, Advance(p, stop, 0, s, 0).value, ops)
  {
    hide WellFormed, Process, Batches;
    assert ([AdvanceTo(0)] + ops)[1..] == ops;
  }
}
