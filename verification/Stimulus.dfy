/** The stimulus table: event lists of several sources merged into rows of simultaneous states. */
module Stimulus {
  import opened Wrappers
  import opened Logic
  import opened Kernel
  import opened Levelized
  import Transport
  import Recorder

  type Events = seq<(nat, LogicValue)>

  datatype Row = Row(time: nat, states: seq<LogicValue>)

  datatype StimulusError = EventRows | InvalidClockValue

  predicate Nondecreasing(times: seq<nat>) {
    forall i, j :: 0 <= i < j < |times| ==> times[i] <= times[j]
  }

  predicate Increasing(times: seq<nat>) {
    forall i, j :: 0 <= i < j < |times| ==> times[i] < times[j]
  }

  /** A source's events begin at time zero and never go back. */
  predicate WellTimed(events: Events) {
    |events| > 0 && events[0].0 == 0 && forall i, j :: 0 <= i < j < |events| ==> events[i].0 <= events[j].0
  }

  /** Some source has an event at `t`. */
  ghost predicate Occurs(sources: seq<Events>, t: nat) {
    exists s, i :: 0 <= s < |sources| && 0 <= i < |sources[s]| && sources[s][i].0 == t
  }

  /** The state of a source at time `t`: its last event at or before `t`. */
  function StateAt(events: Events, t: nat): Option<LogicValue> {
    Recorder.Decode(events, t)
  }

  /* ---- Row times ---- */

  function InsertTime(times: seq<nat>, t: nat): (r: seq<nat>)
    ensures forall x :: x in r <==> x == t || x in times
  {
    if |times| == 0 then [t]
    else if t <= times[0] then [t] + times
    else
      assert times == [times[0]] + times[1..];
      [times[0]] + InsertTime(times[1..], t)
  }

  lemma {:induction false} InsertTimeOrdered(times: seq<nat>, t: nat)
    requires Nondecreasing(times)
    ensures Nondecreasing(InsertTime(times, t))
  {
    if |times| > 0 && t > times[0] {
      InsertTimeOrdered(times[1..], t);
      var rest := InsertTime(times[1..], t);
      forall i | 0 <= i < |rest|
        ensures times[0] <= rest[i]
      {
        assert rest[i] in rest;
        assert rest[i] == t || rest[i] in times[1..];
      }
    }
  }

  function SortTimes(times: seq<nat>): (r: seq<nat>)
    ensures forall x :: x in r <==> x in times
    ensures Nondecreasing(r)
  {
    if |times| == 0 then []
    else
      assert times == [times[0]] + times[1..];
      InsertTimeOrdered(SortTimes(times[1..]), times[0]);
      InsertTime(SortTimes(times[1..]), times[0])
  }

  /** All event times of all sources, in no particular order. */
  method GatherTimes(sources: seq<Events>) returns (times: seq<nat>)
    ensures forall t :: t in times <==> Occurs(sources, t)
  {
    times := [];
    for s := 0 to |sources|
      invariant forall t :: t in times <==> exists u, i :: 0 <= u < s && 0 <= i < |sources[u]| && sources[u][i].0 == t
    {
      ghost var before := times;
      for i := 0 to |sources[s]|
        invariant forall t :: t in times <==> t in before || exists j :: 0 <= j < i && sources[s][j].0 == t
      {
        times := times + [sources[s][i].0];
      }
    }
  }

  lemma OneMore(times: seq<nat>, t: nat)
    requires Increasing(times) && (|times| > 0 ==> times[|times| - 1] < t)
    ensures Increasing(times + [t])
  {
  }

  /** Drops neighbouring repetitions. */
  method Deduplicate(sorted: seq<nat>) returns (times: seq<nat>)
    requires Nondecreasing(sorted)
    ensures Increasing(times) && forall t :: t in times <==> t in sorted
  {
    times := [];
    for i := 0 to |sorted|
      invariant Increasing(times) && (forall t :: t in times <==> t in sorted[..i])
      invariant i == 0 ==> times == []
      invariant i > 0 ==> |times| > 0 && times[|times| - 1] == sorted[i - 1]
    {
      assert sorted[..i + 1] == sorted[..i] + [sorted[i]];
      if |times| == 0 || times[|times| - 1] != sorted[i] {
        OneMore(times, sorted[i]);
        times := times + [sorted[i]];
      }
    }
    assert sorted[..|sorted|] == sorted;
  }

  /* ---- Rows ---- */

  /** `index` is the source's last event at or before `t`, or its first if there is none. */
  predicate Points(events: Events, index: nat, t: int) {
    && index < |events| && (index == 0 || events[index].0 <= t)
    && (forall i :: index < i < |events| ==> events[i].0 > t)
  }

  lemma {:induction false} PointsToState(events: Events, index: nat, t: nat)
    requires Points(events, index, t) && events[0].0 <= t
    ensures StateAt(events, t) == Some(events[index].1)
    decreases |events|
  {
    if index < |events| - 1 {
      PointsToState(events[..|events| - 1], index, t);
    }
  }

  /** Row `k` shows every source at the row's time. */
  ghost predicate RowShows(sources: seq<Events>, row: Row) {
    |row.states| == |sources| && forall s :: 0 <= s < |sources| ==> StateAt(sources[s], row.time) == Some(row.states[s])
  }

  /** Moves one source's index up to the last event at or before `t`. */
  method AdvanceSource(events: Events, start: nat, t: nat) returns (index: nat)
    requires WellTimed(events) && start < |events| && (start == 0 || events[start].0 <= t)
    ensures Points(events, index, t)
  {
    index := start;
    while index + 1 < |events| && events[index + 1].0 <= t
      invariant index < |events| && (index == 0 || events[index].0 <= t)
      decreases |events| - index
    {
      index := index + 1;
    }
  }

  ghost predicate TooManyTimes(sources: seq<Events>) {
    exists times :: Increasing(times) && |times| > MAX_EVENTS && forall t :: t in times ==> Occurs(sources, t)
  }

  /** One row per distinct event time, unless there are too many. */
  method CompileStimulus(sources: seq<Events>) returns (r: Result<seq<Row>, StimulusError>)
    requires forall s :: 0 <= s < |sources| ==> WellTimed(sources[s])
    ensures sources == [] ==> r == Ok([])
    ensures r.Ok? ==> |r.value| <= MAX_EVENTS && IsMerge(sources, r.value)
    ensures r.Err? ==> r.error == EventRows && TooManyTimes(sources)
  {
    if |sources| == 0 {
      return Ok([]);
    }
    var gathered := GatherTimes(sources);
    var times := Deduplicate(SortTimes(gathered));
    if |times| > MAX_EVENTS {
      return Err(EventRows);
    }
    var rows := FillRows(sources, times);
    r := Ok(rows);
  }

  ghost predicate HasRow(rows: seq<Row>, t: nat) {
    exists k :: 0 <= k < |rows| && rows[k].time == t
  }

  /** The rows' times are the distinct event times in order, and each row shows every source. */
  ghost predicate IsMerge(sources: seq<Events>, rows: seq<Row>) {
    && (forall i, j :: 0 <= i < j < |rows| ==> rows[i].time < rows[j].time)
    && (forall t :: Occurs(sources, t) ==> HasRow(rows, t))
    && (forall k :: 0 <= k < |rows| ==> Occurs(sources, rows[k].time) && RowShows(sources, rows[k]))
  }

  /** The two nested loops over rows and sources, with one index and one present state per source. */
  method FillRows(sources: seq<Events>, times: seq<nat>) returns (rows: seq<Row>)
    requires forall s :: 0 <= s < |sources| ==> WellTimed(sources[s])
    requires Increasing(times) && forall t :: t in times <==> Occurs(sources, t)
    ensures |rows| == |times| && IsMerge(sources, rows)
  {
    var indices := new nat[|sources|](_ => 0);
    var current := new LogicValue[|sources|](s requires 0 <= s < |sources| => sources[s][0].1);
    rows := [];
    for k := 0 to |times|
      invariant |rows| == k
      invariant forall s :: 0 <= s < |sources| ==>
                  && indices[s] < |sources[s]| && current[s] == sources[s][indices[s]].1
                  && (k < |times| ==> indices[s] == 0 || sources[s][indices[s]].0 <= times[k])
      invariant forall i :: 0 <= i < k ==> rows[i].time == times[i] && RowShows(sources, rows[i])
    {
      FillStates(sources, times[k], indices, current);
      rows := rows + [Row(times[k], current[..])];
    }
  }

  method FillStates(sources: seq<Events>, time: nat, indices: array<nat>, current: array<LogicValue>)
    requires indices.Length == current.Length == |sources|
    requires forall s :: 0 <= s < |sources| ==>
               && WellTimed(sources[s]) && indices[s] < |sources[s]| && current[s] == sources[s][indices[s]].1
               && (indices[s] == 0 || sources[s][indices[s]].0 <= time)
    modifies indices, current
    ensures forall s :: 0 <= s < |sources| ==>
              && Points(sources[s], indices[s], time) && current[s] == sources[s][indices[s]].1
              && StateAt(sources[s], time) == Some(current[s])
  {
    for s := 0 to |sources|
      invariant forall u :: 0 <= u < s ==>
                  && Points(sources[u], indices[u], time) && current[u] == sources[u][indices[u]].1
                  && StateAt(sources[u], time) == Some(current[u])
      invariant forall u :: s <= u < |sources| ==> indices[u] == old(indices[u]) && current[u] == old(current[u])
    {
      indices[s] := AdvanceSource(sources[s], indices[s], time);
      current[s] := sources[s][indices[s]].1;
      PointsToState(sources[s], indices[s], time);
    }
  }

  /* ---- The table loses nothing ---- */

  /** What the table says about source `s`. */
  function Column(rows: seq<Row>, s: nat): (r: Events)
    requires forall k :: 0 <= k < |rows| ==> s < |rows[k].states|
    ensures |r| == |rows| && forall k :: 0 <= k < |rows| ==> r[k] == (rows[k].time, rows[k].states[s])
  {
    seq(|rows|, k requires 0 <= k < |rows| => (rows[k].time, rows[k].states[s]))
  }

  /** Without an event in between, the state stays. */
  lemma {:induction false} StateStays(events: Events, early: nat, late: nat)
    requires early <= late && forall i :: 0 <= i < |events| ==> events[i].0 <= early || late < events[i].0
    ensures StateAt(events, early) == StateAt(events, late)
    decreases |events|
  {
    if |events| > 0 && events[|events| - 1].0 > late {
      StateStays(events[..|events| - 1], early, late);
    }
  }

  /** The last row at or before `t`. */
  lemma {:induction false} LastRow(rows: seq<Row>, t: nat) returns (k: nat)
    requires |rows| > 0 && rows[0].time <= t && forall i, j :: 0 <= i < j < |rows| ==> rows[i].time < rows[j].time
    ensures k < |rows| && rows[k].time <= t && forall i :: k < i < |rows| ==> t < rows[i].time
  {
    if rows[|rows| - 1].time <= t {
      k := |rows| - 1;
    } else {
      k := LastRow(rows[..|rows| - 1], t);
    }
  }

  lemma StartsAtZero(sources: seq<Events>, rows: seq<Row>, s: nat)
    requires IsMerge(sources, rows) && s < |sources| && WellTimed(sources[s])
    ensures |rows| > 0 && rows[0].time == 0
  {
    assert sources[s][0].0 == 0 && Occurs(sources, 0);
    var first :| 0 <= first < |rows| && rows[first].time == 0;
  }

  /** Between row `k` and the next no source has an event. */
  lemma NothingBetween(sources: seq<Events>, rows: seq<Row>, s: nat, k: nat, t: nat, i: nat)
    requires IsMerge(sources, rows) && s < |sources| && k < |rows| && i < |sources[s]|
    requires forall j :: k < j < |rows| ==> t < rows[j].time
    ensures sources[s][i].0 <= rows[k].time || t < sources[s][i].0
  {
    hide RowShows;
    assert Occurs(sources, sources[s][i].0);
    var m :| 0 <= m < |rows| && rows[m].time == sources[s][i].0;
    assert m < k ==> rows[m].time < rows[k].time;
  }

  lemma RowsShow(sources: seq<Events>, rows: seq<Row>, s: nat)
    requires IsMerge(sources, rows) && s < |sources|
    ensures forall k :: 0 <= k < |rows| ==>
              s < |rows[k].states| && StateAt(sources[s], rows[k].time) == Some(rows[k].states[s])
    ensures forall i, j :: 0 <= i < j < |rows| ==> rows[i].time < rows[j].time
  {
    assert forall k :: 0 <= k < |rows| ==> RowShows(sources, rows[k]);
  }

  /** Reading a source's column at any time gives the source's own state at that time. */
  lemma MergeIsLossless(sources: seq<Events>, rows: seq<Row>, s: nat, t: nat)
    requires IsMerge(sources, rows) && s < |sources| && WellTimed(sources[s])
    ensures forall k :: 0 <= k < |rows| ==> s < |rows[k].states|
    ensures StateAt(Column(rows, s), t) == StateAt(sources[s], t)
  {
    RowsShow(sources, rows, s);
    StartsAtZero(sources, rows, s);
    hide IsMerge, WellTimed, StateAt, Column;
    var k := LastRow(rows, t);
    PointsToState(Column(rows, s), k, t);
    forall i: nat | i < |sources[s]|
      ensures sources[s][i].0 <= rows[k].time || t < sources[s][i].0
    {
      NothingBetween(sources, rows, s, k, t, i);
    }
    StateStays(sources[s], rows[k].time, t);
  }

  /* ---- Clocks ---- */

  /** The events of a clock with phases `high` and `low`, both positive. */
  method ClockEvents(stop: nat, high: nat, low: nat, initial: LogicValue) returns (r: Result<Events, StimulusError>)
    requires high > 0 && low > 0
    ensures !initial.IsKnown() ==> r == Err(InvalidClockValue)
    ensures initial.IsKnown() ==>
              var all := [(0, initial)] + ClockEdges(stop, high, low, 0, initial);
              r == if |all| <= MAX_EVENTS then Ok(all) else Err(EventRows)
  {
    if !initial.IsKnown() {
      return Err(InvalidClockValue);
    }
    ghost var all := [(0, initial)] + ClockEdges(stop, high, low, 0, initial);
    var events := [(0, initial)];
    var time, value := 0, initial;
    while time < stop
      invariant time >= 0 && all == events + ClockEdges(stop, high, low, time, value)
      invariant |events| <= MAX_EVENTS
      decreases stop - time
    {
      var next := time + (if value == One then high else low);
      ghost var rest := ClockEdges(stop, high, low, time, value);
      if next > stop {
        assert rest == [];
        break;
      }
      assert rest == [(next, Flip(value))] + ClockEdges(stop, high, low, next, Flip(value));
      time, value := next, Flip(value);
      assert (events + [(time, value)]) + ClockEdges(stop, high, low, time, value) == events + rest;
      events := events + [(time, value)];
      if |events| > MAX_EVENTS {
        return Err(EventRows);
      }
    }
    assert events == all;
    r := Ok(events);
  }

  /** Edge `i` follows edge `i - 1` strictly, flips the value and lies within the run. */
  lemma {:induction false} EdgesAlternate(edges: Events, stop: nat, time: nat, value: LogicValue)
    requires Edges(edges, stop, time, value)
    ensures var all := [(time, value)] + edges;
            forall i :: 0 < i < |all| ==> all[i - 1].0 < all[i].0 <= stop && all[i].1 == Flip(all[i - 1].1)
    decreases |edges|
  {
    if |edges| > 0 {
      var rest := [edges[0]] + edges[1..];
      EdgesAlternate(edges[1..], stop, edges[0].0, edges[0].1);
      var all := [(time, value)] + edges;
      assert edges == rest;
      forall i | 0 < i < |all|
        ensures all[i - 1].0 < all[i].0 <= stop && all[i].1 == Flip(all[i - 1].1)
      {
        if i > 1 {
          assert all[i] == rest[i - 1] && all[i - 1] == rest[i - 2];
        }
      }
    }
  }

  /** A clock is a source fit for merging: strictly later, alternating events within the run, from time zero. */
  lemma ClockIsWellTimed(stop: nat, high: nat, low: nat, initial: LogicValue)
    requires high > 0 && low > 0
    ensures var all := [(0, initial)] + ClockEdges(stop, high, low, 0, initial);
            && WellTimed(all)
            && forall i :: 0 < i < |all| ==> all[i - 1].0 < all[i].0 <= stop && all[i].1 == Flip(all[i - 1].1)
  {
    var all := [(0, initial)] + ClockEdges(stop, high, low, 0, initial);
    ClockEdgesOrdered(stop, high, low, 0, initial);
    EdgesAlternate(ClockEdges(stop, high, low, 0, initial), stop, 0, initial);
    RisesThroughout(all);
  }

  lemma {:induction false} RisesThroughout(events: Events)
    requires forall i :: 0 < i < |events| ==> events[i - 1].0 < events[i].0
    ensures forall i, j :: 0 <= i < j < |events| ==> events[i].0 < events[j].0
  {
    if |events| > 0 {
      var n := |events| - 1;
      RisesThroughout(events[..n]);
      forall i | 0 <= i < n
        ensures events[i].0 < events[n].0
      {
        assert events[n - 1].0 < events[n].0;
        assert i < n - 1 ==> events[..n][i].0 < events[..n][n - 1].0;
      }
    }
  }

  /** Once the second event has happened the first does not matter. */
  lemma {:induction false} StateSkipsFirst(first: (nat, LogicValue), events: Events, t: nat)
    requires |events| > 0 && events[0].0 <= t
    ensures StateAt([first] + events, t) == StateAt(events, t)
    decreases |events|
  {
    var all, n := [first] + events, |events|;
    assert all[n] == events[n - 1] && all[..n] == [first] + events[..n - 1];
    if events[n - 1].0 > t {
      StateSkipsFirst(first, events[..n - 1], t);
    }
  }

  lemma {:induction false} EdgesGiveState(edges: Events, stop: nat, time: nat, value: LogicValue, t: nat)
    requires Edges(edges, stop, time, value) && time <= t
    ensures StateAt([(time, value)] + edges, t) == Some(Transport.LastBy(edges, t, value))
    decreases |edges|
  {
    var all := [(time, value)] + edges;
    if |edges| == 0 || edges[0].0 > t {
      EdgesAlternate(edges, stop, time, value);
      RisesThroughout(all);
      assert forall i :: 1 < i < |all| ==> all[1].0 < all[i].0;
      PointsToState(all, 0, t);
    } else {
      EdgesGiveState(edges[1..], stop, edges[0].0, edges[0].1, t);
      assert edges == [edges[0]] + edges[1..];
      StateSkipsFirst((time, value), edges, t);
    }
  }

  /** The events of a clock are those of a periodic wave, whose level at any time of the run is known outright. */
  lemma ClockIsPeriodic(stop: nat, high: nat, low: nat, initial: LogicValue, t: nat)
    requires high > 0 && low > 0 && initial.IsKnown() && t <= stop
    ensures var phase := if initial == One then high else low;
            StateAt([(0, initial)] + ClockEdges(stop, high, low, 0, initial), t)
              == Some(if t % (high + low) < phase then initial else initial.Not())
  {
    hide StateAt, ClockEdges;
    ClockEdgesOrdered(stop, high, low, 0, initial);
    EdgesGiveState(ClockEdges(stop, high, low, 0, initial), stop, 0, initial, t);
    Transport.EdgesAreAWave(stop, high, low, 0, initial, t);
  }
}
