/**
 * The resumable copy of the event loop. Its clock counts whole picoseconds; events are in femtoseconds, so
 * the source's half-picosecond slack is 500 of them.
 */
module Session {
  import opened Wrappers
  import opened Logic
  import opened Circuit
  import opened Kernel
  import opened Projection
  import opened Levelized
  import opened Engine

  const FS_PER_PS: nat := 1000
  const HALF_PS: nat := 500
  const U64_MAX: nat := 0xFFFF_FFFF_FFFF_FFFF

  /** The last event time that belongs to the picosecond tick `t`. */
  function Bound(t: nat): nat {
    t * FS_PER_PS + HALF_PS
  }

  /* ---- The session's operations as functions ---- */

  function Advance(p: Program, stop: nat, current: nat, s: State, target: nat): (r: Result<State, DigitalError>)
    requires Ready(p, s)
    ensures r.Ok? ==> Ready(p, r.value)
  {
    if target < current || target * FS_PER_PS > stop + HALF_PS then Err(TimeInvalid)
    else Process(p, stop, s, Bound(target))
  }

  /** Net `net` set to `value` and its dependents evaluated, repeated pins and all. */
  function Written(p: Program, stop: nat, current: nat, s: State, net: nat, value: LogicValue)
    : (r: Result<State, DigitalError>)
    requires WellFormed(p) && Ready(p, s) && net < |s.nets|
    ensures r.Ok? ==> Ready(p, r.value)
  {
    var written := s.(nets := s.nets[net := value]);
    DependentsInRange(p, net);
    EvaluatedEventsValid(p, stop, written, current * FS_PER_PS, p.dependents[net]);
    EvaluateList(p, stop, written, current * FS_PER_PS, p.dependents[net])
  }

  function Write(p: Program, stop: nat, externals: set<nat>, current: nat, s: State, net: nat, time: nat,
                 value: LogicValue)
    : (r: Result<(State, bool), DigitalError>)
    requires WellFormed(p) && Ready(p, s)
    ensures r.Ok? ==> Ready(p, r.value.0)
  {
    if time != current then Err(TimeInvalid)
    else if net !in externals || net >= |s.nets| then Err(BindingInvalid)
    else if s.nets[net] == value then Ok((s, false))
    else
      var evaluated :- Written(p, stop, current, s, net, value);
      var settled :- Process(p, stop, evaluated, Bound(current));
      Ok((settled, true))
  }

  lemma DependentsInRange(p: Program, net: nat)
    requires WellFormed(p) && net < |p.drivers|
    ensures forall i :: 0 <= i < |p.dependents[net]| ==> p.dependents[net][i] < |p.components|
  {
    forall i | 0 <= i < |p.dependents[net]|
      ensures p.dependents[net][i] < |p.components|
    {
      var c := p.dependents[net][i];
      assert c in p.dependents[net];
    }
  }

  /** The earliest pending event, rounded up to a tick after the current one. */
  function NextEvent(s: State, current: nat): Option<nat> {
    if |s.queue| == 0 then None
    else
      var at := s.queue[0].time;
      var ticks := (at + FS_PER_PS - 1) / FS_PER_PS;
      if ticks > U64_MAX then None
      else if ticks <= current && at > current * FS_PER_PS then Some(FollowingTick(current))
      else Some(ticks)
  }

  /** Saturating successor, for an event that rounds to the current tick. */
  function FollowingTick(current: nat): nat {
    if current + 1 > U64_MAX then U64_MAX else current + 1
  }

  /* ---- The imperative session ---- */

  class DigitalSession {
    const program: Program
    const stop: nat
    const externalInputs: set<nat>
    var currentTime: nat
    var nets: seq<LogicValue>
    var drivers: map<DriverKey, LogicValue>
    var states: seq<RuntimeState>
    var agenda: Agenda
    var processed: nat
    ghost var lastEval: map<nat, nat>

    ghost function View(): State
      reads this
    {
      State(nets, drivers, states, agenda.queue, agenda.sequence, agenda.scheduled, processed, lastEval)
    }

    ghost predicate Valid()
      reads this
    {
      WellFormed(program) && Base(program, stop, View())
    }

    constructor (p: Program, stop: nat, externalInputs: set<nat>)
      requires WellFormed(p)
      ensures Valid() && View() == EmptyState(p) && currentTime == 0
      ensures program == p && this.stop == stop && this.externalInputs == externalInputs
    {
      program, this.stop, this.externalInputs := p, stop, externalInputs;
      currentTime := 0;
      nets := Repeat(X, |p.drivers|);
      drivers := map d | d in AllKeys(p) :: Z;
      states := seq(|p.components|, c requires 0 <= c < |p.components| => InitialRuntimeState(p.components[c]));
      agenda := Agenda([], 0, 0);
      processed := 0;
      lastEval := map[];
    }

    method Initialize() returns (r: Result<(), DigitalError>)
      requires Valid() && View() == EmptyState(program)
      modifies this`agenda
      ensures r.Ok? ==> Valid() && Start(program, stop) == Ok(View())
      ensures r.Err? && r.error != Interrupted ==> Start(program, stop) == Err(r.error)
    {
      StartKeeps(program, stop);
      agenda :- ScheduleInitial(program, stop, View(), states);
      r := Ok(());
    }

    method EvaluateComponents(components: seq<nat>, time: nat) returns (r: Result<(), DigitalError>)
      requires WellFormed(program) && Ready(program, View())
      requires forall i :: 0 <= i < |components| ==> components[i] < |program.components|
      modifies this`states, this`agenda, this`lastEval
      ensures r.Ok? ==> EvaluateList(program, stop, old(View()), time, components) == Ok(View())
      ensures r.Err? && r.error != Interrupted ==>
                EvaluateList(program, stop, old(View()), time, components) == Err(r.error)
    {
      hide EvaluateList, Evaluate, ScheduleOutputs;
      if * {
        return Err(Interrupted);
      }
      for i := 0 to |components|
        invariant Shaped(program, View())
        invariant EvaluateList(program, stop, View(), time, components[i..])
               == EvaluateList(program, stop, old(View()), time, components)
      {
        var c := components[i];
        ghost var before := View();
        EvaluateNext(program, stop, before, time, components, i);
        var (state, outputs) := Evaluate(program.components[c], nets, states[c]);
        states := states[c := state];
        if outputs.Some? {
          lastEval := lastEval[c := time];
          var scheduled := ScheduleEvaluated(c, time, outputs.value);
          if scheduled.Err? {
            return scheduled;
          }
        }
        assert EvaluateOne(program, stop, before, time, c) == Ok(View());
      }
      EvaluateNone(program, stop, View(), time, components[|components|..]);
      r := Ok(());
    }

    method ScheduleEvaluated(c: nat, time: nat, values: seq<LogicValue>) returns (r: Result<(), DigitalError>)
      requires c < |program.components| && Counted(View())
      modifies this`agenda
      ensures r.Ok? ==> ScheduleOutputs(program, stop, old(View()), time, c, 0, values) == Ok(View())
      ensures r.Err? ==> ScheduleOutputs(program, stop, old(View()), time, c, 0, values) == Err(r.error)
    {
      hide Insert, Sorted;
      var o := 0;
      while o < |values| && o < |program.components[c].outputs|
        invariant Counted(View())
        invariant ScheduleOutputs(program, stop, View(), time, c, o, values)
               == ScheduleOutputs(program, stop, old(View()), time, c, 0, values)
      {
        var outputTime := time + program.components[c].delay;
        if outputTime <= stop {
          agenda :- ScheduleOutputAt(agenda, outputTime, c, o, values[o]);
        }
        o := o + 1;
      }
      r := Ok(());
    }

    method ProcessUntil(target: nat) returns (r: Result<(), DigitalError>)
      requires Valid()
      modifies this`nets, this`drivers, this`states, this`agenda, this`processed, this`lastEval
      ensures r.Ok? ==> Valid() && Process(program, stop, old(View()), target + HALF_PS) == Ok(View())
      ensures r.Err? && r.error != Interrupted ==> Process(program, stop, old(View()), target + HALF_PS) == Err(r.error)
    {
      hide Process, Step, EvaluateList, Popped, AffectedFrom;
      hide ApplyEvents, NetsConsistent, Ordered, NetsAfter, WellFormed;
      var bound := target + HALF_PS;
      while true
        invariant Valid()
        invariant Process(program, stop, View(), bound) == Process(program, stop, old(View()), bound)
        decreases Measure(View())
      {
        if * {
          return Err(Interrupted);
        }
        if |agenda.queue| == 0 || agenda.queue[0].time > bound {
          NothingDue(program, stop, View(), bound);
          return Ok(());
        }
        ghost var s := View();
        var time := agenda.queue[0].time;
        var batch, rest := PopBatch(agenda.queue);
        LoopTurn(program, stop, s, time, bound, batch, rest);
        agenda := agenda.(queue := rest);
        processed := processed + |batch|;
        if processed > MAX_EVENTS {
          assert false;
          return Err(EventLimit);
        }
        var affectedNets;
        drivers, affectedNets := ApplyBatch(program, drivers, batch);
        var affected := SettleNets(affectedNets);
        assert View() == Popped(program, s);
        var components := Ascending(program, s.nets, nets, affected);
        var evaluated := EvaluateComponents(components, time);
        if evaluated.Err? {
          return evaluated;
        }
      }
    }

    /** Resolves the touched nets in place; returns the components that depend on a changed one. */
    method SettleNets(affectedNets: set<nat>) returns (affected: set<nat>)
      requires |program.drivers| == |program.dependents| == |nets|
      modifies this`nets
      ensures nets == NetsAfter(program, old(nets), drivers, affectedNets)
      ensures forall c :: c in affected <==> Affected(program, old(nets), nets, c)
    {
      affected := {};
      for n := 0 to |nets|
        invariant |nets| == |old(nets)|
        invariant forall i :: 0 <= i < n ==> nets[i] == NetAfter(program, old(nets), drivers, affectedNets, i)
        invariant forall i :: n <= i < |nets| ==> nets[i] == old(nets)[i]
        invariant AffectedBelow(program, old(nets), nets, n, affected)
      {
        AffectedNext(program, old(nets), nets, n, NetAfter(program, old(nets), drivers, affectedNets, n), affected);
        assert nets[n := nets[n]] == nets && affected + {} == affected;
        if n in affectedNets {
          var resolved := ResolveNet(program.drivers[n], drivers);
          if resolved != nets[n] {
            nets := nets[n := resolved];
            affected := affected + set c | c in program.dependents[n];
          }
        }
      }
    }

    method AdvanceTo(target: nat) returns (r: Result<(), DigitalError>)
      requires Valid()
      modifies this
      ensures r.Ok? ==>
                Valid() && currentTime == target
                && Advance(program, stop, old(currentTime), old(View()), target) == Ok(View())
      ensures r.Err? && r.error != Interrupted ==>
                Advance(program, stop, old(currentTime), old(View()), target) == Err(r.error)
      ensures r.Err? ==> currentTime == old(currentTime) && (r.error == TimeInvalid ==> View() == old(View()))
    {
      hide Process;
      if target < currentTime {
        return Err(TimeInvalid);
      }
      if target * FS_PER_PS > stop + HALF_PS {
        return Err(TimeInvalid);
      }
      var _ :- ProcessUntil(target * FS_PER_PS);
      currentTime := target;
      r := Ok(());
    }

    method WriteExternal(net: nat, time: nat, value: LogicValue) returns (r: Result<bool, DigitalError>)
      requires Valid() && forall n :: n in externalInputs && n < |program.drivers| ==> program.drivers[n] == []
      modifies this
      ensures r.Ok? ==> Valid()
      ensures r.Ok? ==>
                Write(program, stop, externalInputs, old(currentTime), old(View()), net, time, value)
                == Ok((View(), r.value))
      ensures r.Err? && r.error != Interrupted ==>
                Write(program, stop, externalInputs, old(currentTime), old(View()), net, time, value) == Err(r.error)
      ensures currentTime == old(currentTime)
      ensures r.Err? && (r.error == TimeInvalid || r.error == BindingInvalid) ==> View() == old(View())
    {
      hide Process, EvaluateList;
      if time != currentTime {
        return Err(TimeInvalid);
      }
      if net !in externalInputs || net >= |nets| {
        return Err(BindingInvalid);
      }
      if nets[net] == value {
        return Ok(false);
      }
      nets := nets[net := value];
      WrittenKeepsBase(program, stop, old(View()), net, value);
      DependentsInRange(program, net);
      EvaluationKeepsBase(program, stop, View(), currentTime * FS_PER_PS, program.dependents[net]);
      var _ :- EvaluateComponents(program.dependents[net], currentTime * FS_PER_PS);
      var _ :- ProcessUntil(currentTime * FS_PER_PS);
      r := Ok(true);
    }

    method NextEventTime() returns (r: Option<nat>)
      ensures r == NextEvent(View(), currentTime)
    {
      if |agenda.queue| == 0 {
        return None;
      }
      var ticks := (agenda.queue[0].time + FS_PER_PS - 1) / FS_PER_PS;
      if ticks > U64_MAX {
        return None;
      }
      if ticks <= currentTime && agenda.queue[0].time > currentTime * FS_PER_PS {
        ticks := FollowingTick(currentTime);
      }
      return Some(ticks);
    }

    method ReadNet(net: nat) returns (r: Result<LogicValue, DigitalError>)
      ensures r == if net < |nets| then Ok(nets[net]) else Err(BindingInvalid)
    {
      r := if net < |nets| then Ok(nets[net]) else Err(BindingInvalid);
    }
  }

  /** Collects the affected components in ascending order. */
  method Ascending(p: Program, ghost before: seq<LogicValue>, ghost after: seq<LogicValue>, affected: set<nat>)
    returns (components: seq<nat>)
    requires |before| == |after| <= |p.dependents|
    requires forall c :: c in affected <==> Affected(p, before, after, c)
    ensures components == AffectedFrom(p, before, after, 0)
  {
    hide Affected;
    components := [];
    for c := 0 to |p.components|
      invariant components + AffectedFrom(p, before, after, c) == AffectedFrom(p, before, after, 0)
    {
      ghost var rest := AffectedFrom(p, before, after, c + 1);
      if c in affected {
        assert AffectedFrom(p, before, after, c) == [c] + rest;
        assert components + ([c] + rest) == components + [c] + rest;
        components := components + [c];
      } else {
        assert AffectedFrom(p, before, after, c) == [] + rest == rest;
      }
    }
    assert components + [] == components;
  }

  lemma EvaluateNext(p: Program, stop: nat, s: State, time: nat, comps: seq<nat>, i: nat)
    requires Shaped(p, s) && i < |comps| && forall j :: 0 <= j < |comps| ==> comps[j] < |p.components|
    ensures var next := EvaluateOne(p, stop, s, time, comps[i]);
            EvaluateList(p, stop, s, time, comps[i..]) ==
              if next.Err? then Err(next.error) else EvaluateList(p, stop, next.value, time, comps[i + 1..])
  {
    hide EvaluateOne;
    assert comps[i..][0] == comps[i] && comps[i..][1..] == comps[i + 1..];
  }

  lemma EvaluateNone(p: Program, stop: nat, s: State, time: nat, comps: seq<nat>)
    requires Shaped(p, s) && comps == []
    ensures EvaluateList(p, stop, s, time, comps) == Ok(s)
  {
  }

  lemma WrittenKeepsBase(p: Program, stop: nat, s: State, net: nat, value: LogicValue)
    requires WellFormed(p) && Base(p, stop, s) && net < |p.drivers| && p.drivers[net] == []
    ensures Base(p, stop, s.(nets := s.nets[net := value]))
  {
    var written := s.(nets := s.nets[net := value]);
    forall n | 0 <= n < |p.drivers| && |p.drivers[n]| > 0
      ensures NetConsistent(p, written, n)
    {
      assert NetConsistent(p, s, n);
    }
  }

  /** What one turn of the loop amounts to. */
  lemma LoopTurn(p: Program, stop: nat, s: State, time: nat, bound: nat, batch: seq<Event>, rest: seq<Event>)
    requires WellFormed(p) && Base(p, stop, s) && |s.queue| > 0 && s.queue[0].time == time <= bound
    requires var k := BatchLength(s.queue, time); batch == s.queue[..k] && rest == s.queue[k..]
    ensures var (drivers, touched) := ApplyEvents(p, s.drivers, {}, batch);
            Popped(p, s) == State(NetsAfter(p, s.nets, drivers, touched), drivers, s.states, rest, s.sequence,
                                  s.scheduled,
                                  s.processed + |batch|, s.lastEval)
    ensures Ready(p, Popped(p, s)) && Popped(p, s).processed <= MAX_EVENTS && |p.drivers| == |p.dependents| == |s.nets|
    ensures ValidEvents(p, batch)
    ensures match EvaluateList(p, stop, Popped(p, s), time, AffectedFrom(p, s.nets, Popped(p, s).nets, 0))
            case Err(e) => Process(p, stop, s, bound) == Err(e)
            case Ok(next) =>
              Base(p, stop, next) && Process(p, stop, s, bound) == Process(p, stop, next, bound)
                  && Measure(next) < Measure(s)
  {
    hide NetsConsistent, Ordered, EvaluateList, ApplyEvents;
    StepReady(p, stop, s);
    StepKeepsBase(p, stop, s);
  }
}
