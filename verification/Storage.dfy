/**
 * Storage elements in a running circuit: whatever the batches and input writes, what each of them stores is what
 * the waveform of its input nets makes of it, from the first net state on in which an input is not X.
 */
module Storage {
  import opened Wrappers
  import opened Logic
  import opened Circuit
  import opened Kernel
  import opened Sequential
  import opened Projection
  import opened Levelized
  import opened Session
  import opened Incremental
  import opened Moments

  /* ---- Sequences of evaluations in parts ---- */

  lemma {:induction false} RunConcat(c: Component, s: RuntimeState, a: seq<seq<LogicValue>>, b: seq<seq<LogicValue>>)
    ensures Run(c, s, a + b) == Run(c, Run(c, s, a), b)
    decreases |b|
  {
    hide Evaluate;
    if |b| == 0 {
      assert a + b == a;
    } else {
      var last := |b| - 1;
      RunConcat(c, s, a, b[..last]);
      assert (a + b)[..|a + b| - 1] == a + b[..last];
    }
  }

  lemma RunOnce(c: Component, s: RuntimeState, nets: seq<LogicValue>)
    ensures Run(c, s, [nets]) == Evaluate(c, nets, s).0
  {
    hide Evaluate;
    assert [nets][..0] == [];
    assert Run(c, s, [nets][..0]) == s;
  }

  /** How many net states pass before an input of `c` is anything but X. */
  ghost function Asleep(c: Component, waveform: seq<seq<LogicValue>>): (n: nat)
    ensures n <= |waveform|
    decreases |waveform|
  {
    if |waveform| == 0 || !InputsUnknown(c, waveform[0]) then 0 else 1 + Asleep(c, waveform[1..])
  }

  lemma {:induction false} AsleepConcat(c: Component, a: seq<seq<LogicValue>>, b: seq<seq<LogicValue>>)
    ensures Asleep(c, a + b) == if Asleep(c, a) == |a| then |a| + Asleep(c, b) else Asleep(c, a)
    decreases |a|
  {
    hide InputsUnknown;
    if |a| == 0 {
      assert a + b == b;
    } else {
      assert (a + b)[1..] == a[1..] + b;
      AsleepConcat(c, a[1..], b);
    }
  }

  /* ---- What a component's state follows ---- */

  /** Present if ever evaluated, else as compiled with unknown inputs. */
  ghost predicate Held(p: Program, s: State, c: nat)
    requires c < |p.components| == |s.states|
  {
    if c in s.lastEval then UpToDate(p, s, c)
    else s.states[c] == InitialRuntimeState(p.components[c]) && InputsUnknown(p.components[c], s.nets)
  }

  ghost predicate AllHeld(p: Program, s: State)
    requires |p.components| == |s.states|
  {
    forall c: nat :: IsStore(p, c) ==> Held(p, s, c)
  }

  lemma InvHeld(p: Program, stop: nat, now: nat, s: State)
    requires Inv(p, stop, now, s)
    ensures AllHeld(p, s)
  {
    hide NetsConsistent, GatesInv, Evaluate;
    forall c: nat | IsStore(p, c)
      ensures Held(p, s, c)
    {
      assert StoreInv(p, stop, now, s, c);
    }
  }

  /** The part of a waveform that component `c` has been evaluated on. */
  ghost function Seen(p: Program, s: State, c: nat, waveform: seq<seq<LogicValue>>): seq<seq<LogicValue>>
    requires c < |p.components|
  {
    if c in s.lastEval then waveform else waveform[Asleep(p.components[c], waveform)..]
  }

  /** From `s` to `t`, component `c` was evaluated exactly on what it has seen of the waveform. */
  ghost predicate Follows(p: Program, s: State, t: State, c: nat, waveform: seq<seq<LogicValue>>)
    requires c < |p.components| == |s.states| == |t.states|
  {
    var seen := Seen(p, s, c, waveform);
    && t.states[c] == Run(p.components[c], s.states[c], seen)
    && (c in t.lastEval <==> c in s.lastEval || seen != [])
  }

  ghost predicate AllFollow(p: Program, s: State, t: State, waveform: seq<seq<LogicValue>>)
    requires |p.components| == |s.states| == |t.states|
  {
    forall c: nat :: IsStore(p, c) ==> Follows(p, s, t, c, waveform)
  }

  lemma FollowsConcat(p: Program, s: State, t: State, u: State, a: seq<seq<LogicValue>>, b: seq<seq<LogicValue>>)
    requires |p.components| == |s.states| == |t.states| == |u.states|
    requires AllFollow(p, s, t, a) && AllFollow(p, t, u, b)
    ensures AllFollow(p, s, u, a + b)
  {
    hide Run, Asleep;
    forall c: nat | IsStore(p, c)
      ensures Follows(p, s, u, c, a + b)
    {
      var comp := p.components[c];
      assert Follows(p, s, t, c, a) && Follows(p, t, u, c, b);
      AsleepConcat(comp, a, b);
      var w := Seen(p, s, c, a);
      if c in t.lastEval {
        assert Seen(p, s, c, a + b) == w + b;
        RunConcat(comp, s.states[c], w, b);
      } else {
        assert Seen(p, s, c, a + b) == Seen(p, t, c, b);
        RunNever(comp, s.states[c]);
      }
    }
  }

  lemma RunNever(c: Component, s: RuntimeState)
    ensures Run(c, s, []) == s
  {
  }

  lemma FollowsNothing(p: Program, s: State)
    requires |p.components| == |s.states|
    ensures AllFollow(p, s, s, [])
  {
  }

  /* ---- One batch, one write ---- */

  /** Evaluating `comps` on the nets of `m`, all components with a changed input among them. */
  lemma EvaluationFollows(p: Program, stop: nat, time: nat, s: State, m: State, comps: seq<nat>)
    requires WellFormed(p) && Shaped(p, s) && Shaped(p, m) && Listed(p, comps) && AllHeld(p, s)
    requires m.states == s.states && m.lastEval == s.lastEval
    requires forall c: nat :: c < |p.components| && c !in comps ==> SameInputs(p.components[c], s.nets, m.nets)
    requires forall c: nat :: c in comps ==> !InputsUnknown(p.components[c], s.nets) || !InputsUnknown(p.components[c],
                                                                                                       m.nets)
    ensures var r := EvaluateList(p, stop, m, time, comps);
            r.Ok? ==> AllHeld(p, r.value) && AllFollow(p, s, r.value, [m.nets])
  {
    hide Evaluate, EvaluateList, WellFormed, SameInputs, InputsUnknown, Follows, Held;
    var r := EvaluateList(p, stop, m, time, comps);
    if r.Ok? {
      forall c: nat | IsStore(p, c)
        ensures Held(p, r.value, c) && Follows(p, s, r.value, c, [m.nets])
      {
        ListStores(p, stop, m, time, comps, c);
        if c in comps {
          ListedFollows(p, stop, time, s, m, comps, c);
        } else {
          ListKeeps(p, stop, m, time, comps, DriverKey(c, 0));
          UnlistedFollows(p, s, m, r.value, c);
        }
      }
    }
  }

  lemma {:induction false} ListMarks(p: Program, stop: nat, s: State, time: nat, comps: seq<nat>, c: nat)
    requires Shaped(p, s) && Listed(p, comps) && IsStore(p, c) && (c in comps || c in s.lastEval)
    ensures var r := EvaluateList(p, stop, s, time, comps); r.Ok? ==> c in r.value.lastEval
    decreases |comps|
  {
    if |comps| > 0 {
      var (rs, out) := Evaluate(p.components[comps[0]], s.nets, s.states[comps[0]]);
      assert comps[0] == c ==> out.Some?;
      hide Evaluate;
      if out.Some? {
        KeptByOutputs(p, stop, s.(states := s.states[comps[0] := rs], lastEval := s.lastEval[comps[0] := time]), time,
                      comps[0], 0, out.value);
      }
      var next := EvaluateOne(p, stop, s, time, comps[0]);
      if next.Ok? {
        ListMarks(p, stop, next.value, time, comps[1..], c);
      }
    }
  }

  lemma ListedFollows(p: Program, stop: nat, time: nat, s: State, m: State, comps: seq<nat>, c: nat)
    requires Shaped(p, s) && Shaped(p, m) && Listed(p, comps) && IsStore(p, c) && c in comps && Held(p, s, c)
    requires m.states == s.states && m.lastEval == s.lastEval
    requires !InputsUnknown(p.components[c], s.nets) || !InputsUnknown(p.components[c], m.nets)
    requires EvaluateList(p, stop, m, time, comps).Ok?
    ensures var r := EvaluateList(p, stop, m, time, comps).value;
            Held(p, r, c) && Follows(p, s, r, c, [m.nets])
  {
    hide Evaluate, EvaluateList, Run, InputsUnknown;
    ListStores(p, stop, m, time, comps, c);
    ListMarks(p, stop, m, time, comps, c);
    EvaluateIsIdempotent(p.components[c], m.nets, s.states[c]);
    RunOnce(p.components[c], s.states[c], m.nets);
    assert Seen(p, s, c, [m.nets]) == [m.nets];
  }

  lemma UnlistedFollows(p: Program, s: State, m: State, r: State, c: nat)
    requires |p.components| == |s.states| == |r.states| && IsStore(p, c) && Held(p, s, c)
    requires r.nets == m.nets && r.states[c] == s.states[c] && (c in r.lastEval <==> c in s.lastEval)
    requires SameInputs(p.components[c], s.nets, m.nets)
    ensures Held(p, r, c) && Follows(p, s, r, c, [m.nets])
  {
    hide Evaluate, Run;
    var comp := p.components[c];
    EvaluateDependsOnInputs(comp, s.nets, m.nets, s.states[c]);
    if c in s.lastEval {
      RunOnce(comp, s.states[c], m.nets);
    } else {
      assert InputsUnknown(comp, m.nets);
      assert Asleep(comp, [m.nets]) == 1 + Asleep(comp, [m.nets][1..]);
      assert Seen(p, s, c, [m.nets]) == [];
      RunNever(comp, s.states[c]);
    }
  }

  /** A changed net that a component reads is not X both before and after. */
  lemma ChangedIsSeen(p: Program, before: seq<LogicValue>, after: seq<LogicValue>, n: nat, c: nat)
    requires WellFormed(p) && |before| == |after| == |p.drivers| && n < |p.drivers| && before[n] != after[n]
    requires c in p.dependents[n]
    ensures c < |p.components|
    ensures !InputsUnknown(p.components[c], before) || !InputsUnknown(p.components[c], after)
  {
    assert n in p.components[c].inputs.Values;
    var pin :| pin in p.components[c].inputs && p.components[c].inputs[pin] == n;
  }

  lemma StepFollows(p: Program, stop: nat, s: State)
    requires WellFormed(p) && Ready(p, s) && |s.queue| > 0 && AllHeld(p, s)
    ensures var r := Step(p, stop, s);
            r.Ok? ==> AllHeld(p, r.value) && AllFollow(p, s, r.value, [r.value.nets])
  {
    hide WellFormed, Popped, AllHeld, AllFollow, InputsUnknown, SameInputs;
    var m := Popped(p, s);
    var comps := AffectedFrom(p, s.nets, m.nets, 0);
    StepReady(p, stop, s);
    forall c: nat | c < |p.components| && c !in comps
      ensures SameInputs(p.components[c], s.nets, m.nets)
    {
      UnaffectedSeesTheSame(p, s, m, c);
    }
    forall c: nat | c in comps
      ensures !InputsUnknown(p.components[c], s.nets) || !InputsUnknown(p.components[c], m.nets)
    {
      assert Affected(p, s.nets, m.nets, c);
      var n :| 0 <= n < |s.nets| && s.nets[n] != m.nets[n] && c in p.dependents[n];
      ChangedIsSeen(p, s.nets, m.nets, n, c);
    }
    EvaluationFollows(p, stop, s.queue[0].time, s, m, comps);
    if Step(p, stop, s).Ok? {
      ListNets(p, stop, m, s.queue[0].time, comps);
    }
  }

  lemma {:induction false} ListNets(p: Program, stop: nat, s: State, time: nat, comps: seq<nat>)
    requires Shaped(p, s) && Listed(p, comps)
    ensures var r := EvaluateList(p, stop, s, time, comps); r.Ok? ==> r.value.nets == s.nets
    decreases |comps|
  {
    if |comps| > 0 {
      var next := EvaluateOne(p, stop, s, time, comps[0]);
      if next.Ok? {
        ListNets(p, stop, next.value, time, comps[1..]);
      }
    }
  }

  lemma WrittenFollows(p: Program, stop: nat, current: nat, s: State, net: nat, value: LogicValue)
    requires WellFormed(p) && Ready(p, s) && net < |s.nets| && s.nets[net] != value && AllHeld(p, s)
    ensures var r := Written(p, stop, current, s, net, value);
            r.Ok? ==> AllHeld(p, r.value) && AllFollow(p, s, r.value, [s.nets[net := value]])
  {
    hide AllHeld, AllFollow, InputsUnknown;
    var written := s.(nets := s.nets[net := value]);
    var comps := p.dependents[net];
    DependentsInRange(p, net);
    forall c: nat | c < |p.components| && c !in comps
      ensures SameInputs(p.components[c], s.nets, written.nets)
    {
      assert net !in p.components[c].inputs.Values;
    }
    forall c: nat | c in comps
      ensures !InputsUnknown(p.components[c], s.nets) || !InputsUnknown(p.components[c], written.nets)
    {
      ChangedIsSeen(p, s.nets, written.nets, net, c);
    }
    EvaluationFollows(p, stop, current * FS_PER_PS, s, written, comps);
  }

  /* ---- Runs ---- */

  function NetsOf(h: seq<Moment>): (r: seq<seq<LogicValue>>)
    ensures |r| == |h|
  {
    seq(|h|, i requires 0 <= i < |h| => h[i].nets)
  }

  /** The nets after each batch the loop works through. */
  function Waveform(p: Program, stop: nat, s: State, bound: nat): seq<seq<LogicValue>>
    requires Ready(p, s)
  {
    NetsOf(Batches(p, stop, s, bound))
  }

  lemma WaveformStep(p: Program, stop: nat, s: State, bound: nat)
    requires Ready(p, s)
    ensures |s.queue| == 0 || s.queue[0].time > bound ==> Waveform(p, stop, s, bound) == []
    ensures |s.queue| > 0 && s.queue[0].time <= bound ==>
              (StepReady(p, stop, s);
               var next := Step(p, stop, s);
               Waveform(p, stop, s, bound) ==
                 if next.Err? then [] else [next.value.nets] + Waveform(p, stop, next.value, bound))
  {
    hide Step;
    if |s.queue| > 0 && s.queue[0].time <= bound {
      StepReady(p, stop, s);
      var next := Step(p, stop, s);
      if next.Ok? {
        var made, rest := Moment(s.queue[0].time, next.value.nets, next.value.states), Batches(p, stop, next.value,
                                                                                               bound);
        assert NetsOf([made] + rest) == [made.nets] + NetsOf(rest);
      }
    }
  }

  /** The event loop: every storage element follows the waveform of the nets. */
  lemma {:induction false} ProcessFollows(p: Program, stop: nat, s: State, bound: nat)
    requires WellFormed(p) && Ready(p, s) && AllHeld(p, s)
    ensures var r := Process(p, stop, s, bound);
            r.Ok? ==> AllHeld(p, r.value) && AllFollow(p, s, r.value, Waveform(p, stop, s, bound))
    decreases Measure(s)
  {
    hide AllHeld, AllFollow, Step, WellFormed, Waveform;
    WaveformStep(p, stop, s, bound);
    if |s.queue| > 0 && s.queue[0].time <= bound {
      StepReady(p, stop, s);
      StepFollows(p, stop, s);
      var next := Step(p, stop, s);
      if next.Ok? {
        ProcessFollows(p, stop, next.value, bound);
        var r := Process(p, stop, s, bound);
        if r.Ok? {
          FollowsConcat(p, s, next.value, r.value, [next.value.nets], Waveform(p, stop, next.value, bound));
        }
      }
    } else {
      FollowsNothing(p, s);
    }
  }

  /** The moments of a sequence of session operations: each effective write makes one, and each batch. */
  function SessionMoments(p: Program, stop: nat, externals: set<nat>, current: nat, s: State, ops: seq<Op>)
    : seq<Moment>
    requires WellFormed(p) && Ready(p, s)
    decreases |ops|
  {
    if |ops| == 0 then []
    else
      OpMoments(p, stop, current, s, ops[0]) +
      match Apply(p, stop, externals, current, s, ops[0])
      case Ok((time, next)) => SessionMoments(p, stop, externals, time, next, ops[1..])
      case Err(_) => []
  }

  function OpMoments(p: Program, stop: nat, current: nat, s: State, op: Op): seq<Moment>
    requires WellFormed(p) && Ready(p, s)
  {
    match op
    case AdvanceTo(target) => Batches(p, stop, s, Bound(target))
    case WriteNet(net, value) =>
      if net >= |s.nets| || s.nets[net] == value then []
      else
        match Written(p, stop, current, s, net, value)
        case Ok(evaluated) =>
          [Moment(current * FS_PER_PS, evaluated.nets, evaluated.states)]
            + Batches(p, stop, evaluated, Bound(current))
        case Err(_) => []
  }

  /** The nets after each write and each batch. */
  function SessionWaveform(p: Program, stop: nat, externals: set<nat>, current: nat, s: State, ops: seq<Op>)
    : seq<seq<LogicValue>>
    requires WellFormed(p) && Ready(p, s)
  {
    NetsOf(SessionMoments(p, stop, externals, current, s, ops))
  }

  lemma NoNets()
    ensures NetsOf([]) == []
  {
  }

  lemma NetsOfConcat(a: seq<Moment>, b: seq<Moment>)
    ensures NetsOf(a + b) == NetsOf(a) + NetsOf(b)
  {
  }

  lemma OpFollows(p: Program, stop: nat, externals: set<nat>, current: nat, s: State, op: Op)
    requires WellFormed(p) && Ready(p, s) && AllHeld(p, s)
    ensures var r := Apply(p, stop, externals, current, s, op);
            r.Ok? ==> AllHeld(p, r.value.1) && AllFollow(p, s, r.value.1, NetsOf(OpMoments(p, stop, current, s, op)))
  {
    hide AllHeld, AllFollow, WellFormed, Process, Batches, Written;
    match op {
      case AdvanceTo(target) => ProcessFollows(p, stop, s, Bound(target));
      case WriteNet(net, value) =>
        FollowsNothing(p, s);
        if Apply(p, stop, externals, current, s, op).Ok? && s.nets[net] != value {
          WrittenFollows(p, stop, current, s, net, value);
          var evaluated := Written(p, stop, current, s, net, value).value;
          ProcessFollows(p, stop, evaluated, Bound(current));
          FollowsConcat(p, s, evaluated, Process(p, stop, evaluated, Bound(current)).value, [s.nets[net := value]],
                        Waveform(p, stop, evaluated, Bound(current)));
          WrittenNets(p, stop, current, s, net, value);
          var made := [Moment(current * FS_PER_PS, evaluated.nets, evaluated.states)];
          NetsOfConcat(made, Batches(p, stop, evaluated, Bound(current)));
          assert NetsOf(made) == [s.nets[net := value]];
        }
    }
  }

  lemma WrittenNets(p: Program, stop: nat, current: nat, s: State, net: nat, value: LogicValue)
    requires WellFormed(p) && Ready(p, s) && net < |s.nets|
    ensures var r := Written(p, stop, current, s, net, value); r.Ok? ==> r.value.nets == s.nets[net := value]
  {
    DependentsInRange(p, net);
    ListNets(p, stop, s.(nets := s.nets[net := value]), current * FS_PER_PS, p.dependents[net]);
  }

  /** Whole sessions, whatever is advanced and written and at whatever times. */
  lemma {:induction false} SessionFollows(p: Program, stop: nat, externals: set<nat>, current: nat, s: State,
                                          ops: seq<Op>)
    requires WellFormed(p) && Ready(p, s) && AllHeld(p, s)
    ensures var r := ApplyAll(p, stop, externals, current, s, ops);
            r.Ok? ==> AllHeld(p, r.value.1)
                      && AllFollow(p, s, r.value.1, SessionWaveform(p, stop, externals, current, s, ops))
    decreases |ops|
  {
    hide AllHeld, AllFollow, WellFormed, Apply, OpMoments, NetsOf;
    if |ops| == 0 {
      NoNets();
      FollowsNothing(p, s);
    } else {
      OpFollows(p, stop, externals, current, s, ops[0]);
      var next := Apply(p, stop, externals, current, s, ops[0]);
      if next.Ok? {
        SessionFollows(p, stop, externals, next.value.0, next.value.1, ops[1..]);
        var r := ApplyAll(p, stop, externals, current, s, ops);
        if r.Ok? {
          var rest := SessionMoments(p, stop, externals, next.value.0, next.value.1, ops[1..]);
          FollowsConcat(p, s, next.value.1, r.value.1, NetsOf(OpMoments(p, stop, current, s, ops[0])), NetsOf(rest));
          NetsOfConcat(OpMoments(p, stop, current, s, ops[0]), rest);
        }
      }
    }
  }

  /* ---- From start-up ---- */

  /**
   * A complete run of the engine. Each storage element ends as the waveform of its inputs leaves it, and its
   * drivers at the levels it stores, unless its last output would have come after the end.
   */
  lemma EngineStores(p: Program, stop: nat, c: nat)
    requires WellFormed(p) && Simulate(p, stop).Ok? && IsStore(p, c)
    ensures var (start, end, comp) := (Start(p, stop).value, Simulate(p, stop).value, p.components[c]);
            && (StartKeeps(p, stop);
                var w := Waveform(p, stop, start, stop);
                |end.states| == |p.components|
                && end.states[c] == Run(comp, RuntimeState(comp.initialScalar, comp.initialVector, X),
                                        w[Asleep(comp, w)..]))
            && Fits(comp, end.states[c])
            && ((c in end.lastEval ==> end.lastEval[c] + comp.delay <= stop) ==>
                  forall o :: 0 <= o < |comp.outputs| ==>
                    DriverValue(end.drivers, DriverKey(c, o)) == StoredLevel(comp.primitive, end.states[c], o))
  {
    hide Run, Process, WellFormed, Evaluate, SourcesProjected, UndrivenUnknown, NetsConsistent, GatesInv;
    var start, comp := Start(p, stop).value, p.components[c];
    StartKeeps(p, stop);
    StartsAsCompiled(p, stop, c);
    InvHeld(p, stop, 0, start);
    ProcessFollows(p, stop, start, stop);
    var last := ProcessKeepsAll(p, stop, 0, start);
    var end := Simulate(p, stop).value;
    assert Follows(p, start, end, c, Waveform(p, stop, start, stop));
    assert StoreInv(p, stop, last, end, c);
    if c in end.lastEval ==> end.lastEval[c] + comp.delay <= stop {
      forall o | 0 <= o < |comp.outputs|
        ensures DriverValue(end.drivers, DriverKey(c, o)) == StoredLevel(comp.primitive, end.states[c], o)
      {
        NothingPendingShows(p, stop, last, end, c, o);
      }
    }
  }

  lemma StartsAsCompiled(p: Program, stop: nat, c: nat)
    requires WellFormed(p) && Start(p, stop).Ok? && c < |p.components|
    ensures var s := Start(p, stop).value; c !in s.lastEval && s.states[c] == InitialRuntimeState(p.components[c])
  {
    hide WellFormed, StartFrom;
  }

  /** A session from start-up, advanced and written to in any way: the same, of its own waveform. */
  lemma SessionStores(p: Program, stop: nat, externals: set<nat>, ops: seq<Op>, c: nat)
    requires WellFormed(p) && Start(p, stop).Ok? && IsStore(p, c)
    ensures var (start, comp) := (Start(p, stop).value, p.components[c]);
            (StartKeeps(p, stop);
             var (r, w) := (ApplyAll(p, stop, externals, 0, start, ops),
                            SessionWaveform(p, stop, externals, 0, start, ops));
             r.Ok? ==>
               r.value.1.states[c] == Run(comp, RuntimeState(comp.initialScalar, comp.initialVector, X),
                                          w[Asleep(comp, w)..]))
  {
    hide Run, WellFormed, Evaluate, ApplyAll, SourcesProjected, UndrivenUnknown, NetsConsistent, GatesInv;
    var start := Start(p, stop).value;
    StartKeeps(p, stop);
    StartsAsCompiled(p, stop, c);
    InvHeld(p, stop, 0, start);
    SessionFollows(p, stop, externals, 0, start, ops);
    var r := ApplyAll(p, stop, externals, 0, start, ops);
    if r.Ok? {
      assert Follows(p, start, r.value.1, c, SessionWaveform(p, stop, externals, 0, start, ops));
    }
  }

  /** The clock net of `c` goes from its known inactive level to the active one with the `k`-th net state. */
  predicate ClockRises(c: Component, waveform: seq<seq<LogicValue>>, k: nat)
    requires k < |waveform| && IsEdgeTriggered(c.primitive)
  {
    var active := ActiveLevel(c.primitive.edge);
    k > 0 && Input(c, Clk, waveform[k - 1]) == active.Not() && Input(c, Clk, waveform[k]) == active
  }

  ghost predicate Wide(c: Component, waveform: seq<seq<LogicValue>>) {
    forall i, pin :: 0 <= i < |waveform| && pin in c.inputs ==> c.inputs[pin] < |waveform[i]|
  }

  lemma DFlipFlopSamples(c: Component, waveform: seq<seq<LogicValue>>, k: nat)
    requires c.primitive.DFlipFlop? && Set !in c.inputs && Reset !in c.inputs && Wide(c, waveform)
    requires k < |waveform| && ClockRises(c, waveform, k)
    requires forall i :: k < i < |waveform| ==> !ClockRises(c, waveform, i)
    ensures Run(c, InitialRuntimeState(c), waveform[Asleep(c, waveform)..]).q == Input(c, D, waveform[k]).Buffer()
  {
    hide Run, Asleep, Input, InputsUnknown, Wide;
    var n := Asleep(c, waveform);
    AwakeFrom(c, waveform, k - 1);
    var s, seen := InitialRuntimeState(c), waveform[n..];
    forall i | 0 < i < |seen|
      ensures Fires(c, s, seen, i) == ClockRises(c, waveform, i + n)
    {
      SameEdge(c, s, waveform, n, i);
    }
    NeverForced(c, seen);
    DFlipFlopHoldsLastDatum(c, s, seen, k - n);
  }

  lemma SameEdge(c: Component, s: RuntimeState, waveform: seq<seq<LogicValue>>, n: nat, i: nat)
    requires IsEdgeTriggered(c.primitive) && 0 < i && n + i < |waveform|
    ensures Fires(c, s, waveform[n..], i) == ClockRises(c, waveform, i + n)
  {
    hide Input;
    assert waveform[n..][i] == waveform[i + n] && waveform[n..][i - 1] == waveform[i + n - 1];
    BufferIsKnown(Input(c, Clk, waveform[i + n - 1]), ActiveLevel(c.primitive.edge).Not());
  }

  lemma BufferIsKnown(v: LogicValue, known: LogicValue)
    requires known.IsKnown()
    ensures v.Buffer() == known <==> v == known
  {
  }

  lemma NeverForced(c: Component, steps: seq<seq<LogicValue>>)
    requires Set !in c.inputs && Reset !in c.inputs
    ensures forall i :: 0 <= i < |steps| ==> !IsForced(c, steps[i])
  {
  }

  lemma {:induction false} AwakeFrom(c: Component, waveform: seq<seq<LogicValue>>, k: nat)
    requires k + 1 < |waveform| && IsEdgeTriggered(c.primitive) && Wide(c, waveform)
    requires var active := ActiveLevel(c.primitive.edge);
             Input(c, Clk, waveform[k]) == active.Not() && Input(c, Clk, waveform[k + 1]) == active
    ensures Asleep(c, waveform) <= k
    decreases k
  {
    if k == 0 {
      assert Clk in c.inputs && waveform[0][c.inputs[Clk]] != X;
    } else if InputsUnknown(c, waveform[0]) {
      AwakeFrom(c, waveform[1..], k - 1);
    }
  }

  lemma {:induction false} WaveformIsWide(p: Program, stop: nat, s: State, bound: nat, c: nat)
    requires WellFormed(p) && Ready(p, s) && c < |p.components|
    ensures Wide(p.components[c], Waveform(p, stop, s, bound))
    decreases Measure(s)
  {
    hide Step, Waveform;
    assert WellFormedComponent(p.components[c], |p.drivers|);
    WaveformStep(p, stop, s, bound);
    if |s.queue| > 0 && s.queue[0].time <= bound {
      StepReady(p, stop, s);
      var next := Step(p, stop, s);
      if next.Ok? {
        WaveformIsWide(p, stop, next.value, bound, c);
      }
    }
  }

  /**
   * What it comes to for a D flip-flop without set and reset: whatever else happens in the circuit, it ends a run
   * holding what its data net was when its clock net last rose (or fell), and driving its first output so.
   */
  lemma FlipFlopsSample(p: Program, stop: nat, c: nat, k: nat)
    requires WellFormed(p) && Simulate(p, stop).Ok? && IsStore(p, c)
    requires var comp := p.components[c]; comp.primitive.DFlipFlop? && Set !in comp.inputs && Reset !in comp.inputs
    requires (StartKeeps(p, stop);
              var w := Waveform(p, stop, Start(p, stop).value, stop);
              && k < |w| && ClockRises(p.components[c], w, k)
              && forall i :: k < i < |w| ==> !ClockRises(p.components[c], w, i))
    ensures var (end, comp) := (Simulate(p, stop).value, p.components[c]);
            (StartKeeps(p, stop);
             var datum := Input(comp, D, Waveform(p, stop, Start(p, stop).value, stop)[k]).Buffer();
             && |end.states| == |p.components| && end.states[c].q == datum
             && (|comp.outputs| > 0 && (c in end.lastEval ==> end.lastEval[c] + comp.delay <= stop) ==>
                   DriverValue(end.drivers, DriverKey(c, 0)) == datum))
  {
    hide Run, WellFormed, Waveform, Asleep, ClockRises;
    StartKeeps(p, stop);
    EngineStores(p, stop, c);
    WaveformIsWide(p, stop, Start(p, stop).value, stop, c);
    DFlipFlopSamples(p.components[c], Waveform(p, stop, Start(p, stop).value, stop), k);
  }
}
