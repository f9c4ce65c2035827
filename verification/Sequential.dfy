/**
 * Storage elements over whole sequences of evaluations: what a latch, flip-flop, register or counter holds is
 * read off the history of its input nets, without its stored clock.
 */
module Sequential {
  import opened Wrappers
  import opened Logic
  import opened Circuit

  /** The state after evaluations on the net states `steps`, in order. */
  function Run(c: Component, s: RuntimeState, steps: seq<seq<LogicValue>>): RuntimeState
    decreases |steps|
  {
    if |steps| == 0 then s
    else Evaluate(c, steps[|steps| - 1], Run(c, s, steps[..|steps| - 1])).0
  }

  /* ---- The history of the nets ---- */

  /** The clock read by the evaluation before the `k`-th; before the first, what the element starts with. */
  function ClockBefore(c: Component, s: RuntimeState, steps: seq<seq<LogicValue>>, k: nat): LogicValue
    requires k <= |steps|
  {
    if k == 0 then s.previousClock else Input(c, Clk, steps[k - 1]).Buffer()
  }

  function ActiveLevel(edge: EdgeKind): LogicValue {
    if edge == Rising then One else Zero
  }

  predicate IsEdgeTriggered(p: Primitive) {
    p.IsFlipFlop() || p.IsVector()
  }

  /** The clock went from the known inactive level to the active one between evaluation `k` and the one before. */
  predicate Fires(c: Component, s: RuntimeState, steps: seq<seq<LogicValue>>, k: nat)
    requires k < |steps| && IsEdgeTriggered(c.primitive)
  {
    var active := ActiveLevel(c.primitive.edge);
    ClockBefore(c, s, steps, k) == active.Not() && Input(c, Clk, steps[k]) == active
  }

  /** A set and a clear input, neither of which reads 0 twice over: the level they agree on, or X. */
  function Forced(set': LogicValue, clear: LogicValue): LogicValue {
    if set'.IsKnown() && clear == set'.Not() then set' else X
  }

  /** Set or reset is not at 0. */
  predicate IsForced(c: Component, nets: seq<LogicValue>) {
    Input(c, Set, nets) != Zero || Input(c, Reset, nets) != Zero
  }

  /* ---- The clock is remembered ---- */

  lemma ClockIsRemembered(c: Component, nets: seq<LogicValue>, s: RuntimeState)
    requires IsEdgeTriggered(c.primitive)
    ensures Evaluate(c, nets, s).0.previousClock == Input(c, Clk, nets).Buffer()
  {
  }

  lemma {:induction false} RunRemembersClock(c: Component, s: RuntimeState, steps: seq<seq<LogicValue>>)
    requires IsEdgeTriggered(c.primitive)
    ensures Run(c, s, steps).previousClock == ClockBefore(c, s, steps, |steps|)
  {
    if |steps| > 0 {
      ClockIsRemembered(c, steps[|steps| - 1], Run(c, s, steps[..|steps| - 1]));
    }
  }

  /* ---- Flip-flops ---- */

  /** Every flip-flop as one with a set-like and a clear-like data input. */
  function SetLike(c: Component, nets: seq<LogicValue>): LogicValue
    requires c.primitive.IsFlipFlop()
  {
    match c.primitive
    case DFlipFlop(_) => Input(c, D, nets)
    case JKFlipFlop(_) => Input(c, J, nets)
    case TFlipFlop(_) => Input(c, T, nets)
    case SRFlipFlop(_) => Input(c, S, nets)
  }

  function ClearLike(c: Component, nets: seq<LogicValue>): LogicValue
    requires c.primitive.IsFlipFlop()
  {
    match c.primitive
    case DFlipFlop(_) => Input(c, D, nets).Not()
    case JKFlipFlop(_) => Input(c, K, nets)
    case TFlipFlop(_) => Input(c, T, nets)
    case SRFlipFlop(_) => Input(c, R, nets)
  }

  /** The data ask for the present level to be kept, or (except of an SR flip-flop) inverted. */
  predicate Keeps(c: Component, nets: seq<LogicValue>)
    requires c.primitive.IsFlipFlop()
  {
    SetLike(c, nets) == Zero == ClearLike(c, nets)
  }

  predicate Toggles(c: Component, nets: seq<LogicValue>)
    requires c.primitive.IsFlipFlop()
  {
    SetLike(c, nets) == One == ClearLike(c, nets) && !c.primitive.SRFlipFlop?
  }

  /** Evaluation `k` fixes the stored level, whatever it was. */
  predicate Decides(c: Component, s: RuntimeState, steps: seq<seq<LogicValue>>, k: nat)
    requires k < |steps| && c.primitive.IsFlipFlop()
  {
    IsForced(c, steps[k]) || (Fires(c, s, steps, k) && !Keeps(c, steps[k]) && !Toggles(c, steps[k]))
  }

  /** The level that a deciding evaluation stores: set and reset come first. */
  function Decision(c: Component, nets: seq<LogicValue>): LogicValue
    requires c.primitive.IsFlipFlop()
  {
    if IsForced(c, nets) then Forced(Input(c, Set, nets), Input(c, Reset, nets))
    else Forced(SetLike(c, nets), ClearLike(c, nets))
  }

  /** How many evaluations from `from` on invert the stored level. */
  function ToggleCount(c: Component, s: RuntimeState, steps: seq<seq<LogicValue>>, from: nat): nat
    requires c.primitive.IsFlipFlop() && from <= |steps|
    decreases |steps|
  {
    if from == |steps| then 0
    else
      var last := |steps| - 1;
      ToggleCount(c, s, steps[..last], from) + if Fires(c, s, steps, last) && Toggles(c, steps[last]) then 1 else 0
  }

  function Inverted(v: LogicValue, times: nat): LogicValue {
    if times == 0 then v else if times % 2 == 1 then v.Not() else v.Buffer()
  }

  /** No evaluation from `from` on fixes the level. */
  ghost predicate Undecided(c: Component, s: RuntimeState, steps: seq<seq<LogicValue>>, from: nat)
    requires c.primitive.IsFlipFlop()
  {
    forall k :: from <= k < |steps| ==> !Decides(c, s, steps, k)
  }

  /** A D flip-flop that starts out floating loses that level when it sees an unknown clock. */
  function Initial(c: Component, s: RuntimeState, steps: seq<seq<LogicValue>>): LogicValue {
    if c.primitive.DFlipFlop? && exists k :: 0 <= k < |steps| && Input(c, Clk, steps[k]).Buffer() == X then s.q.Buffer()
    else s.q
  }

  /** What a flip-flop holds since evaluation `from - 1` decided, or since the start. */
  function Held(c: Component, s: RuntimeState, steps: seq<seq<LogicValue>>, from: nat): LogicValue
    requires c.primitive.IsFlipFlop() && from <= |steps|
  {
    Inverted(if from == 0 then Initial(c, s, steps) else Decision(c, steps[from - 1]),
             ToggleCount(c, s, steps, from))
  }

  lemma FlipFlopStep(c: Component, s: RuntimeState, steps: seq<seq<LogicValue>>)
    requires c.primitive.IsFlipFlop() && |steps| > 0
    ensures var last := |steps| - 1;
            var (before, after) := (Run(c, s, steps[..last]).q, Run(c, s, steps).q);
            if Decides(c, s, steps, last) then after == Decision(c, steps[last])
            else if Fires(c, s, steps, last) && Toggles(c, steps[last]) then after == before.Not()
            else if c.primitive.DFlipFlop? && Input(c, Clk, steps[last]).Buffer() == X then after == before.Buffer()
            else after == before
  {
    var last := |steps| - 1;
    RunRemembersClock(c, s, steps[..last]);
    assert ClockBefore(c, s, steps[..last], last) == ClockBefore(c, s, steps, last);
    FlipFlopOnce(c, steps[last], Run(c, s, steps[..last]));
  }

  lemma FlipFlopOnce(c: Component, nets: seq<LogicValue>, s: RuntimeState)
    requires c.primitive.IsFlipFlop()
    ensures var (after, fires) := (Evaluate(c, nets, s).0.q, Fires(c, s, [nets], 0));
            if Decides(c, s, [nets], 0) then after == Decision(c, nets)
            else if fires && Toggles(c, nets) then after == s.q.Not()
            else if c.primitive.DFlipFlop? && Input(c, Clk, nets).Buffer() == X then after == s.q.Buffer()
            else after == s.q
  {
  }

  /** Dropping the last evaluation does not change what the others did. */
  lemma SamePrefix(c: Component, s: RuntimeState, steps: seq<seq<LogicValue>>, k: nat)
    requires k + 1 < |steps| && IsEdgeTriggered(c.primitive)
    ensures Fires(c, s, steps[..|steps| - 1], k) == Fires(c, s, steps, k) && steps[..|steps| - 1][k] == steps[k]
  {
  }

  lemma InvertedOnce(v: LogicValue, times: nat)
    ensures Inverted(v, times).Not() == Inverted(v, times + 1)
    ensures Inverted(v, times).Buffer() == Inverted(v.Buffer(), times)
  {
  }

  lemma DecisionIsNoZ(c: Component, nets: seq<LogicValue>)
    requires c.primitive.IsFlipFlop()
    ensures Decision(c, nets).Buffer() == Decision(c, nets)
  {
  }

  lemma InitialStep(c: Component, s: RuntimeState, steps: seq<seq<LogicValue>>)
    requires |steps| > 0
    ensures var before := Initial(c, s, steps[..|steps| - 1]);
            Initial(c, s, steps) ==
              if c.primitive.DFlipFlop? && Input(c, Clk, steps[|steps| - 1]).Buffer() == X then before.Buffer()
              else before
  {
    hide Input;
    var last := |steps| - 1;
    if exists k :: 0 <= k < |steps| && Input(c, Clk, steps[k]).Buffer() == X {
      var k :| 0 <= k < |steps| && Input(c, Clk, steps[k]).Buffer() == X;
      assert k < last ==> steps[..last][k] == steps[k];
    } else {
      assert forall k :: 0 <= k < last ==> steps[..last][k] == steps[k];
    }
  }

  /** Over any evaluations, a flip-flop holds what its last decision, and the inversions since, have made of it. */
  lemma {:induction false} FlipFlopHolds(c: Component, s: RuntimeState, steps: seq<seq<LogicValue>>, from: nat)
    requires c.primitive.IsFlipFlop() && from <= |steps| && Undecided(c, s, steps, from)
    requires from == 0 || Decides(c, s, steps, from - 1)
    ensures Run(c, s, steps).q == Held(c, s, steps, from)
    decreases |steps|
  {
    hide Run, Decision, Fires, Toggles, IsForced, Keeps, Initial, Inverted;
    if from == |steps| {
      InvertedNever(c, s, steps);
      if from > 0 {
        FlipFlopStep(c, s, steps);
      }
    } else {
      var last := |steps| - 1;
      var prefix := steps[..last];
      forall k | from <= k < last
        ensures !Decides(c, s, prefix, k)
      {
        SamePrefix(c, s, steps, k);
        assert !Decides(c, s, steps, k);
      }
      if from > 0 {
        SamePrefix(c, s, steps, from - 1);
      }
      FlipFlopHolds(c, s, prefix, from);
      FlipFlopStep(c, s, steps);
      assert !Decides(c, s, steps, last);
      var base := if from == 0 then Initial(c, s, prefix) else Decision(c, steps[from - 1]);
      InvertedOnce(base, ToggleCount(c, s, prefix, from));
      InitialStep(c, s, steps);
      if c.primitive.DFlipFlop? {
        DFlipFlopNeverToggles(c, steps[last]);
      }
      if from > 0 {
        DecisionIsNoZ(c, steps[from - 1]);
      }
    }
  }

  lemma DFlipFlopNeverToggles(c: Component, nets: seq<LogicValue>)
    requires c.primitive.DFlipFlop?
    ensures !Toggles(c, nets)
  {
  }

  /** With nothing evaluated since. */
  lemma InvertedNever(c: Component, s: RuntimeState, steps: seq<seq<LogicValue>>)
    ensures Inverted(Initial(c, s, steps), 0) == Initial(c, s, steps)
    ensures |steps| == 0 ==> Initial(c, s, steps) == s.q && Run(c, s, steps) == s
    ensures forall v :: Inverted(v, 0) == v
  {
  }

  /** In particular, without set and reset, a D flip-flop holds the datum of the last active clock edge. */
  lemma DFlipFlopHoldsLastDatum(c: Component, s: RuntimeState, steps: seq<seq<LogicValue>>, k: nat)
    requires c.primitive.DFlipFlop? && k < |steps| && Fires(c, s, steps, k)
    requires forall i :: k < i < |steps| ==> !Fires(c, s, steps, i)
    requires forall i :: 0 <= i < |steps| ==> !IsForced(c, steps[i])
    ensures Run(c, s, steps).q == Input(c, D, steps[k]).Buffer()
  {
    hide Run, Fires, IsForced, Input;
    FlipFlopHolds(c, s, steps, k + 1);
    NeverToggled(c, s, steps, k + 1);
  }

  lemma {:induction false} NeverToggled(c: Component, s: RuntimeState, steps: seq<seq<LogicValue>>, from: nat)
    requires c.primitive.DFlipFlop? && from <= |steps|
    ensures ToggleCount(c, s, steps, from) == 0
    decreases |steps|
  {
    if from < |steps| {
      NeverToggled(c, s, steps[..|steps| - 1], from);
      DFlipFlopNeverToggles(c, steps[|steps| - 1]);
    }
  }

  /* ---- Latches ---- */

  /** Evaluation on `nets` fixes a latch's level: forced, or transparent, or set or cleared. */
  predicate LatchDecides(c: Component, nets: seq<LogicValue>)
    requires c.primitive.IsLatch()
  {
    || IsForced(c, nets)
    || (if c.primitive.DLatch? then Input(c, Enable, nets) != Zero
        else Input(c, S, nets) != Zero || Input(c, R, nets) != Zero)
  }

  function LatchDecision(c: Component, nets: seq<LogicValue>): LogicValue
    requires c.primitive.IsLatch()
  {
    if IsForced(c, nets) then Forced(Input(c, Set, nets), Input(c, Reset, nets))
    else if c.primitive.SRLatch? then Forced(Input(c, S, nets), Input(c, R, nets))
    else if Input(c, Enable, nets) == One then Input(c, D, nets).Buffer()
    else X
  }

  lemma LatchOnce(c: Component, nets: seq<LogicValue>, s: RuntimeState)
    requires c.primitive.IsLatch()
    ensures Evaluate(c, nets, s).0.q == if LatchDecides(c, nets) then LatchDecision(c, nets) else s.q
  {
  }

  /** Over any evaluations, a latch holds what its last decision made of it, or its initial level. */
  lemma {:induction false} LatchHolds(c: Component, s: RuntimeState, steps: seq<seq<LogicValue>>, from: nat)
    requires c.primitive.IsLatch() && from <= |steps|
    requires forall k :: from <= k < |steps| ==> !LatchDecides(c, steps[k])
    requires from == 0 || LatchDecides(c, steps[from - 1])
    ensures Run(c, s, steps).q == if from == 0 then s.q else LatchDecision(c, steps[from - 1])
    decreases |steps|
  {
    hide LatchDecides, LatchDecision, Evaluate;
    if |steps| > 0 {
      var last := |steps| - 1;
      LatchOnce(c, steps[last], Run(c, s, steps[..last]));
      if from <= last {
        LatchHolds(c, s, steps[..last], from);
      }
    }
  }

  /* ---- Registers and counters ---- */

  /** An unconnected enable enables. */
  function EnableLevel(c: Component, nets: seq<LogicValue>): LogicValue {
    if Enable in c.inputs then Input(c, Enable, nets).Buffer() else One
  }

  predicate IsCleared(c: Component, nets: seq<LogicValue>) {
    Input(c, Reset, nets) == One
  }

  lemma {:induction false} WidthIsKept(c: Component, s: RuntimeState, steps: seq<seq<LogicValue>>)
    requires c.primitive.IsVector() && |s.bits| == c.primitive.width
    ensures |Run(c, s, steps).bits| == c.primitive.width
    decreases |steps|
  {
    if |steps| > 0 {
      WidthIsKept(c, s, steps[..|steps| - 1]);
    }
  }

  /** Evaluation `k` fixes all bits of a register. */
  predicate Loads(c: Component, s: RuntimeState, steps: seq<seq<LogicValue>>, k: nat)
    requires k < |steps| && c.primitive.Register?
  {
    IsCleared(c, steps[k]) || (Fires(c, s, steps, k) && EnableLevel(c, steps[k]) != Zero)
  }

  /** Bit `i` as loaded: reset comes first, and an unknown enable makes it unknown. */
  function LoadedBit(c: Component, nets: seq<LogicValue>, i: nat): LogicValue {
    if IsCleared(c, nets) then Zero
    else if EnableLevel(c, nets) == One then Input(c, Data(i), nets).Buffer()
    else X
  }

  lemma RegisterStep(c: Component, s: RuntimeState, steps: seq<seq<LogicValue>>, i: nat)
    requires c.primitive.Register? && |s.bits| == c.primitive.width && i < c.primitive.width && |steps| > 0
    ensures var (last, after) := (|steps| - 1, Run(c, s, steps).bits);
            if Loads(c, s, steps, last) then i < |after| && after[i] == LoadedBit(c, steps[last], i)
            else after == Run(c, s, steps[..last]).bits
  {
    hide Run, LoadedBit, IsCleared, EnableLevel, Evaluate;
    var last := |steps| - 1;
    RunRemembersClock(c, s, steps[..last]);
    WidthIsKept(c, s, steps[..last]);
    assert ClockBefore(c, s, steps[..last], last) == ClockBefore(c, s, steps, last);
    RegisterOnce(c, steps[last], Run(c, s, steps[..last]), i);
    RunUnfolds(c, s, steps);
  }

  lemma RunUnfolds(c: Component, s: RuntimeState, steps: seq<seq<LogicValue>>)
    requires |steps| > 0
    ensures Run(c, s, steps) == Evaluate(c, steps[|steps| - 1], Run(c, s, steps[..|steps| - 1])).0
  {
  }

  lemma RegisterOnce(c: Component, nets: seq<LogicValue>, s: RuntimeState, i: nat)
    requires c.primitive.Register? && |s.bits| == c.primitive.width && i < c.primitive.width
    ensures var after := Evaluate(c, nets, s).0.bits;
            if Loads(c, s, [nets], 0) then i < |after| && after[i] == LoadedBit(c, nets, i) else after == s.bits
  {
  }

  /** Over any evaluations, a register of any width holds the data of the last enabled edge, zeros, or unknowns. */
  lemma {:induction false} RegisterHolds(c: Component, s: RuntimeState, steps: seq<seq<LogicValue>>, from: nat, i: nat)
    requires c.primitive.Register? && |s.bits| == c.primitive.width && i < c.primitive.width && from <= |steps|
    requires forall k :: from <= k < |steps| ==> !Loads(c, s, steps, k)
    requires from == 0 || Loads(c, s, steps, from - 1)
    ensures |Run(c, s, steps).bits| == c.primitive.width
    ensures Run(c, s, steps).bits[i] == if from == 0 then s.bits[i] else LoadedBit(c, steps[from - 1], i)
    decreases |steps|
  {
    hide LoadedBit, Evaluate, Fires, IsCleared, EnableLevel;
    WidthIsKept(c, s, steps);
    if |steps| > 0 {
      var last := |steps| - 1;
      RegisterStep(c, s, steps, i);
      if from <= last {
        forall k | from <= k < last
          ensures !Loads(c, s, steps[..last], k)
        {
          SamePrefix(c, s, steps, k);
          assert !Loads(c, s, steps, k);
        }
        if from > 0 {
          SamePrefix(c, s, steps, from - 1);
        }
        RegisterHolds(c, s, steps[..last], from, i);
      }
    }
  }

  /** Evaluation `k` fixes a counter: it is cleared, or an edge under an unknown enable makes it unknown. */
  predicate Resets(c: Component, s: RuntimeState, steps: seq<seq<LogicValue>>, k: nat)
    requires k < |steps| && c.primitive.Counter?
  {
    IsCleared(c, steps[k]) || (Fires(c, s, steps, k) && EnableLevel(c, steps[k]) == X)
  }

  function ResetBits(c: Component, nets: seq<LogicValue>): seq<LogicValue>
    requires c.primitive.Counter?
  {
    Repeat(if IsCleared(c, nets) then Zero else X, c.primitive.width)
  }

  /** How many enabled edges there are from evaluation `from` on. */
  function Count(c: Component, s: RuntimeState, steps: seq<seq<LogicValue>>, from: nat): nat
    requires c.primitive.Counter? && from <= |steps|
    decreases |steps|
  {
    if from == |steps| then 0
    else
      var last := |steps| - 1;
      Count(c, s, steps[..last], from) +
      if Fires(c, s, steps, last) && EnableLevel(c, steps[last]) == One then 1 else 0
  }

  /** `bits` is `base` counted up `n` times; nothing but unknowns can come of counting unknown bits. */
  ghost predicate CountedUp(base: seq<LogicValue>, n: nat, bits: seq<LogicValue>) {
    && |bits| == |base|
    && if n == 0 then bits == base
       else if AllKnown(base) then AllKnown(bits) && ValueOf(bits) == (ValueOf(base) + n) % Pow2(|base|)
       else forall i :: 0 <= i < |bits| ==> bits[i] == X
  }

  lemma CountedOnce(base: seq<LogicValue>, n: nat, bits: seq<LogicValue>)
    requires CountedUp(base, n, bits) && 1 <= |base| <= MAX_BUS_WIDTH
    ensures CountedUp(base, n + 1, IncrementBits(bits))
  {
    hide ValueOf, Pow2, BitsOf;
    if AllKnown(base) {
      IncrementCounts(bits);
      if n > 0 {
        RemainderStep(ValueOf(base) + n, Pow2(|base|));
      }
    } else {
      assert !AllKnown(bits) by {
        if n > 0 {
          assert bits[0] == X;
        }
      }
    }
  }

  lemma RemainderStep(value: nat, m: nat)
    requires m > 0
    ensures (value % m + 1) % m == (value + 1) % m
  {
    var q := (value % m + 1) / m;
    assert value + 1 == (value / m + q) * m + (value % m + 1) % m by {
      assert (value / m + q) * m == value / m * m + q * m;
    }
    DivModUnique(value + 1, m, value / m + q, (value % m + 1) % m);
  }

  lemma CounterOnce(c: Component, nets: seq<LogicValue>, s: RuntimeState)
    requires c.primitive.Counter?
    ensures Evaluate(c, nets, s).0.bits ==
              if Resets(c, s, [nets], 0) then ResetBits(c, nets)
              else if Fires(c, s, [nets], 0) && EnableLevel(c, nets) == One then IncrementBits(s.bits)
              else s.bits
  {
    hide IncrementBits;
  }

  lemma CounterStep(c: Component, s: RuntimeState, steps: seq<seq<LogicValue>>)
    requires c.primitive.Counter? && |steps| > 0
    ensures var last := |steps| - 1;
            var before := Run(c, s, steps[..last]).bits;
            Run(c, s, steps).bits ==
              if Resets(c, s, steps, last) then ResetBits(c, steps[last])
              else if Fires(c, s, steps, last) && EnableLevel(c, steps[last]) == One then IncrementBits(before)
              else before
  {
    hide IncrementBits, Run;
    var last := |steps| - 1;
    RunRemembersClock(c, s, steps[..last]);
    assert ClockBefore(c, s, steps[..last], last) == ClockBefore(c, s, steps, last);
    CounterOnce(c, steps[last], Run(c, s, steps[..last]));
    RunUnfolds(c, s, steps);
  }

  /**
   * Over any evaluations, a counter of width 1 to 64 shows how often it was enabled on an active edge since it
   * was last cleared (or from its initial value on), modulo two to its width.
   */
  lemma {:induction false} CounterHolds(c: Component, s: RuntimeState, steps: seq<seq<LogicValue>>, from: nat)
    requires c.primitive.Counter? && 1 <= c.primitive.width <= MAX_BUS_WIDTH && |s.bits| == c.primitive.width
    requires from <= |steps| && forall k :: from <= k < |steps| ==> !Resets(c, s, steps, k)
    requires from == 0 || Resets(c, s, steps, from - 1)
    ensures CountedUp(if from == 0 then s.bits else ResetBits(c, steps[from - 1]), Count(c, s, steps, from),
                      Run(c, s, steps).bits)
    decreases |steps|
  {
    hide CountedUp, Evaluate, Fires, IsCleared, EnableLevel, IncrementBits;
    var base := if from == 0 then s.bits else ResetBits(c, steps[from - 1]);
    if from == |steps| {
      CountedNever(base);
      if from > 0 {
        CounterStep(c, s, steps);
      }
    } else {
      var last := |steps| - 1;
      CounterStep(c, s, steps);
      forall k | from <= k < last
        ensures !Resets(c, s, steps[..last], k)
      {
        SamePrefix(c, s, steps, k);
        assert !Resets(c, s, steps, k);
      }
      if from > 0 {
        SamePrefix(c, s, steps, from - 1);
      }
      CounterHolds(c, s, steps[..last], from);
      CountedOnce(base, Count(c, s, steps[..last], from), Run(c, s, steps[..last]).bits);
    }
  }

  lemma CountedNever(base: seq<LogicValue>)
    ensures CountedUp(base, 0, base)
  {
  }

  /* ---- What an evaluation shows ---- */

  /** What compilation and every evaluation guarantee of a stored vector. */
  predicate Fits(c: Component, s: RuntimeState) {
    c.primitive.IsVector() ==> |s.bits| == c.primitive.width == |c.outputs|
  }

  /** The outputs of an evaluation are the levels then stored: the level and its complement, or the bits. */
  lemma OutputsShowStore(c: Component, nets: seq<LogicValue>, s: RuntimeState)
    requires c.primitive.IsStateful() && Fits(c, s) && (!c.primitive.IsVector() ==> |c.outputs| <= 2)
    ensures var (after, out) := Evaluate(c, nets, s);
            && Fits(c, after) && out.Some? && |out.value| == |c.outputs|
            && forall o :: 0 <= o < |c.outputs| ==> out.value[o] == StoredLevel(c.primitive, after, o)
  {
  }

  /** Evaluating again on the same nets changes nothing. */
  lemma EvaluateIsIdempotent(c: Component, nets: seq<LogicValue>, s: RuntimeState)
    ensures var after := Evaluate(c, nets, s).0; Evaluate(c, nets, after) == Evaluate(c, nets, s)
  {
  }
}
