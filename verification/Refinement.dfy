/**
 * When learning more about unknown inputs can never contradict what a primitive already said: for every
 * primitive, and exactly when for the edge-triggered ones.
 */
module Refinement {
  import opened Wrappers
  import opened Logic
  import opened Circuit

  /* ---- What the control pins decide ---- */

  /** Put a fixed value into every stored bit, take in the data, or keep what is stored. */
  datatype Control = Force(value: LogicValue) | Capture | Keep

  predicate IsEdgeTriggered(p: Primitive) {
    p.IsFlipFlop() || p.IsVector()
  }

  predicate SeesEdge(c: Component, nets: seq<LogicValue>, previousClock: LogicValue)
    requires IsEdgeTriggered(c.primitive)
  {
    IsEdge(previousClock, Input(c, Clk, nets).Buffer(), c.primitive.edge)
  }

  /** The decision of clock, set, reset and enable for an edge-triggered component. */
  function Decide(c: Component, nets: seq<LogicValue>, previousClock: LogicValue): Control
    requires IsEdgeTriggered(c.primitive)
  {
    if c.primitive.IsFlipFlop() then
      match AsyncSetReset(c, nets)
      case Some(v) => Force(v)
      case None => if SeesEdge(c, nets, previousClock) then Capture else Keep
    else
      var enable := if Enable in c.inputs then Input(c, Enable, nets).Buffer() else One;
      if Reset in c.inputs && Input(c, Reset, nets) == One then Force(Zero)
      else if !SeesEdge(c, nets, previousClock) || enable == Zero then Keep
      else if enable == One then Capture
      else Force(X)
  }

  /** The two decisions agree, or the less informed one was to know nothing. */
  predicate SafeControl(c: Component, low: seq<LogicValue>, high: seq<LogicValue>, prevLow: LogicValue,
                        prevHigh: LogicValue) {
    IsEdgeTriggered(c.primitive) ==>
      Decide(c, low, prevLow) == Force(X) || Decide(c, low, prevLow) == Decide(c, high, prevHigh)
  }

  /* ---- Safe refinements ---- */

  /** Everything evaluation yields from the less informed side is refined by what it yields from the other. */
  ghost predicate EvaluationRefines(c: Component, low: seq<LogicValue>, high: seq<LogicValue>, s: RuntimeState,
                                    t: RuntimeState) {
    var (s', out) := Evaluate(c, low, s);
    var (t', out') := Evaluate(c, high, t);
    && Refines(s'.q, t'.q) && RefinesAll(s'.bits, t'.bits)
    && (Refines(s.previousClock, t.previousClock) ==> Refines(s'.previousClock, t'.previousClock))
    && out.Some? == out'.Some?
    && (out.Some? ==> RefinesAll(out.value, out'.value))
  }

  /** The stored parts refine each other and fit the component. */
  ghost predicate StoredRefines(c: Component, s: RuntimeState, t: RuntimeState) {
    && Refines(s.q, t.q) && RefinesAll(s.bits, t.bits)
    && (c.primitive.IsVector() ==> |s.bits| == c.primitive.width)
  }

  lemma FlipFlopMonotone(c: Component, low: seq<LogicValue>, high: seq<LogicValue>, s: RuntimeState, t: RuntimeState)
    requires c.primitive.IsFlipFlop() && RefinesAll(low, high) && Refines(s.q, t.q)
    requires SafeControl(c, low, high, s.previousClock, t.previousClock)
    ensures Refines(FlipFlopNext(c, low, s), FlipFlopNext(c, high, t))
  {
    hide EdgeNext, RefinesAll, Input;
    InputMonotone(c, Clk, low, high);
    AsyncMonotone(c, low, high);
    EdgeMonotone(c, low, high, s.q, t.q);
  }

  lemma VectorMonotone(c: Component, low: seq<LogicValue>, high: seq<LogicValue>, s: RuntimeState, t: RuntimeState)
    requires c.primitive.IsVector() && RefinesAll(low, high) && RefinesAll(s.bits, t.bits)
    requires |s.bits| == c.primitive.width
    requires SafeControl(c, low, high, s.previousClock, t.previousClock)
    ensures RefinesAll(VectorNext(c, low, s), VectorNext(c, high, t))
  {
    InputMonotone(c, Enable, low, high);
    IncrementMonotone(s.bits, t.bits);
    forall i: nat | i < c.primitive.width
      ensures Refines(DataInputs(c, low, c.primitive.width)[i], DataInputs(c, high, c.primitive.width)[i])
    {
      InputMonotone(c, Data(i), low, high);
    }
    hide Input, IncrementBits;
  }

  /** Every primitive is monotone in its inputs and stored state, the edge-triggered ones under safe control. */
  lemma EvaluateMonotone(c: Component, low: seq<LogicValue>, high: seq<LogicValue>, s: RuntimeState, t: RuntimeState)
    requires RefinesAll(low, high) && StoredRefines(c, s, t)
    requires SafeControl(c, low, high, s.previousClock, t.previousClock)
    ensures EvaluationRefines(c, low, high, s, t)
  {
    InputMonotone(c, Clk, low, high);
    if c.primitive.IsCombinational() {
      CombMonotone(c, low, high);
    } else if c.primitive.IsLatch() {
      LatchMonotone(c, low, high, s.q, t.q);
    } else if c.primitive.IsFlipFlop() {
      FlipFlopMonotone(c, low, high, s, t);
    } else if c.primitive.IsVector() {
      VectorMonotone(c, low, high, s, t);
    }
    hide Input, CombOutputs, LatchNext, FlipFlopNext, VectorNext;
  }

  /* ---- Unsafe refinements ---- */

  predicate IsControlPin(pin: Pin) {
    pin == Clk || pin == Set || pin == Reset || pin == Enable
  }

  /** `d` is `c` with its data pins wired anew; the nets may have grown. */
  ghost predicate Rewired(c: Component, d: Component, low: seq<LogicValue>, high: seq<LogicValue>,
                          low': seq<LogicValue>,
                          high': seq<LogicValue>)
  {
    && d.primitive == c.primitive && d.outputs == c.outputs && low <= low' && high <= high'
    && forall pin :: IsControlPin(pin) ==>
         (pin in c.inputs <==> pin in d.inputs) && (pin in c.inputs ==> d.inputs[pin] == c.inputs[pin] < |low|)
  }

  lemma RewiringKeepsControl(c: Component, d: Component, low: seq<LogicValue>, high: seq<LogicValue>,
                             low': seq<LogicValue>,
                             high': seq<LogicValue>, prevLow: LogicValue, prevHigh: LogicValue)
    requires Rewired(c, d, low, high, low', high') && |low| == |high| && IsEdgeTriggered(c.primitive)
    ensures Decide(d, low', prevLow) == Decide(c, low, prevLow)
        && Decide(d, high', prevHigh) == Decide(c, high, prevHigh)
  {
    hide RefinesAll, IsEdge;
    forall pin | IsControlPin(pin)
      ensures Input(d, pin, low') == Input(c, pin, low) && Input(d, pin, high') == Input(c, pin, high)
    {
    }
  }

  function DataPins(width: nat, net: nat): (r: map<Pin, nat>)
    ensures forall i: nat :: i < width ==> Data(i) in r
    ensures forall pin :: pin in r ==> pin.Data? && r[pin] == net
  {
    if width == 0 then map[] else DataPins(width - 1, net)[Data(width - 1) := net]
  }

  /** All data pins of `c` wired to two new nets, the first for what sets a bit and the second for what clears it. */
  function WithData(c: Component, one: nat, zero: nat): Component {
    var width := if c.primitive.IsVector() then c.primitive.width else 0;
    c.(inputs := c.inputs + DataPins(width, one) + map[D := one, J := one, T := one, S := one, K := zero, R := zero])
  }

  lemma WithDataRewires(c: Component, low: seq<LogicValue>, high: seq<LogicValue>)
    requires forall pin :: pin in c.inputs ==> c.inputs[pin] < |low|
    ensures Rewired(c, WithData(c, |low|, |low| + 1), low, high, low + [One, Zero], high + [One, Zero])
  {
  }

  /** With the data pins at one and the stored state at zero, capturing and keeping differ. */
  lemma FlipFlopCaptures(c: Component, nets: seq<LogicValue>, s: RuntimeState)
    requires c.primitive.IsFlipFlop() && s.q == Zero
    requires Input(c, D, nets) == Input(c, J, nets) == Input(c, T, nets) == Input(c, S, nets) == One
    requires Input(c, K, nets) == Input(c, R, nets) == Zero
    ensures Decide(c, nets, s.previousClock) == Capture ==> FlipFlopNext(c, nets, s) == One
    ensures Decide(c, nets, s.previousClock) == Keep ==> FlipFlopNext(c, nets, s) == Zero
  {
  }

  lemma VectorCaptures(c: Component, nets: seq<LogicValue>, s: RuntimeState, stored: LogicValue)
    requires c.primitive.IsVector() && 1 <= c.primitive.width <= MAX_BUS_WIDTH
    requires s.bits == Repeat(stored, c.primitive.width)
    requires (forall i: nat :: i < c.primitive.width ==> Input(c, Data(i), nets) == One)
    requires (stored == Zero || stored == One)
    ensures |VectorNext(c, nets, s)| == c.primitive.width
    ensures Decide(c, nets, s.previousClock) == Capture && stored == Zero ==> VectorNext(c, nets, s)[0] == One
    ensures Decide(c, nets, s.previousClock) == Keep ==> VectorNext(c, nets, s)[0] == stored
    ensures Decide(c, nets, s.previousClock).Force? ==>
      VectorNext(c, nets, s)[0] == Decide(c, nets, s.previousClock).value
  {
    if stored == Zero {
      CountFromZero(c.primitive.width);
    }
  }

  /** Zero counts up to one. */
  lemma CountFromZero(width: nat)
    requires 1 <= width <= MAX_BUS_WIDTH
    ensures |IncrementBits(Repeat(Zero, width))| == width && IncrementBits(Repeat(Zero, width))[0] == One
  {
    var zeros := Repeat(Zero, width);
    ZeroIsZero(zeros);
    IncrementCounts(zeros);
    Pow2Monotone(1, width);
    assert Pow2(1) == 2;
    hide Pow2, IncrementBits;
    DivModUnique(1, Pow2(width), 0, 1);
    OddHasLowBit(IncrementBits(zeros));
  }

  lemma OddHasLowBit(bits: seq<LogicValue>)
    requires ValueOf(bits) == 1
    ensures |bits| > 0 && bits[0] == One
  {
  }

  lemma {:induction false} ZeroIsZero(bits: seq<LogicValue>)
    requires forall i :: 0 <= i < |bits| ==> bits[i] == Zero
    ensures ValueOf(bits) == 0
  {
    if |bits| > 0 {
      ZeroIsZero(bits[1..]);
    }
  }

  lemma FlipFlopDecisions(c: Component, low: seq<LogicValue>, high: seq<LogicValue>, prevLow: LogicValue,
                          prevHigh: LogicValue)
    requires c.primitive.IsFlipFlop() && RefinesAll(low, high) && !SafeControl(c, low, high, prevLow, prevHigh)
    ensures var (a, b) := (Decide(c, low, prevLow), Decide(c, high, prevHigh));
            (a == Capture && b == Keep) || (a == Keep && b == Capture)
  {
    AsyncMonotone(c, low, high);
    hide AsyncSetReset, RefinesAll;
  }

  lemma UnsafeFlipFlopBreaks(c: Component, low: seq<LogicValue>, high: seq<LogicValue>, prevLow: LogicValue,
                             prevHigh: LogicValue)
    requires c.primitive.IsFlipFlop() && RefinesAll(low, high) && !SafeControl(c, low, high, prevLow, prevHigh)
    requires forall pin :: pin in c.inputs ==> c.inputs[pin] < |low|
    ensures var d := WithData(c, |low|, |low| + 1);
            !Refines(FlipFlopNext(d, low + [One, Zero], RuntimeState(Zero, [], prevLow)),
                     FlipFlopNext(d, high + [One, Zero], RuntimeState(Zero, [], prevHigh)))
  {
    var d, low', high' := WithData(c, |low|, |low| + 1), low + [One, Zero], high + [One, Zero];
    hide FlipFlopNext, Decide, RefinesAll, Rewired, WithData, Input, IsEdge;
    FlipFlopDecisions(c, low, high, prevLow, prevHigh);
    SameLength(low, high);
    PinsRead(c, low);
    PinsRead(c, high);
    WithDataRewires(c, low, high);
    RewiredPrimitive(c, d, low, high, low', high');
    RewiringKeepsControl(c, d, low, high, low', high', prevLow, prevHigh);
    FlipFlopCaptures(d, low', RuntimeState(Zero, [], prevLow));
    FlipFlopCaptures(d, high', RuntimeState(Zero, [], prevHigh));
  }

  lemma PinsRead(c: Component, nets: seq<LogicValue>)
    ensures var d, nets' := WithData(c, |nets|, |nets| + 1), nets + [One, Zero];
            && Input(d, D, nets') == Input(d, J, nets') == Input(d, T, nets') == Input(d, S, nets') == One
            && Input(d, K, nets') == Input(d, R, nets') == Zero
  {
  }

  /** What to store so that an unsafe vector breaks. */
  function BreakingBit(c: Component, low: seq<LogicValue>, high: seq<LogicValue>, prevLow: LogicValue,
                       prevHigh: LogicValue)
    : LogicValue
    requires IsEdgeTriggered(c.primitive)
  {
    if Decide(c, low, prevLow) == Capture || Decide(c, high, prevHigh) == Capture then Zero else One
  }

  lemma VectorDecisions(c: Component, low: seq<LogicValue>, high: seq<LogicValue>, prevLow: LogicValue,
                        prevHigh: LogicValue)
    requires c.primitive.IsVector() && RefinesAll(low, high) && !SafeControl(c, low, high, prevLow, prevHigh)
    ensures Decide(c, low, prevLow) == Capture || Decide(c, low, prevLow) == Keep
  {
    InputMonotone(c, Reset, low, high);
  }

  lemma UnsafeVectorBreaks(c: Component, low: seq<LogicValue>, high: seq<LogicValue>, prevLow: LogicValue,
                           prevHigh: LogicValue)
    requires c.primitive.IsVector() && 1 <= c.primitive.width <= MAX_BUS_WIDTH
    requires RefinesAll(low, high) && !SafeControl(c, low, high, prevLow, prevHigh)
    requires forall pin :: pin in c.inputs ==> c.inputs[pin] < |low|
    ensures var d := WithData(c, |low|, |low| + 1);
            var bits := Repeat(BreakingBit(c, low, high, prevLow, prevHigh), c.primitive.width);
            !RefinesAll(VectorNext(d, low + [One, Zero], RuntimeState(Zero, bits, prevLow)),
                        VectorNext(d, high + [One, Zero], RuntimeState(Zero, bits, prevHigh)))
  {
    var d, low', high' := WithData(c, |low|, |low| + 1), low + [One, Zero], high + [One, Zero];
    var stored := BreakingBit(c, low, high, prevLow, prevHigh);
    var bits := Repeat(stored, c.primitive.width);
    hide VectorNext, Decide, Rewired, WithData, RefinesAll, Input;
    VectorDecisions(c, low, high, prevLow, prevHigh);
    SameLength(low, high);
    DataReadsOne(c, low);
    DataReadsOne(c, high);
    WithDataRewires(c, low, high);
    RewiredPrimitive(c, d, low, high, low', high');
    RewiringKeepsControl(c, d, low, high, low', high', prevLow, prevHigh);
    VectorCaptures(d, low', RuntimeState(Zero, bits, prevLow), stored);
    VectorCaptures(d, high', RuntimeState(Zero, bits, prevHigh), stored);
    FirstBitBreaks(VectorNext(d, low', RuntimeState(Zero, bits, prevLow)),
                   VectorNext(d, high', RuntimeState(Zero, bits, prevHigh)));
  }

  lemma DataReadsOne(c: Component, nets: seq<LogicValue>)
    requires c.primitive.IsVector()
    ensures forall i: nat :: i < c.primitive.width ==>
      Input(WithData(c, |nets|, |nets| + 1), Data(i), nets + [One, Zero]) == One
  {
  }

  lemma FirstBitBreaks(low: seq<LogicValue>, high: seq<LogicValue>)
    requires |low| > 0 && |high| > 0 && low[0] != X && low[0] != high[0]
    ensures !RefinesAll(low, high)
  {
    assert RefinesAll(low, high) ==> Refines(low[0], high[0]);
  }

  /** Whatever the data and the stored state, refining `low` to `high` refines what evaluation yields. */
  ghost predicate AlwaysRefines(c: Component, low: seq<LogicValue>, high: seq<LogicValue>, prevLow: LogicValue,
                                prevHigh: LogicValue) {
    forall d, low', high', s, t ::
      (Rewired(c, d, low, high, low', high') && RefinesAll(low', high') && StoredRefines(d, s, t)
       && s.previousClock == prevLow && t.previousClock == prevHigh)
      ==> EvaluationRefines(d, low', high', s, t)
  }

  /**
   * For all data and stored states at once, an edge-triggered primitive is monotone exactly if its control is
   * safe: clock, set, reset and enable lead to the same decision on both sides, or to all-X on the less
   * informed one.
   */
  lemma SafeControlIsExact(c: Component, low: seq<LogicValue>, high: seq<LogicValue>, prevLow: LogicValue,
                           prevHigh: LogicValue)
    requires IsEdgeTriggered(c.primitive) && RefinesAll(low, high)
    requires forall pin :: pin in c.inputs ==> c.inputs[pin] < |low|
    requires c.primitive.IsVector() ==> 1 <= c.primitive.width <= MAX_BUS_WIDTH
    ensures AlwaysRefines(c, low, high, prevLow, prevHigh) <==> SafeControl(c, low, high, prevLow, prevHigh)
  {
    hide Decide, EvaluationRefines, RefinesAll;
    if SafeControl(c, low, high, prevLow, prevHigh) {
      forall d, low', high', s, t | Rewired(c, d, low, high, low', high') && RefinesAll(low', high')
          && StoredRefines(d, s, t)
                                    && s.previousClock == prevLow && t.previousClock == prevHigh
        ensures EvaluationRefines(d, low', high', s, t)
      {
        SameLength(low, high);
        RewiringKeepsControl(c, d, low, high, low', high', prevLow, prevHigh);
        EvaluateMonotone(d, low', high', s, t);
      }
    } else {
      UnsafeBreaks(c, low, high, prevLow, prevHigh);
    }
  }

  lemma SameLength(low: seq<LogicValue>, high: seq<LogicValue>)
    requires RefinesAll(low, high)
    ensures |low| == |high| && RefinesAll(low + [One, Zero], high + [One, Zero])
  {
  }

  lemma UnsafeBreaks(c: Component, low: seq<LogicValue>, high: seq<LogicValue>, prevLow: LogicValue,
                     prevHigh: LogicValue)
    requires IsEdgeTriggered(c.primitive) && RefinesAll(low, high)
    requires forall pin :: pin in c.inputs ==> c.inputs[pin] < |low|
    requires c.primitive.IsVector() ==> 1 <= c.primitive.width <= MAX_BUS_WIDTH
    requires !SafeControl(c, low, high, prevLow, prevHigh)
    ensures !AlwaysRefines(c, low, high, prevLow, prevHigh)
  {
    hide Decide, FlipFlopNext, VectorNext, RefinesAll, WithData, Rewired, SafeControl;
    var d, low', high' := WithData(c, |low|, |low| + 1), low + [One, Zero], high + [One, Zero];
    SameLength(low, high);
    WithDataRewires(c, low, high);
    var bits := if c.primitive.IsVector() then Repeat(BreakingBit(c, low, high, prevLow, prevHigh), c.primitive.width)
      else [];
    var s, t := RuntimeState(Zero, bits, prevLow), RuntimeState(Zero, bits, prevHigh);
    SameRefines(bits);
    assert d.primitive == c.primitive by {
      RewiredPrimitive(c, d, low, high, low', high');
    }
    if c.primitive.IsFlipFlop() {
      UnsafeFlipFlopBreaks(c, low, high, prevLow, prevHigh);
    } else {
      UnsafeVectorBreaks(c, low, high, prevLow, prevHigh);
    }
    assert StoredRefines(d, s, t) && !EvaluationRefines(d, low', high', s, t);
  }

  lemma RewiredPrimitive(c: Component, d: Component, low: seq<LogicValue>, high: seq<LogicValue>, low': seq<LogicValue>,
                         high': seq<LogicValue>)
    requires Rewired(c, d, low, high, low', high')
    ensures d.primitive == c.primitive
  {
  }

  lemma SameRefines(bits: seq<LogicValue>)
    ensures RefinesAll(bits, bits)
  {
  }

  /* ---- Failing inputs ---- */

  /** A clock going from X to 1 after a 0 turns a held 0 into a captured 1. */
  lemma UnknownClockBreaks()
    ensures exists c: Component, low, high, s ::
              && c.primitive == DFlipFlop(Rising) && RefinesAll(low, high) && Input(c, Clk, low) == X
                  && Input(c, Clk, high) == One
              && !EvaluationRefines(c, low, high, s, s)
  {
    var c := Component(DFlipFlop(Rising), map[Clk := 0, D := 1], [2], 0, Zero, []);
    var s := RuntimeState(Zero, [], Zero);
    var low, high := [X, One, X], [One, One, X];
    assert RefinesAll(low, high) && Input(c, Clk, low) == X && Input(c, Clk, high) == One;
    assert Evaluate(c, low, s).0.q == Zero && Evaluate(c, high, s).0.q == One;
    assert !EvaluationRefines(c, low, high, s, s);
  }

  /** A counter's reset going from X to 1 clears a bit that was held. */
  lemma UnknownResetBreaks()
    ensures exists c: Component, low, high, s ::
              && c.primitive == Counter(1, Rising) && RefinesAll(low, high) && Input(c, Reset, low) == X
                  && Input(c, Reset, high) == One
              && !EvaluationRefines(c, low, high, s, s)
  {
    var c := Component(Counter(1, Rising), map[Clk := 0, Reset := 1], [2], 0, X, [Zero]);
    var s := RuntimeState(X, [One], Zero);
    var low, high := [Zero, X, X], [Zero, One, X];
    assert RefinesAll(low, high) && Input(c, Reset, low) == X && Input(c, Reset, high) == One;
    assert Evaluate(c, low, s).0.bits == [One] && Evaluate(c, high, s).0.bits == [Zero];
    assert !EvaluationRefines(c, low, high, s, s);
  }
}
