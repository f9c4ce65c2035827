/** The primitives against two-valued references: what they compute on known inputs, and what X stands for. */
module TruthTables {
  import opened Wrappers
  import opened Logic
  import opened Circuit

  /* ---- Gates and multiplexers are exact ---- */

  function BoolGate(kind: GateKind, i: bool, a: bool, b: bool): bool {
    match kind
    case Buffer => i
    case Not => !i
    case And => a && b
    case Or => a || b
    case Xor => a != b
    case Nand => !(a && b)
    case Nor => !(a || b)
    case Xnor => a == b
  }

  /** The level may turn out to be `b`; X and Z may turn out to be either. */
  predicate MayBe(v: LogicValue, b: bool) {
    v.Buffer() == X || v == Bit(b)
  }

  /** Every way of reading the unknown inputs gives `v`. */
  ghost predicate GateAgrees(kind: GateKind, i: LogicValue, a: LogicValue, b: LogicValue, v: bool) {
    forall x, y, z :: MayBe(i, x) && MayBe(a, y) && MayBe(b, z) ==> BoolGate(kind, x, y, z) == v
  }

  lemma Readable(v: LogicValue)
    ensures MayBe(v, true) || MayBe(v, false)
    ensures v.Buffer() == X ==> MayBe(v, true) && MayBe(v, false)
  {
  }

  /** A gate's output is a known `v` exactly if every way of reading its unknown inputs gives `v`. */
  lemma GateIsExact(kind: GateKind, c: Component, nets: seq<LogicValue>, v: bool)
    ensures GateOutput(kind, c, nets) == Bit(v) <==>
              GateAgrees(kind, Input(c, In, nets), Input(c, A, nets), Input(c, B, nets), v)
  {
    var i, a, b := Input(c, In, nets), Input(c, A, nets), Input(c, B, nets);
    Readable(i);
    Readable(a);
    Readable(b);
    if GateAgrees(kind, i, a, b, v) {
      forall x, y, z | MayBe(i, x) && MayBe(a, y) && MayBe(b, z)
        ensures BoolGate(kind, x, y, z) == v
      {
      }
      GateDisagrees(kind, i, a, b, v);
    }
  }

  lemma GateDisagrees(kind: GateKind, i: LogicValue, a: LogicValue, b: LogicValue, v: bool)
    requires GateAgrees(kind, i, a, b, v)
    ensures match kind
            case Buffer => i.Buffer() == Bit(v)
            case Not => i.Not() == Bit(v)
            case And => a.And(b) == Bit(v)
            case Or => a.Or(b) == Bit(v)
            case Xor => a.Xor(b) == Bit(v)
            case Nand => a.And(b).Not() == Bit(v)
            case Nor => a.Or(b).Not() == Bit(v)
            case Xnor => a.Xor(b).Not() == Bit(v)
  {
    var readings := [BoolGate(kind, true, true, true), BoolGate(kind, true, true, false),
                     BoolGate(kind, true, false, true),
                     BoolGate(kind, true, false, false), BoolGate(kind, false, true, true), BoolGate(kind, false, true,
                                                                      false),
                     BoolGate(kind, false, false, true), BoolGate(kind, false, false, false)];
  }

  ghost predicate MuxAgrees(sel: LogicValue, a: LogicValue, b: LogicValue, v: bool) {
    forall x, y, z :: MayBe(sel, x) && MayBe(a, y) && MayBe(b, z) ==> BoolMux(x, y, z) == v
  }

  function BoolMux(sel: bool, a: bool, b: bool): bool {
    if sel then b else a
  }

  /** So is a multiplexer's. */
  lemma MuxIsExact(c: Component, nets: seq<LogicValue>, v: bool)
    requires c.primitive.Mux2?
    ensures CombOutputs(c, nets) == [Bit(v)] <==> MuxAgrees(Input(c, Sel, nets), Input(c, A, nets), Input(c, B, nets),
                                                            v)
  {
    var readings := [BoolMux(true, true, true), BoolMux(true, true, false), BoolMux(true, false, true),
                     BoolMux(true, false, false),
                     BoolMux(false, true, true), BoolMux(false, true, false), BoolMux(false, false,
                                                                      true), BoolMux(false, false, false)];
  }

  function BoolTriState(enable: bool, i: bool): LogicValue {
    if enable then Bit(i) else Z
  }

  ghost predicate TriStateAgrees(enable: LogicValue, i: LogicValue, v: LogicValue) {
    forall x, y :: MayBe(enable, x) && MayBe(i, y) ==> BoolTriState(x, y) == v
  }

  /** And a tri-state buffer's, floating included. */
  lemma TriStateIsExact(c: Component, nets: seq<LogicValue>, v: LogicValue)
    requires c.primitive.TriState? && v != X
    ensures CombOutputs(c, nets) == [v] <==> TriStateAgrees(Input(c, Enable, nets), Input(c, In, nets), v)
  {
    Readable(Input(c, Enable, nets));
    Readable(Input(c, In, nets));
    var readings := [BoolTriState(true, true), BoolTriState(true, false), BoolTriState(false, true)];
  }

  /* ---- Demultiplexers and decoders are only cautious ---- */

  function BoolDemux(sel: bool, i: bool, k: nat): bool {
    i && (k == 1) == sel
  }

  ghost predicate DemuxAgrees(sel: LogicValue, i: LogicValue, k: nat, v: bool) {
    forall x, y :: MayBe(sel, x) && MayBe(i, y) ==> BoolDemux(x, y, k) == v
  }

  /** Exact at both outputs. */
  ghost predicate DemuxExact(c: Component, nets: seq<LogicValue>)
    requires c.primitive.Demux2?
  {
    forall k: nat, v :: k < 2 ==>
      (CombOutputs(c, nets)[k] == Bit(v) <==> DemuxAgrees(Input(c, Sel, nets), Input(c, In, nets), k, v))
  }

  /** A demultiplexer is exact unless a 0 meets an unknown select. */
  lemma DemuxExactness(c: Component, nets: seq<LogicValue>)
    requires c.primitive.Demux2?
    ensures DemuxExact(c, nets) <==> Input(c, Sel, nets).IsKnown() || Input(c, In, nets) != Zero
  {
    var sel, i := Input(c, Sel, nets), Input(c, In, nets);
    if !sel.IsKnown() && i == Zero {
      DemuxIsNotExact(c, nets, 0);
    } else {
      forall k: nat, v | k < 2
        ensures CombOutputs(c, nets)[k] == Bit(v) <==> DemuxAgrees(sel, i, k, v)
      {
        var readings := [BoolDemux(true, true, k), BoolDemux(true, false, k), BoolDemux(false, true, k),
                         BoolDemux(false, false, k)];
      }
    }
  }

  /** Then all readings agree on 0 at both outputs, and the primitive reports X. */
  lemma DemuxIsNotExact(c: Component, nets: seq<LogicValue>, k: nat)
    requires c.primitive.Demux2? && k < 2 && !Input(c, Sel, nets).IsKnown() && Input(c, In, nets) == Zero
    ensures DemuxAgrees(Input(c, Sel, nets), Input(c, In, nets), k, false) && CombOutputs(c, nets)[k] == X
  {
  }

  function BoolDecoder(enable: bool, a: bool, b: bool, k: nat): bool {
    enable && a == (k % 2 == 1) && b == (k / 2 == 1)
  }

  ghost predicate DecoderAgrees(enable: LogicValue, a: LogicValue, b: LogicValue, k: nat, v: bool) {
    forall x, y, z :: MayBe(enable, x) && MayBe(a, y) && MayBe(b, z) ==> BoolDecoder(x, y, z, k) == v
  }

  /** Exact at all four outputs. */
  ghost predicate DecoderExact(c: Component, nets: seq<LogicValue>)
    requires c.primitive.Decoder2To4?
  {
    forall k: nat, v :: k < 4 ==>
      (CombOutputs(c, nets)[k] == Bit(v) <==> DecoderAgrees(Input(c, Enable, nets), Input(c, A, nets),
                                                            Input(c, B, nets), k, v))
  }

  /** On known inputs exactly the addressed output is one, if enabled. */
  lemma DecoderOnKnown(c: Component, nets: seq<LogicValue>, enable: bool, a: bool, b: bool, k: nat)
    requires c.primitive.Decoder2To4? && k < 4 && Input(c, Enable, nets) == Bit(enable)
    requires Input(c, A, nets) == Bit(a) && Input(c, B, nets) == Bit(b)
    ensures CombOutputs(c, nets)[k] == Bit(BoolDecoder(enable, a, b, k))
  {
  }

  predicate DecoderDecided(enable: LogicValue, a: LogicValue, b: LogicValue) {
    || enable == Zero
    || (enable == One && a.IsKnown() && b.IsKnown())
    || (!a.IsKnown() && !b.IsKnown())
  }

  /** A decoder is exact if it is disabled, if it knows all its inputs, or if it knows neither address bit. */
  lemma DecoderExactness(c: Component, nets: seq<LogicValue>)
    requires c.primitive.Decoder2To4?
    ensures DecoderExact(c, nets) <==> DecoderDecided(Input(c, Enable, nets), Input(c, A, nets), Input(c, B, nets))
  {
    var e, a, b := Input(c, Enable, nets), Input(c, A, nets), Input(c, B, nets);
    if DecoderDecided(e, a, b) {
      forall k: nat, v | k < 4
        ensures CombOutputs(c, nets)[k] == Bit(v) <==> DecoderAgrees(e, a, b, k, v)
      {
        DecoderReadings(e, a, b, k, v);
      }
    } else {
      var k := DecoderIsNotExact(c, nets);
    }
  }

  lemma DecoderReadings(e: LogicValue, a: LogicValue, b: LogicValue, k: nat, v: bool)
    requires k < 4 && DecoderDecided(e, a, b)
    ensures DecoderAgrees(e, a, b, k, v) <==>
              if e == Zero then !v
              else a.IsKnown() && b.IsKnown() && v == BoolDecoder(true, a == One, b == One, k)
  {
    Readable(e);
    Readable(a);
    Readable(b);
    var x, y := k % 2 == 1, k / 2 == 1;
    var readings := [BoolDecoder(true, x, y, k), BoolDecoder(true, !x, !y, k), BoolDecoder(true, x, !y, k),
                     BoolDecoder(true, !x, y, k), BoolDecoder(false, x, y, k)];
  }

  /** Otherwise some output that no reading can raise is reported as X. */
  lemma DecoderIsNotExact(c: Component, nets: seq<LogicValue>) returns (k: nat)
    requires c.primitive.Decoder2To4? && !DecoderDecided(Input(c, Enable, nets), Input(c, A, nets), Input(c, B, nets))
    ensures k < 4 && CombOutputs(c, nets)[k] == X
    ensures DecoderAgrees(Input(c, Enable, nets), Input(c, A, nets), Input(c, B, nets), k, false)
  {
    var a, b := Input(c, A, nets), Input(c, B, nets);
    k := (if a == Zero then 1 else 0) + (if b == Zero then 2 else 0);
  }

  /* ---- Storage ---- */

  /** The next state of a flip-flop as a Boolean equation in its data inputs and its state. */
  function BoolNext(p: Primitive, x: bool, y: bool, q: bool): bool
    requires p.IsFlipFlop()
  {
    match p
    case DFlipFlop(_) => x
    case JKFlipFlop(_) => (x && !q) || (!y && q)
    case TFlipFlop(_) => x != q
    case SRFlipFlop(_) => x || (!y && q)
  }

  function FirstPin(p: Primitive): Pin
    requires p.IsFlipFlop()
  {
    match p
    case DFlipFlop(_) => D
    case JKFlipFlop(_) => J
    case TFlipFlop(_) => T
    case SRFlipFlop(_) => S
  }

  function SecondPin(p: Primitive): Pin
    requires p.IsFlipFlop()
  {
    if p.JKFlipFlop? then K else R
  }

  /** On its active edge with known data: the Boolean equation, except that S = R = 1 is undefined. */
  lemma FlipFlopOnEdge(c: Component, nets: seq<LogicValue>, s: RuntimeState, x: bool, y: bool, q: bool)
    requires c.primitive.IsFlipFlop() && AsyncSetReset(c, nets).None?
    requires IsEdge(s.previousClock, Input(c, Clk, nets).Buffer(), c.primitive.edge) && s.q == Bit(q)
    requires Input(c, FirstPin(c.primitive), nets) == Bit(x) && Input(c, SecondPin(c.primitive), nets) == Bit(y)
    ensures FlipFlopNext(c, nets, s) == if c.primitive.SRFlipFlop? && x
        && y then X else Bit(BoolNext(c.primitive, x, y, q))
  {
  }

  /** Asynchronous set and reset, an unconnected one reading 0, win over clock and data, in flip-flops and latches. */
  lemma AsyncWins(c: Component, nets: seq<LogicValue>, s: RuntimeState)
    requires c.primitive.IsFlipFlop() || c.primitive.IsLatch()
    requires Input(c, Set, nets) != Zero || Input(c, Reset, nets) != Zero
    ensures var (set', reset) := (Input(c, Set, nets), Input(c, Reset, nets));
            Evaluate(c, nets, s).0.q == if set'.IsKnown() && reset == set'.Not() then set' else X
  {
  }

  ghost predicate LatchAgrees(enable: LogicValue, d: LogicValue, q: bool, v: bool) {
    forall x, y :: MayBe(enable, x) && MayBe(d, y) ==> BoolMux(x, q, y) == v
  }

  /** A D latch holding a known bit is exact unless its enable is unknown and its data is the bit it holds. */
  lemma LatchExactness(c: Component, nets: seq<LogicValue>, q: bool)
    requires c.primitive.DLatch? && AsyncSetReset(c, nets).None?
    ensures (forall v ::
               LatchNext(c, nets, Bit(q)) == Bit(v) <==> LatchAgrees(Input(c, Enable, nets), Input(c, D, nets), q, v))
            <==> Input(c, Enable, nets).IsKnown() || Input(c, D, nets) != Bit(q)
  {
    var e, d := Input(c, Enable, nets), Input(c, D, nets);
    var readings := [BoolMux(true, q, true), BoolMux(true, q, false), BoolMux(false, q, true),
                     BoolMux(false, q, false)];
    if !e.IsKnown() && d == Bit(q) {
      assert LatchAgrees(e, d, q, q) && LatchNext(c, nets, Bit(q)) == X;
    }
  }

  ghost predicate JKAgrees(j: LogicValue, k: LogicValue, q: bool, v: bool) {
    forall x, y :: MayBe(j, x) && MayBe(k, y) ==> BoolNext(JKFlipFlop(Rising), x, y, q) == v
  }

  /** A JK flip-flop's edge on a known bit is exact unless it knows the one input that matters and not the other. */
  lemma JKExactness(j: LogicValue, k: LogicValue, q: bool)
    ensures (forall v :: JKNext(Bit(q), j, k) == Bit(v) <==> JKAgrees(j, k, q, v))
            <==> (if q then j.IsKnown() || !k.IsKnown() else k.IsKnown() || !j.IsKnown())
  {
    var p := JKFlipFlop(Rising);
    var readings := [BoolNext(p, true, true, q), BoolNext(p, true, false, q), BoolNext(p, false, true, q),
                     BoolNext(p, false, false, q)];
    if q && !j.IsKnown() && k.IsKnown() {
      assert JKAgrees(j, k, q, k == Zero) && JKNext(Bit(q), j, k) == X;
    } else if !q && j.IsKnown() && !k.IsKnown() {
      assert JKAgrees(j, k, q, j == One) && JKNext(Bit(q), j, k) == X;
    }
  }

  /** An enabled edge makes a counter count modulo two to its width. */
  lemma CounterCounts(c: Component, nets: seq<LogicValue>, s: RuntimeState)
    requires c.primitive.Counter? && 1 <= c.primitive.width <= MAX_BUS_WIDTH && |s.bits| == c.primitive.width
    requires AllKnown(s.bits)
    requires Reset in c.inputs ==> Input(c, Reset, nets) != One
    requires Enable in c.inputs ==> Input(c, Enable, nets) == One
    requires IsEdge(s.previousClock, Input(c, Clk, nets).Buffer(), c.primitive.edge)
    ensures AllKnown(VectorNext(c, nets, s)) && |VectorNext(c, nets, s)| == |s.bits|
    ensures ValueOf(VectorNext(c, nets, s)) == (ValueOf(s.bits) + 1) % Pow2(|s.bits|)
  {
    IncrementCounts(s.bits);
  }

  /* ---- Resolution is a commutative, associative join ---- */

  /** A net takes a level exactly if some driver drives it and every other one drives the same or floats. */
  lemma ResolveIsExact(values: seq<LogicValue>, v: LogicValue)
    requires v != X
    ensures Resolve(values) == v <==> v in values && forall w :: w in values ==> w == v || w == Z
  {
    if forall w :: w in values ==> w == v || w == Z {
      assert X !in values && (v != Zero ==> Zero !in values) && (v != One ==> One !in values);
    }
    if |values| > 0 {
      SomeLevel(values);
    }
  }

  lemma ResolveIgnoresOrder(values: seq<LogicValue>, others: seq<LogicValue>)
    requires multiset(values) == multiset(others)
    ensures Resolve(values) == Resolve(others)
  {
    assert |multiset(values)| == |multiset(others)|;
    assert forall v :: v in values <==> v in multiset(values);
    assert forall v :: v in others <==> v in multiset(others);
  }

  /** Resolving groups of drivers first and then the groups changes nothing. */
  lemma ResolveInGroups(values: seq<LogicValue>, others: seq<LogicValue>)
    requires |values| > 0 && |others| > 0
    ensures Resolve(values + others) == Resolve([Resolve(values), Resolve(others)])
  {
    assert forall v :: v in values + others <==> v in values || v in others;
    SomeLevel(values);
    SomeLevel(others);
  }

  lemma SomeLevel(values: seq<LogicValue>)
    requires |values| > 0
    ensures X in values || Zero in values || One in values || Z in values
  {
    match values[0] {
      case Zero => assert Zero in values;
      case One => assert One in values;
      case X => assert X in values;
      case Z => assert Z in values;
    }
  }
}
