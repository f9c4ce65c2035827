/** Compiled digital circuits: components, their evaluation, and multi-driver net resolution. */
module Circuit {
  import opened Wrappers
  import opened Logic

  datatype GateKind = Buffer | Not | And | Or | Xor | Nand | Nor | Xnor

  datatype EdgeKind = Rising | Falling

  datatype Pin =
    | In | A | B | Sel | Enable | D | Clk | J | K | T | S | R | Set | Reset
    | Data(bit: nat)

  /** A clock stores the two phases `period * duty_cycle` and `period * (1 - duty_cycle)`. */
  datatype Primitive =
    | Constant(value: LogicValue)
    | Clock(high: nat, low: nat, initial: LogicValue)
    | Gate(kind: GateKind)
    | TriState
    | Mux2
    | Demux2
    | Decoder2To4
    | DLatch
    | SRLatch
    | DFlipFlop(edge: EdgeKind)
    | JKFlipFlop(edge: EdgeKind)
    | TFlipFlop(edge: EdgeKind)
    | SRFlipFlop(edge: EdgeKind)
    | Register(width: nat, edge: EdgeKind)
    | Counter(width: nat, edge: EdgeKind)
    | Sink
  {
    predicate IsSource() {
      Constant? || Clock?
    }

    /** Outputs depend on the current nets alone. */
    predicate IsCombinational() {
      Gate? || TriState? || Mux2? || Demux2? || Decoder2To4?
    }

    predicate IsLatch() {
      DLatch? || SRLatch?
    }

    predicate IsFlipFlop() {
      DFlipFlop? || JKFlipFlop? || TFlipFlop? || SRFlipFlop?
    }

    predicate IsVector() {
      Register? || Counter?
    }

    predicate IsStateful() {
      IsLatch() || IsFlipFlop() || IsVector()
    }
  }

  /** Nets are numbers; a component maps its pins to nets. */
  datatype Component = Component(
    primitive: Primitive,
    inputs: map<Pin, nat>,
    outputs: seq<nat>,
    delay: nat,
    initialScalar: LogicValue,
    initialVector: seq<LogicValue>)

  datatype RuntimeState = RuntimeState(q: LogicValue, bits: seq<LogicValue>, previousClock: LogicValue)

  function InitialRuntimeState(c: Component): RuntimeState {
    RuntimeState(c.initialScalar, c.initialVector, X)
  }

  /** The level that output `o` of a storage element shows: a bit, the stored level, or its complement. */
  function StoredLevel(p: Primitive, s: RuntimeState, o: nat): LogicValue
    requires p.IsVector() ==> o < |s.bits|
  {
    if p.IsVector() then s.bits[o] else if o == 0 then s.q else s.q.Not()
  }

  datatype DriverKey = DriverKey(component: nat, output: nat)

  /** `dependents[n]` lists a component once for every pin it has on net `n`. */
  datatype Program = Program(
    components: seq<Component>,
    dependents: seq<seq<nat>>,
    drivers: seq<seq<DriverKey>>)

  /* ---- Evaluation of one component ---- */

  /** An unconnected pin reads as zero. */
  function Input(c: Component, pin: Pin, nets: seq<LogicValue>): LogicValue {
    if pin in c.inputs && c.inputs[pin] < |nets| then nets[c.inputs[pin]] else Zero
  }

  function GateOutput(kind: GateKind, c: Component, nets: seq<LogicValue>): LogicValue {
    var a, b := Input(c, A, nets), Input(c, B, nets);
    match kind
    case Buffer => Input(c, In, nets).Buffer()
    case Not => Input(c, In, nets).Not()
    case And => a.And(b)
    case Or => a.Or(b)
    case Xor => a.Xor(b)
    case Nand => a.And(b).Not()
    case Nor => a.Or(b).Not()
    case Xnor => a.Xor(b).Not()
  }

  function OutputCount(p: Primitive): nat
    requires p.IsCombinational()
  {
    match p
    case Demux2 => 2
    case Decoder2To4 => 4
    case _ => 1
  }

  /** The outputs of a combinational component. */
  function CombOutputs(c: Component, nets: seq<LogicValue>): (r: seq<LogicValue>)
    requires c.primitive.IsCombinational()
    ensures |r| == OutputCount(c.primitive)
  {
    match c.primitive
    case Gate(kind) => [GateOutput(kind, c, nets)]
    case TriState =>
      (match Input(c, Enable, nets).Buffer()
       case Zero => [Z]
       case One => [Input(c, In, nets).Buffer()]
       case _ => [X])
    case Mux2 =>
      var a, b := Input(c, A, nets).Buffer(), Input(c, B, nets).Buffer();
      (match Input(c, Sel, nets).Buffer()
       case Zero => [a]
       case One => [b]
       case _ => [if a == b then a else X])
    case Demux2 =>
      var v := Input(c, In, nets).Buffer();
      (match Input(c, Sel, nets).Buffer()
       case Zero => [v, Zero]
       case One => [Zero, v]
       case _ => [X, X])
    case Decoder2To4 =>
      var enable := Input(c, Enable, nets).Buffer();
      if enable == Zero then [Zero, Zero, Zero, Zero]
      else if enable != One then [X, X, X, X]
      else
        var a, b := Input(c, A, nets).Buffer(), Input(c, B, nets).Buffer();
        if !a.IsKnown() || !b.IsKnown() then [X, X, X, X]
        else
          var index := (if a == One then 1 else 0) + (if b == One then 2 else 0);
          [Bit(index == 0), Bit(index == 1), Bit(index == 2), Bit(index == 3)]
  }

  function AsyncSetReset(c: Component, nets: seq<LogicValue>): Option<LogicValue> {
    var s := if Set in c.inputs then Input(c, Set, nets).Buffer() else Zero;
    var r := if Reset in c.inputs then Input(c, Reset, nets).Buffer() else Zero;
    match (s, r)
    case (Zero, Zero) => None
    case (One, Zero) => Some(One)
    case (Zero, One) => Some(Zero)
    case _ => Some(X)
  }

  function SRNext(current: LogicValue, s: LogicValue, r: LogicValue): LogicValue {
    match (s.Buffer(), r.Buffer())
    case (Zero, Zero) => current
    case (One, Zero) => One
    case (Zero, One) => Zero
    case _ => X
  }

  predicate IsEdge(previous: LogicValue, current: LogicValue, edge: EdgeKind) {
    match edge
    case Rising => previous == Zero && current == One
    case Falling => previous == One && current == Zero
  }

  function QOutputs(q: LogicValue, count: nat): seq<LogicValue> {
    if count == 0 then [] else if count == 1 then [q] else [q, q.Not()]
  }

  function LatchNext(c: Component, nets: seq<LogicValue>, q: LogicValue): LogicValue {
    match AsyncSetReset(c, nets)
    case Some(v) => v
    case None =>
      if c.primitive.DLatch? then
        match Input(c, Enable, nets).Buffer()
        case One => Input(c, D, nets).Buffer()
        case Zero => q
        case _ => X
      else
        SRNext(q, Input(c, S, nets), Input(c, R, nets))
  }

  function JKNext(q: LogicValue, j: LogicValue, k: LogicValue): LogicValue {
    match (j.Buffer(), k.Buffer())
    case (Zero, Zero) => q
    case (Zero, One) => Zero
    case (One, Zero) => One
    case (One, One) => Toggle(q)
    case _ => X
  }

  function TNext(q: LogicValue, t: LogicValue): LogicValue {
    match t.Buffer()
    case Zero => q
    case One => Toggle(q)
    case _ => X
  }

  /** What a flip-flop stores on its active edge. */
  function EdgeNext(c: Component, nets: seq<LogicValue>, q: LogicValue): LogicValue {
    match c.primitive
    case DFlipFlop(_) => Input(c, D, nets).Buffer()
    case JKFlipFlop(_) => JKNext(q, Input(c, J, nets), Input(c, K, nets))
    case TFlipFlop(_) => TNext(q, Input(c, T, nets))
    case _ => SRNext(q, Input(c, S, nets), Input(c, R, nets))
  }

  function FlipFlopNext(c: Component, nets: seq<LogicValue>, s: RuntimeState): LogicValue
    requires c.primitive.IsFlipFlop()
  {
    var clock := Input(c, Clk, nets).Buffer();
    match AsyncSetReset(c, nets)
    case Some(v) => v
    case None =>
      if IsEdge(s.previousClock, clock, c.primitive.edge) then EdgeNext(c, nets, s.q)
      else if c.primitive.DFlipFlop? && clock == X then s.q.Buffer()
      else s.q
  }

  function Repeat(v: LogicValue, n: nat): (r: seq<LogicValue>)
    ensures |r| == n && forall i :: 0 <= i < n ==> r[i] == v
  {
    seq(n, _ => v)
  }

  function DataInputs(c: Component, nets: seq<LogicValue>, width: nat): (r: seq<LogicValue>)
    ensures |r| == width && forall i :: 0 <= i < width ==> r[i] == Input(c, Data(i), nets).Buffer()
  {
    seq(width, (bit: nat) => Input(c, Data(bit), nets).Buffer())
  }

  function VectorNext(c: Component, nets: seq<LogicValue>, s: RuntimeState): seq<LogicValue>
    requires c.primitive.IsVector()
  {
    var clock := Input(c, Clk, nets).Buffer();
    var enable := if Enable in c.inputs then Input(c, Enable, nets).Buffer() else One;
    if Reset in c.inputs && Input(c, Reset, nets) == One then Repeat(Zero, c.primitive.width)
    else if !IsEdge(s.previousClock, clock, c.primitive.edge) || enable == Zero then s.bits
    else if enable != One then Repeat(X, c.primitive.width)
    else if c.primitive.Register? then DataInputs(c, nets, c.primitive.width)
    else IncrementBits(s.bits)
  }

  /** The new runtime state, and the output values unless the primitive has none to compute. */
  function Evaluate(c: Component, nets: seq<LogicValue>, s: RuntimeState): (RuntimeState, Option<seq<LogicValue>>) {
    var clock := Input(c, Clk, nets).Buffer();
    if c.primitive.IsCombinational() then
      (s, Some(CombOutputs(c, nets)))
    else if c.primitive.IsLatch() then
      var q := LatchNext(c, nets, s.q);
      (s.(q := q), Some(QOutputs(q, |c.outputs|)))
    else if c.primitive.IsFlipFlop() then
      var q := FlipFlopNext(c, nets, s);
      (s.(q := q, previousClock := clock), Some(QOutputs(q, |c.outputs|)))
    else if c.primitive.IsVector() then
      var bits := VectorNext(c, nets, s);
      (s.(bits := bits, previousClock := clock), Some(bits))
    else (s, None)
  }

  /* ---- Net resolution ---- */

  function DriverValue(values: map<DriverKey, LogicValue>, d: DriverKey): LogicValue {
    if d in values then values[d] else Z
  }

  function ValuesOf(drivers: seq<DriverKey>, values: map<DriverKey, LogicValue>): (r: seq<LogicValue>)
    ensures |r| == |drivers|
  {
    seq(|drivers|, i requires 0 <= i < |drivers| => DriverValue(values, drivers[i]))
  }

  /** Contention semantics: X dominates, opposite known values clash, Z yields to anything else. */
  function Resolve(values: seq<LogicValue>): LogicValue {
    if |values| == 0 || X in values || (Zero in values && One in values) then X
    else if Zero in values then Zero
    else if One in values then One
    else Z
  }

  method ResolveNet(drivers: seq<DriverKey>, values: map<DriverKey, LogicValue>) returns (r: LogicValue)
    ensures r == Resolve(ValuesOf(drivers, values))
  {
    if |drivers| == 0 {
      return X;
    }
    ghost var all := ValuesOf(drivers, values);
    var resolved := Z;
    for i := 0 to |drivers|
      invariant X !in all[..i]
      invariant resolved == Resolve(if i == 0 then [Z] else all[..i])
      invariant resolved != X
    {
      var value := DriverValue(values, drivers[i]);
      assert all[..i + 1] == all[..i] + [value];
      match value {
        case Z =>
        case X => assert all[i] == X; return X;
        case _ =>
          if resolved == Z {
            resolved := value;
          } else if resolved != value {
            assert all[i] == value && resolved in all[..i];
            return X;
          }
      }
    }
    assert all[..|drivers|] == all;
    return resolved;
  }

  /* ---- Well-formed programs ---- */

  predicate ValidKey(p: Program, d: DriverKey) {
    d.component < |p.components| && d.output < |p.components[d.component].outputs|
  }

  predicate RequiresPin(p: Primitive, pin: Pin) {
    match p
    case Gate(kind) => if kind.Buffer? || kind.Not? then pin == In else pin == A || pin == B
    case TriState => pin == In || pin == Enable
    case Mux2 => pin == A || pin == B || pin == Sel
    case Demux2 => pin == In || pin == Sel
    case Decoder2To4 => pin == A || pin == B || pin == Enable
    case _ => false
  }

  /** What compilation guarantees of one component on a circuit with `n` nets. */
  ghost predicate WellFormedComponent(c: Component, n: nat) {
    && (forall pin :: pin in c.inputs ==> c.inputs[pin] < n)
    && (forall o :: 0 <= o < |c.outputs| ==> c.outputs[o] < n)
    && (c.primitive.IsSource() ==> |c.outputs| == 1 && c.inputs == map[] && c.delay == 0)
    && (c.primitive.Clock? ==> c.primitive.high > 0 && c.primitive.low > 0)
    && (c.primitive.IsCombinational() ==>
          && |c.outputs| == OutputCount(c.primitive)
          && forall pin :: RequiresPin(c.primitive, pin) ==> pin in c.inputs)
    && (c.primitive.Sink? ==> |c.outputs| == 0)
    && (c.primitive.IsLatch() || c.primitive.IsFlipFlop() ==> |c.outputs| <= 2)
    && (c.primitive.IsVector() ==>
          1 <= c.primitive.width <= MAX_BUS_WIDTH && c.primitive.width == |c.outputs| == |c.initialVector|)
    && (!c.primitive.IsVector() ==> c.initialVector == [])
  }

  ghost predicate WellFormed(p: Program) {
    && |p.dependents| == |p.drivers|
    && (forall c :: 0 <= c < |p.components| ==> WellFormedComponent(p.components[c], |p.drivers|))
    && (forall n, d :: 0 <= n < |p.drivers| ==>
          (d in p.drivers[n] <==> ValidKey(p, d) && p.components[d.component].outputs[d.output] == n))
    && (forall n, c: nat {:trigger c in p.dependents[n]} :: 0 <= n < |p.drivers| ==>
          (c in p.dependents[n] <==> c < |p.components| && n in p.components[c].inputs.Values))
  }

  /* ---- Less information in never means more information out ---- */

  lemma ResolveMonotone(low: seq<LogicValue>, high: seq<LogicValue>)
    requires RefinesAll(low, high)
    ensures Refines(Resolve(low), Resolve(high))
  {
    if X !in low {
      assert forall i :: 0 <= i < |low| ==> low[i] == high[i];
      assert low == high;
    }
  }

  lemma InputMonotone(c: Component, pin: Pin, low: seq<LogicValue>, high: seq<LogicValue>)
    requires RefinesAll(low, high)
    ensures Refines(Input(c, pin, low), Input(c, pin, high))
    ensures Refines(Input(c, pin, low).Buffer(), Input(c, pin, high).Buffer())
  {
  }

  lemma OperatorsMonotone(a: LogicValue, a': LogicValue, b: LogicValue, b': LogicValue)
    requires Refines(a, a') && Refines(b, b')
    ensures Refines(a.Buffer(), a'.Buffer()) && Refines(a.Not(), a'.Not())
    ensures Refines(a.And(b), a'.And(b')) && Refines(a.Or(b), a'.Or(b')) && Refines(a.Xor(b), a'.Xor(b'))
  {
  }

  lemma GateMonotone(kind: GateKind, c: Component, low: seq<LogicValue>, high: seq<LogicValue>)
    requires RefinesAll(low, high)
    ensures Refines(GateOutput(kind, c, low), GateOutput(kind, c, high))
  {
    var a, b, i := Input(c, A, low), Input(c, B, low), Input(c, In, low);
    var a', b', i' := Input(c, A, high), Input(c, B, high), Input(c, In, high);
    OperatorsMonotone(a, a', b, b');
    OperatorsMonotone(i, i', i, i');
    OperatorsMonotone(a.And(b), a'.And(b'), a.Or(b), a'.Or(b'));
    OperatorsMonotone(a.Xor(b), a'.Xor(b'), a.Or(b), a'.Or(b'));
    OperatorsMonotone(a.Or(b), a'.Or(b'), a.Or(b), a'.Or(b'));
  }

  lemma CombMonotone(c: Component, low: seq<LogicValue>, high: seq<LogicValue>)
    requires c.primitive.IsCombinational() && RefinesAll(low, high)
    ensures RefinesAll(CombOutputs(c, low), CombOutputs(c, high))
  {
    InputMonotone(c, A, low, high);
    InputMonotone(c, B, low, high);
    InputMonotone(c, In, low, high);
    InputMonotone(c, Sel, low, high);
    InputMonotone(c, Enable, low, high);
    match c.primitive {
      case Gate(kind) => GateMonotone(kind, c, low, high);
      case _ =>
    }
  }

  lemma AsyncMonotone(c: Component, low: seq<LogicValue>, high: seq<LogicValue>)
    requires RefinesAll(low, high)
    ensures var a, b := AsyncSetReset(c, low), AsyncSetReset(c, high);
            (a.Some? && a.value == X) || a == b
  {
    InputMonotone(c, Set, low, high);
    InputMonotone(c, Reset, low, high);
  }

  lemma SRMonotone(q: LogicValue, q': LogicValue, s: LogicValue, s': LogicValue, r: LogicValue, r': LogicValue)
    requires Refines(q, q') && Refines(s, s') && Refines(r, r')
    ensures Refines(SRNext(q, s, r), SRNext(q', s', r'))
  {
  }

  lemma JKMonotone(q: LogicValue, q': LogicValue, j: LogicValue, j': LogicValue, k: LogicValue, k': LogicValue)
    requires Refines(q, q') && Refines(j, j') && Refines(k, k')
    ensures Refines(JKNext(q, j, k), JKNext(q', j', k'))
  {
  }

  lemma TMonotone(q: LogicValue, q': LogicValue, t: LogicValue, t': LogicValue)
    requires Refines(q, q') && Refines(t, t')
    ensures Refines(TNext(q, t), TNext(q', t'))
  {
  }

  lemma LatchMonotone(c: Component, low: seq<LogicValue>, high: seq<LogicValue>, q: LogicValue, q': LogicValue)
    requires c.primitive.IsLatch() && RefinesAll(low, high) && Refines(q, q')
    ensures Refines(LatchNext(c, low, q), LatchNext(c, high, q'))
  {
    AsyncMonotone(c, low, high);
    InputMonotone(c, Enable, low, high);
    InputMonotone(c, D, low, high);
    InputMonotone(c, S, low, high);
    InputMonotone(c, R, low, high);
    SRMonotone(q, q', Input(c, S, low), Input(c, S, high), Input(c, R, low), Input(c, R, high));
  }

  lemma EdgeMonotone(c: Component, low: seq<LogicValue>, high: seq<LogicValue>, q: LogicValue, q': LogicValue)
    requires RefinesAll(low, high) && Refines(q, q')
    ensures Refines(EdgeNext(c, low, q), EdgeNext(c, high, q'))
  {
    hide Input, SRNext, JKNext, TNext, RefinesAll, Refines;
    InputMonotone(c, D, low, high);
    InputMonotone(c, J, low, high);
    InputMonotone(c, K, low, high);
    InputMonotone(c, T, low, high);
    InputMonotone(c, S, low, high);
    InputMonotone(c, R, low, high);
    SRMonotone(q, q', Input(c, S, low), Input(c, S, high), Input(c, R, low), Input(c, R, high));
    JKMonotone(q, q', Input(c, J, low), Input(c, J, high), Input(c, K, low), Input(c, K, high));
    TMonotone(q, q', Input(c, T, low), Input(c, T, high));
  }

  lemma IncrementMonotone(low: seq<LogicValue>, high: seq<LogicValue>)
    requires RefinesAll(low, high)
    ensures RefinesAll(IncrementBits(low), IncrementBits(high))
  {
    if AllKnown(low) {
      assert low == high;
    }
  }
}
