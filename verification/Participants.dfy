/** The three kinds of participant behind one behaviour, and the proof that they keep the master's contract. */
module Participants {
  import opened Wrappers
  import opened Logic
  import opened Circuit
  import opened CoSim
  import opened Bridges
  import opened DigitalBridge
  import Incremental
  import Kernel
  import Session
  import Settling
  import Timeline

  datatype AnyPart = DacPart(dac: Dac) | AdcPart(adc: Adc) | DigitalPart(digital: Digital)

  /** Digital participants are only ever built around a compiled program. */
  type Part = p: AnyPart | p.DigitalPart? ==> p.digital.Made() witness DacPart(Dac(1, 0.0, 1.0, 0, Zero, 0.0))

  function Code(e: BridgeError): nat {
    match e
    case Cancelled => 0
    case IdInvalid => 1
    case RangeInvalid => 2
    case WrongTime => 3
    case PortMissing => 4
    case PortDirection => 5
    case WrongDomain => 6
    case TwoStateInput => 7
    case NotInitialized => 8
    case SessionFailed => 9
  }

  function Coded<T>(r: Result<T, BridgeError>): Result<T, nat> {
    match r
    case Ok(v) => Ok(v)
    case Err(e) => Err(Code(e))
  }

  function IdOf(p: Part): nat {
    match p
    case DacPart(d) => d.id
    case AdcPart(a) => a.id
    case DigitalPart(d) => d.id
  }

  function PortsOf(p: Part): seq<Port> {
    match p
    case DacPart(_) => DAC_PORTS
    case AdcPart(_) => ADC_PORTS
    case DigitalPart(d) => d.Ports()
  }

  function TimeOf(p: Part): nat {
    match p
    case DacPart(d) => d.time
    case AdcPart(a) => a.time
    case DigitalPart(d) => d.Time()
  }

  function NextEventOf(p: Part): Option<nat> {
    match p
    case DigitalPart(d) => d.NextEvent()
    case _ => None
  }

  function InitializePart(p: Part): Result<Part, nat> {
    match p
    case DacPart(d) => Ok(DacPart(d.Initialize()))
    case AdcPart(a) => Ok(AdcPart(a.Initialize()))
    case DigitalPart(d) =>
      var next :- Coded(d.Initialize());
      Ok(DigitalPart(next))
  }

  function AdvancePart(p: Part, target: nat): Result<Part, nat> {
    match p
    case DacPart(d) =>
      var next :- Coded(d.Advance(target));
      Ok(DacPart(next))
    case AdcPart(a) =>
      var next :- Coded(a.Advance(target));
      Ok(AdcPart(next))
    case DigitalPart(d) =>
      var next :- Coded(d.AdvanceTo(target));
      Ok(DigitalPart(next))
  }

  function ReadPart(p: Part, port: nat): Result<Value, nat> {
    match p
    case DacPart(d) => Coded(d.Read(port))
    case AdcPart(a) => Coded(a.Read(port))
    case DigitalPart(d) => Coded(d.Read(port))
  }

  function WritePart(p: Part, port: nat, time: nat, value: Value): Result<(Part, bool), nat> {
    match p
    case DacPart(d) =>
      var (next, changed) :- Coded(d.Write(port, time, value));
      Ok((DacPart(next), changed))
    case AdcPart(a) =>
      var (next, changed) :- Coded(a.Write(port, time, value));
      Ok((AdcPart(next), changed))
    case DigitalPart(d) =>
      var (next, changed) :- Coded(d.Write(port, time, value));
      Ok((DigitalPart(next), changed))
  }

  function PartBehaviour(): Behaviour<Part> {
    Behaviour(IdOf, PortsOf, TimeOf, InitializePart, NextEventOf, AdvancePart, ReadPart, WritePart)
  }

  function InputOfPart(p: Part, port: nat): Option<Value> {
    match p
    case DacPart(d) => if port == DIGITAL_IN then Some(Level(d.input)) else None
    case AdcPart(a) => if port == ANALOG_IN then Some(Volts(a.input)) else None
    case DigitalPart(d) => d.InputOf(port)
  }

  /** What construction guarantees. */
  ghost predicate Good(p: Part) {
    match p
    case DacPart(d) => d.low < d.high
    case AdcPart(a) => a.low < a.high
    case DigitalPart(d) => true
  }

  /** What holds from initialization on. */
  ghost predicate Inv(p: Part) {
    match p
    case DacPart(d) => d.Valid()
    case AdcPart(a) => a.Valid()
    case DigitalPart(d) => d.Valid()
  }

  function CellOfPart(p: Part, port: nat): Cell {
    if p.DigitalPart? then p.digital.CellOf(port) else Own(port)
  }

  lemma InitializeKeepsInv(p: Part)
    requires Good(p)
    ensures Initializes(PartBehaviour(), Inv, p)
  {
    hide Digital.Initialize, Digital.Valid;
    if p.DigitalPart? && p.digital.Initialize().Ok? {
      DigitalBridge.InitializeKeeps(p.digital);
    }
  }

  lemma EventIsFuture(p: Part)
    requires Inv(p)
    ensures FutureEvent(PartBehaviour(), p)
  {
    if p.DigitalPart? {
      Incremental.NextEventIsFuture(p.digital.session.value.state, p.digital.session.value.current);
    }
  }

  lemma AdvanceKeepsInv(p: Part, target: nat)
    requires Inv(p)
    ensures Advances(PartBehaviour(), Inv, p, target)
  {
    hide Digital.AdvanceTo, Digital.Valid, Digital.NextEvent;
    if p.DigitalPart? && p.digital.AdvanceTo(target).Ok? && target <= CoSim.U64_MAX
       && (p.digital.NextEvent().Some? ==> target <= p.digital.NextEvent().value) {
      DigitalBridge.AdvanceKeeps(p.digital, target);
    }
  }

  lemma WriteKeepsInv(p: Part, port: nat, value: Value)
    requires Inv(p)
    ensures WritesInPlace(PartBehaviour(), Inv, p, port, value)
  {
    hide Digital.Write, Digital.Valid, Digital.InputOf;
    if p.DigitalPart? && p.digital.Write(port, p.digital.Time(), value).Ok? {
      DigitalBridge.WriteKeeps(p.digital, port, value);
    }
  }

  /** Converters and digital sessions keep the contract of the co-simulation master. */
  lemma MeetsContract()
    ensures Contract(PartBehaviour(), Good, Inv)
  {
    hide Initializes, FutureEvent, Advances, WritesInPlace, Good, Inv;
    var b := PartBehaviour();
    forall p | Good(p)
      ensures Initializes(b, Inv, p)
    {
      InitializeKeepsInv(p);
    }
    forall p | Inv(p)
      ensures FutureEvent(b, p)
    {
      EventIsFuture(p);
    }
    forall p, t | Inv(p)
      ensures Advances(b, Inv, p, t)
    {
      AdvanceKeepsInv(p, t);
    }
    forall p, port, v | Inv(p)
      ensures WritesInPlace(b, Inv, p, port, v)
    {
      WriteKeepsInv(p, port, v);
    }
  }

  lemma WriteIsRegister(p: Part, port: nat, value: Value)
    requires Inv(p)
    ensures WritesRegister(PartBehaviour(), InputOfPart, CellOfPart, p, port, value)
  {
    hide Digital.Write, Digital.Valid, Digital.InputOf, Digital.CellOf;
    if p.DigitalPart? && p.digital.Write(port, p.digital.Time(), value).Ok? {
      DigitalBridge.WriteKeeps(p.digital, port, value);
      var next := p.digital.Write(port, p.digital.Time(), value).value.0;
      forall other
        ensures next.CellOf(other) == p.digital.CellOf(other)
        ensures next.InputOf(other)
             == if CellOfPart(p, other) == CellOfPart(p, port) && p.digital.InputOf(other).Some? then Some(value)
                else p.digital.InputOf(other)
      {
        DigitalBridge.WriteSpares(p.digital, port, value, other);
      }
    }
  }

  /** Their inputs are registers, of which the input ports on one digital net share one. */
  lemma MeetsRegisters()
    ensures InputsAreRegisters(PartBehaviour(), Inv, InputOfPart, CellOfPart)
    ensures CellsHoldOne(Inv, InputOfPart, CellOfPart)
  {
    hide WritesRegister, Inv;
    forall p, port, v | Inv(p)
      ensures WritesRegister(PartBehaviour(), InputOfPart, CellOfPart, p, port, v)
    {
      WriteIsRegister(p, port, v);
    }
  }

  /* ---- Under the master ---- */

  ghost predicate AppliedInTime(parts: map<nat, Part>) {
    forall id :: id in parts && parts[id].DigitalPart? ==> AllStampedInTime(parts[id].digital.log)
  }

  /**
   * In every successful co-simulation of digital sessions and converters, at every record, each event applied
   * so far was applied at a tick at most half a picosecond before and less than one after its own time.
   */
  lemma WholeRunInTime(config: Config, parts: map<nat, Part>, links: seq<Link>)
    requires config.stop <= CoSim.U64_MAX && forall id :: id in parts ==> Good(parts[id])
    requires Simulate(PartBehaviour(), config, parts, links).Ok?
    ensures forall i :: 0 <= i < |Simulate(PartBehaviour(), config, parts, links).value.trace| ==>
              AppliedInTime(Simulate(PartBehaviour(), config, parts, links).value.trace[i].parts)
  {
    hide Simulate;
    MeetsContract();
    Timeline.WholeRun(PartBehaviour(), Good, Inv, config, parts, links);
  }

  /** The registers behind the endpoints of `parts`. */
  function CellsOf(parts: map<nat, Part>): Endpoint -> Cell {
    (e: Endpoint) => if e.participant in parts then CellOfPart(parts[e.participant], e.port) else Own(e.port)
  }

  /** Whatever the links between such participants, an Ok settling ends with all of them settled. */
  lemma BridgesSettled(limit: nat, links: seq<Link>, parts: map<nat, Part>, time: nat)
    requires Settling.AllAt(PartBehaviour(), Inv, parts, time)
    requires Settle(PartBehaviour(), limit, links, parts, time, 0).Ok?
    ensures Settling.LinksSettled(PartBehaviour(), InputOfPart,
                                  Settle(PartBehaviour(), limit, links, parts, time, 0).value.0, links)
  {
    hide Contract, InputsAreRegisters;
    MeetsContract();
    MeetsRegisters();
    Settling.RegistersAreIdle(PartBehaviour(), Inv, InputOfPart, CellOfPart);
    Settling.SettledOnReturn(PartBehaviour(), Good, Inv, InputOfPart, limit, links, parts, time, 0);
  }

  /** So in every successful co-simulation all links are settled at every record, whatever their shape. */
  lemma BridgesStaySettled(config: Config, parts: map<nat, Part>, links: seq<Link>)
    requires config.stop <= CoSim.U64_MAX && forall id :: id in parts ==> Good(parts[id])
    requires Simulate(PartBehaviour(), config, parts, links).Ok?
    ensures Timeline.TraceSettled(PartBehaviour(), InputOfPart, links,
                                  Simulate(PartBehaviour(), config, parts, links).value.trace)
  {
    hide Contract, InputsAreRegisters, Simulate;
    MeetsContract();
    MeetsRegisters();
    Settling.RegistersAreIdle(PartBehaviour(), Inv, InputOfPart, CellOfPart);
    Timeline.WholeRunSettled(PartBehaviour(), Good, Inv, InputOfPart, config, parts, links);
  }

  /**
   * Acyclic links between such participants settle within `top` changing rounds, exactly if after `top` rounds
   * the sources linked to ports on one net agree; sources that settling cannot change may be compared before.
   */
  lemma BridgesConverge(rank: nat -> nat, top: nat, limit: nat, links: seq<Link>, parts: map<nat, Part>, time: nat)
    requires Settling.AllAt(PartBehaviour(), Inv, parts, time) && Settling.RaisesRank(rank, links)
    requires (forall id :: id in parts ==> rank(id) <= top) && top < limit
    ensures var (b, at) := (PartBehaviour(), CellsOf(parts));
            var (r, after) := (Settle(b, limit, links, parts, time, 0), Settling.Rounds(b, links, parts, time, top));
            && (r.Ok? ==> r.value.1 <= top && after == Ok(r.value.0) && Settling.SourcesAgree(b, at, r.value.0, links))
            && (r == Err(DeltaCycleLimit) ==> after.Ok? && !Settling.SourcesAgree(b, at, after.value, links))
            && (Settling.SteadySources(at, parts, links) && (r.Ok? || r == Err(DeltaCycleLimit)) ==>
                  (r.Ok? <==> Settling.SourcesAgree(b, at, parts, links)))
  {
    hide Contract, InputsAreRegisters, Settling.SourcesAgree;
    hide Settling.SteadySources, Settle, Settling.Rounds, CellsHoldOne;
    var (b, at) := (PartBehaviour(), CellsOf(parts));
    MeetsContract();
    MeetsRegisters();
    Settling.FeedForwardSettlesExactly(b, Good, Inv, InputOfPart, CellOfPart, at, rank, top, limit, links, parts, time);
    if Settling.SteadySources(at, parts, links) {
      Settling.FeedForwardConverges(b, Good, Inv, InputOfPart, CellOfPart, at, rank, top, limit, links, parts, time);
    }
  }

  /** What a converter hands out is the conversion of what it was last handed, and an output net that of its input. */
  ghost predicate Converts(p: Part) {
    match p
    case DacPart(d) =>
      && (InputOfPart(p, DIGITAL_IN) == Some(Level(One)) ==> ReadPart(p, ANALOG_OUT) == Ok(Volts(d.high)))
      && (InputOfPart(p, DIGITAL_IN) == Some(Level(Zero)) ==> ReadPart(p, ANALOG_OUT) == Ok(Volts(d.low)))
      && (InputOfPart(p, DIGITAL_IN) == Some(Level(Zero)) || InputOfPart(p, DIGITAL_IN) == Some(Level(One)))
    case AdcPart(a) =>
      && InputOfPart(p, ANALOG_IN).Some? && InputOfPart(p, ANALOG_IN).value.Volts?
      && var volts := InputOfPart(p, ANALOG_IN).value.volts;
         && (volts <= a.low ==> ReadPart(p, DIGITAL_OUT) == Ok(Level(Zero)))
         && (volts >= a.high ==> ReadPart(p, DIGITAL_OUT) == Ok(Level(One)))
         && (ReadPart(p, DIGITAL_OUT) == Ok(Level(Zero)) || ReadPart(p, DIGITAL_OUT) == Ok(Level(One)))
    case DigitalPart(d) =>
      forall port, out, net :: Bound(d, port, net, CoSim.Input) && Bound(d, out, net, Output) ==>
        InputOfPart(p, port).Some? && ReadPart(p, out) == Ok(InputOfPart(p, port).value)
  }

  lemma ValidConverts(p: Part)
    requires Inv(p)
    ensures Converts(p)
  {
    if p.DigitalPart? {
      hide Digital.Valid, Digital.Read, Digital.InputOf;
      forall port, out, net | Bound(p.digital, port, net, CoSim.Input) && Bound(p.digital, out, net, Output)
        ensures InputOfPart(p, port).Some? && ReadPart(p, out) == Ok(InputOfPart(p, port).value)
      {
        ReadsItsNet(p.digital, port, net);
        ReadsItsNet(p.digital, out, net);
      }
    }
  }

  /** A participant hands out and takes values through the ports it declares for that, in their domains. */
  ghost predicate PortsHonest(p: Part) {
    && (forall port :: ReadPart(p, port).Ok? ==>
          exists i: nat :: i < |PortsOf(p)| && PortsOf(p)[i].name == port && PortsOf(p)[i].Readable()
                           && PortsOf(p)[i].domain == ReadPart(p, port).value.Domain())
    && (forall port, value :: WritePart(p, port, TimeOf(p), value).Ok? ==>
          exists i: nat :: i < |PortsOf(p)| && PortsOf(p)[i].name == port && PortsOf(p)[i].Writable()
                           && PortsOf(p)[i].domain == value.Domain())
  }

  lemma DeclaredPort(p: Part, port: nat) returns (i: nat)
    requires p.DigitalPart? && FindBinding(p.digital.bindings, port).Some?
    ensures var b := FindBinding(p.digital.bindings, port).value;
            i < |PortsOf(p)| && PortsOf(p)[i] == Port(port, DigitalDomain, b.direction, None)
  {
    i :| 0 <= i < |p.digital.bindings| && p.digital.bindings[i] == FindBinding(p.digital.bindings, port).value;
  }

  lemma ValidPortsHonest(p: Part)
    requires Inv(p)
    ensures PortsHonest(p)
  {
    hide Digital.Valid;
    forall port | ReadPart(p, port).Ok?
      ensures exists i: nat :: i < |PortsOf(p)| && PortsOf(p)[i].name == port && PortsOf(p)[i].Readable()
                               && PortsOf(p)[i].domain == ReadPart(p, port).value.Domain()
    {
      if p.DigitalPart? {
        var i := DeclaredPort(p, port);
      } else {
        assert PortsOf(p)[1].name == port;
      }
    }
    forall port, value | WritePart(p, port, TimeOf(p), value).Ok?
      ensures exists i: nat :: i < |PortsOf(p)| && PortsOf(p)[i].name == port && PortsOf(p)[i].Writable()
                               && PortsOf(p)[i].domain == value.Domain()
    {
      if p.DigitalPart? {
        var i := DeclaredPort(p, port);
      } else {
        assert PortsOf(p)[0].name == port;
      }
    }
  }

  /** So it is at every record of every successful co-simulation. */
  lemma BridgesConvert(config: Config, parts: map<nat, Part>, links: seq<Link>, i: nat, id: nat)
    requires config.stop <= CoSim.U64_MAX && forall id :: id in parts ==> Good(parts[id])
    requires Simulate(PartBehaviour(), config, parts, links).Ok?
    requires i < |Simulate(PartBehaviour(), config, parts, links).value.trace|
    requires id in Simulate(PartBehaviour(), config, parts, links).value.trace[i].parts
    ensures Converts(Simulate(PartBehaviour(), config, parts, links).value.trace[i].parts[id])
    ensures PortsHonest(Simulate(PartBehaviour(), config, parts, links).value.trace[i].parts[id])
  {
    hide Simulate, Converts, PortsHonest, Inv, Good, Contract;
    MeetsContract();
    Timeline.WholeRun(PartBehaviour(), Good, Inv, config, parts, links);
    ValidConverts(Simulate(PartBehaviour(), config, parts, links).value.trace[i].parts[id]);
    ValidPortsHonest(Simulate(PartBehaviour(), config, parts, links).value.trace[i].parts[id]);
  }

  /* ---- A net bound to two ports ---- */

  /** One net, which nothing drives and no component reads. */
  const WIRE: Program := Program([], [[]], [[]])

  function WireState(v: LogicValue): Kernel.State {
    Kernel.EmptyState(WIRE).(nets := [v])
  }

  /** A running digital participant with two input ports on that net, which holds `v`. */
  function SharedDigital(v: LogicValue): Digital {
    Digital(3, WIRE, 1000, [Binding(1, 0, CoSim.Input), Binding(2, 0, CoSim.Input)], Some(Live(0, WireState(v))), [])
  }

  function SharedNet(v: LogicValue): Part {
    DigitalPart(SharedDigital(v))
  }

  lemma SharedNetRuns(v: LogicValue)
    ensures Inv(SharedNet(v)) && TimeOf(SharedNet(v)) == 0
  {
  }

  lemma WireWrites(v: LogicValue, w: LogicValue)
    ensures Session.Write(WIRE, 1000, {0}, 0, WireState(v), 0, 0, w) == Ok((WireState(w), v != w))
    ensures AppliedByWrite(WIRE, 1000, 0, WireState(v), 0, w) == []
  {
    assert WireState(v).(nets := WireState(v).nets[0 := w]) == WireState(w);
    assert Session.Written(WIRE, 1000, 0, WireState(v), 0, w) == Ok(WireState(w));
  }

  lemma SharedBindings(v: LogicValue, port: nat)
    requires port == 1 || port == 2
    ensures SharedDigital(v).Externals() == {0} && FindBinding(SharedDigital(v).bindings, port)
        == Some(Binding(port, 0, CoSim.Input))
  {
    var bindings := SharedDigital(v).bindings;
    assert bindings[0] in bindings;
    assert FindBinding(bindings, 2) == FindBinding(bindings[1..], 2) == Some(bindings[1]);
  }

  lemma SharedDigitalWrites(v: LogicValue, port: nat, w: LogicValue)
    requires port == 1 || port == 2
    ensures SharedDigital(v).Write(port, 0, Level(w)) == Ok((SharedDigital(w), v != w))
  {
    var d := SharedDigital(v);
    WireWrites(v, w);
    SharedBindings(v, port);
    hide Session.Write, WireState, AppliedByWrite, FindBinding, Digital.Externals;
    assert d.log + Stamped(0, []) == d.log;
  }

  lemma SharedNetWrites(v: LogicValue, port: nat, w: LogicValue)
    requires port == 1 || port == 2
    ensures WritePart(SharedNet(v), port, 0, Level(w)) == Ok((SharedNet(w), v != w))
  {
    SharedDigitalWrites(v, port, w);
    hide Digital.Write, SharedDigital;
  }

  lemma SharedNetShows(v: LogicValue)
    ensures InputOfPart(SharedNet(v), 2) == Some(Level(v))
  {
    var bindings := SharedNet(v).digital.bindings;
    assert FindBinding(bindings, 2) == FindBinding(bindings[1..], 2) == Some(bindings[1]);
    hide FindBinding;
  }

  function OwnCell(p: Part, port: nat): Cell {
    Own(port)
  }

  /** Its two inputs are not independent. */
  lemma SharedNetIsNoRegister()
    ensures !InputsAreRegisters(PartBehaviour(), Inv, InputOfPart, OwnCell)
  {
    hide Inv, WritePart, SharedNet, InputOfPart;
    var p := SharedNet(Zero);
    SharedNetRuns(Zero);
    SharedNetWrites(Zero, 1, One);
    SharedNetShows(Zero);
    SharedNetShows(One);
    assert !WritesRegister(PartBehaviour(), InputOfPart, OwnCell, p, 1, Level(One));
  }

  /** Two converters, one of them reading 1 and the other 0, and the two ports. */
  function Disagreeing(v: LogicValue): map<nat, Part> {
    map[1 := AdcPart(Adc(1, -2.0, -1.0, 0, 0.0, One)), 2 := AdcPart(Adc(2, 1.0, 2.0, 0, 0.0, Zero)), 3 := SharedNet(v)]
  }

  const BOTH_LINKS: seq<Link> :=
    [Link(Endpoint(1, DIGITAL_OUT), Endpoint(3, 1)), Link(Endpoint(2, DIGITAL_OUT), Endpoint(3, 2))]

  lemma DisagreeingReads(v: LogicValue)
    ensures ReadAll(PartBehaviour(), Disagreeing(v), BOTH_LINKS) == Ok([Level(One), Level(Zero)])
  {
    hide Digital.Read, Digital.Ports, SharedNet;
    var b, parts := PartBehaviour(), Disagreeing(v);
    assert FindPort(ADC_PORTS, DIGITAL_OUT) == FindPort(ADC_PORTS[1..], DIGITAL_OUT) == Some(ADC_PORTS[1]);
    assert ReadSource(b, parts, BOTH_LINKS[0].source) == Ok(Level(One));
    assert ReadSource(b, parts, BOTH_LINKS[1].source) == Ok(Level(Zero));
    hide ReadSource;
    var rest := BOTH_LINKS[1..];
    assert rest[0] == BOTH_LINKS[1] && rest[1..] == [];
    var none: seq<Value> := [];
    assert ReadAll(b, parts, rest[1..]) == Ok(none) && [Level(Zero)] + none == [Level(Zero)];
    assert ReadAll(b, parts, rest) == Ok([Level(Zero)]) && [Level(One)] + [Level(Zero)] == [Level(One), Level(Zero)];
  }

  lemma DisagreeingWrites(v: LogicValue, port: nat, w: LogicValue)
    requires port == 1 || port == 2
    ensures WriteTarget(PartBehaviour(), Disagreeing(v), Endpoint(3, port), 0, Level(w)) == Ok((Disagreeing(w), v != w))
  {
    SharedNetWrites(v, port, w);
    SharedNetRuns(w);
    hide WritePart, SharedNet, TimeOf;
    assert Disagreeing(v)[3 := SharedNet(w)] == Disagreeing(w);
  }

  lemma DisagreeingRound(v: LogicValue)
    ensures Round(PartBehaviour(), Disagreeing(v), BOTH_LINKS, 0) == Ok((Disagreeing(Zero), true))
  {
    DisagreeingReads(v);
    DisagreeingWrites(v, 1, One);
    DisagreeingWrites(One, 2, Zero);
    hide ReadAll, Disagreeing, WriteTarget;
    var b, rest, values := PartBehaviour(), BOTH_LINKS[1..], [Level(One), Level(Zero)];
    assert rest[0] == BOTH_LINKS[1] && values[1..][0] == values[1];
    assert WriteAll(b, Disagreeing(Zero), rest[1..], values[1..][1..], 0) == Ok((Disagreeing(Zero), false));
    assert WriteAll(b, Disagreeing(One), rest, values[1..], 0) == Ok((Disagreeing(Zero), true));
  }

  lemma DisagreeingPorts(v: LogicValue)
    ensures var (b, parts) := (PartBehaviour(), Disagreeing(v));
            && PortAt(b, parts, Endpoint(1, DIGITAL_OUT)) == Some(ADC_PORTS[1])
                == PortAt(b, parts, Endpoint(2, DIGITAL_OUT))
            && PortAt(b, parts, Endpoint(3, 1)) == Some(Port(1, DigitalDomain, CoSim.Input, None))
            && PortAt(b, parts, Endpoint(3, 2)) == Some(Port(2, DigitalDomain, CoSim.Input, None))
  {
    hide WireState;
    assert FindPort(ADC_PORTS, DIGITAL_OUT) == FindPort(ADC_PORTS[1..], DIGITAL_OUT) == Some(ADC_PORTS[1]);
    var ports := PortsOf(SharedNet(v));
    assert FindPort(ports, 2) == FindPort(ports[1..], 2) == Some(ports[1]);
    hide FindPort;
  }

  /** The master accepts the two links. */
  lemma DisagreeingLinksCheck(v: LogicValue)
    ensures CheckLinks(PartBehaviour(), Disagreeing(v), BOTH_LINKS, {}).Ok?
  {
    var b, parts, rest := PartBehaviour(), Disagreeing(v), BOTH_LINKS[1..];
    DisagreeingPorts(v);
    hide PortAt, Disagreeing, PartBehaviour;
    assert CheckLink(b, parts, BOTH_LINKS[0]).Ok? && CheckLink(b, parts, BOTH_LINKS[1]).Ok?;
    hide CheckLink;
    assert rest[0] == BOTH_LINKS[1] && rest[1..] == [];
    assert CheckLinks(b, parts, rest[1..], {BOTH_LINKS[0].target} + {rest[0].target}).Ok?;
    assert {} + {BOTH_LINKS[0].target} == {BOTH_LINKS[0].target};
    assert CheckLinks(b, parts, rest, {BOTH_LINKS[0].target}).Ok?;
  }

  lemma {:induction false} DisagreeingFrom(v: LogicValue, limit: nat, cycle: nat)
    requires cycle <= limit
    ensures Settle(PartBehaviour(), limit, BOTH_LINKS, Disagreeing(v), 0, cycle) == Err(DeltaCycleLimit)
    decreases limit - cycle
  {
    hide Round, Disagreeing;
    if cycle < limit {
      DisagreeingRound(v);
      DisagreeingFrom(Zero, limit, cycle + 1);
    }
  }

  /** Valid feed-forward links between running participants that no limit lets settle. */
  lemma SharedNetNeverSettles(limit: nat)
    ensures Settling.AllAt(PartBehaviour(), Inv, Disagreeing(X), 0)
    ensures CheckLinks(PartBehaviour(), Disagreeing(X), BOTH_LINKS, {}).Ok?
    ensures Settling.RaisesRank(id => if id == 3 then 1 else 0, BOTH_LINKS)
    ensures Settle(PartBehaviour(), limit, BOTH_LINKS, Disagreeing(X), 0, 0) == Err(DeltaCycleLimit)
  {
    hide Settle, CheckLinks, SharedNet, Digital.Valid, Digital.Time;
    SharedNetRuns(X);
    DisagreeingLinksCheck(X);
    DisagreeingFrom(X, limit, 0);
  }
}
