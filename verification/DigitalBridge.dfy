/** The digital session as a participant: named ports bound to nets, and a log of when each batch was applied. */
module DigitalBridge {
  import opened Wrappers
  import opened Logic
  import opened Circuit
  import opened Bridges
  import opened CoSim
  import Kernel
  import Projection
  import Levelized
  import Session
  import Incremental
  import Resting

  datatype Binding = Binding(port: nat, net: nat, direction: Direction)

  datatype Live = Live(current: nat, state: Kernel.State)

  /** `log` is a history variable: the picosecond tick at which each batch was applied, and the batch's time. */
  datatype Digital = Digital(id: nat, program: Program, stop: nat, bindings: seq<Binding>, session: Option<Live>,
                             log: seq<(nat, nat)>)
  {
    function Externals(): set<nat> {
      set b | b in bindings && b.direction == Input :: b.net
    }

    /** What construction guarantees: a compiled program whose external inputs nothing drives. */
    ghost predicate Made() {
      && WellFormed(program) && Incremental.Undriven(program, Externals())
      && (forall i :: 0 <= i < |bindings| ==> bindings[i].net < |program.drivers|)
      && (session.Some? ==> Kernel.Ready(program, session.value.state))
    }

    function Ports(): seq<Port> {
      seq(|bindings|, i requires 0 <= i < |bindings| => Port(bindings[i].port, DigitalDomain, bindings[i].direction,
                                                             None))
    }

    function Time(): nat {
      if session.Some? then session.value.current else 0
    }

    function NextEvent(): Option<nat> {
      if session.Some? then Session.NextEvent(session.value.state, session.value.current) else None
    }

    /** A new session, opened by an advance to time zero. */
    function Initialize(): (r: Result<Digital, BridgeError>)
      requires Made()
      ensures r.Ok? ==> r.value.Made() && r.value.bindings == bindings && r.value.Time() == 0
    {
      match Kernel.Start(program, stop)
      case Err(_) => Err(SessionFailed)
      case Ok(s) =>
        Levelized.StartKeeps(program, stop);
        match Session.Advance(program, stop, 0, s, 0)
        case Err(_) => Err(SessionFailed)
        case Ok(t) =>
          Ok(this.(session := Some(Live(0, t)),
                   log := Stamped(0, Incremental.AppliedTimes(program, stop, s, Session.Bound(0)))))
    }

    function AdvanceTo(target: nat): (r: Result<Digital, BridgeError>)
      requires Made()
      ensures r.Ok? ==> r.value.Made() && r.value.bindings == bindings && r.value.Time() == target
    {
      if session.None? then Err(NotInitialized)
      else
        var s := session.value.state;
        match Session.Advance(program, stop, session.value.current, s, target)
        case Err(_) => Err(SessionFailed)
        case Ok(t) =>
          Ok(this.(session := Some(Live(target, t)),
                   log := log + Stamped(target, Incremental.AppliedTimes(program, stop, s, Session.Bound(target)))))
    }

    function Read(port: nat): Result<Value, BridgeError> {
      match FindBinding(bindings, port)
      case None => Err(PortMissing)
      case Some(b) =>
        if b.direction != Output then Err(PortDirection)
        else if session.None? then Err(NotInitialized)
        else if b.net >= |session.value.state.nets| then Err(SessionFailed)
        else Ok(Level(session.value.state.nets[b.net]))
    }

    function Write(port: nat, at: nat, value: Value): (r: Result<(Digital, bool), BridgeError>)
      requires Made()
      ensures r.Ok? ==> r.value.0.Made() && r.value.0.bindings == bindings && r.value.0.Time() == Time()
    {
      match FindBinding(bindings, port)
      case None => Err(PortMissing)
      case Some(b) =>
        if b.direction != Input then Err(PortDirection)
        else if !value.Level? then Err(WrongDomain)
        else if session.None? then Err(NotInitialized)
        else
          var (current, s) := (session.value.current, session.value.state);
          match Session.Write(program, stop, Externals(), current, s, b.net, at, value.level)
          case Err(_) => Err(SessionFailed)
          case Ok((t, changed)) =>
            var times := if changed then AppliedByWrite(program, stop, current, s, b.net, value.level) else [];
            Ok((this.(session := Some(Live(current, t)), log := log + Stamped(current, times)), changed))
    }

    /** What an input port holds. */
    function InputOf(port: nat): Option<Value> {
      var b := FindBinding(bindings, port);
      if b.Some? && b.value.direction == Input && session.Some? && b.value.net < |session.value.state.nets|
      then Some(Level(session.value.state.nets[b.value.net])) else None
    }

    /** No event is overdue, and every batch so far was applied in time. */
    ghost predicate Valid() {
      && Made() && session.Some?
      && Projection.Base(program, stop, session.value.state)
          && Incremental.Ahead(session.value.current, session.value.state)
      && AllStampedInTime(log)
    }

    /** Where a port's value is stored: bound ports of one net share it. */
    function CellOf(port: nat): Cell {
      var b := FindBinding(bindings, port);
      if b.Some? then Shared(b.value.net) else Own(port)
    }
  }

  function FindBinding(bindings: seq<Binding>, port: nat): (r: Option<Binding>)
    ensures r.Some? ==> r.value in bindings && r.value.port == port
    ensures r.None? ==> forall b :: b in bindings ==> b.port != port
  {
    if |bindings| == 0 then None
    else if bindings[0].port == port then Some(bindings[0])
    else FindBinding(bindings[1..], port)
  }

  function Stamped(tick: nat, times: seq<nat>): (r: seq<(nat, nat)>)
    ensures |r| == |times| && forall i :: 0 <= i < |r| ==> r[i] == (tick, times[i])
  {
    seq(|times|, i requires 0 <= i < |times| => (tick, times[i]))
  }

  /** The batches that follow from an input write, in the same tick. */
  function AppliedByWrite(p: Program, stop: nat, current: nat, s: Kernel.State, net: nat, value: LogicValue): seq<nat>
    requires WellFormed(p) && Kernel.Ready(p, s) && net < |s.nets|
  {
    match Session.Written(p, stop, current, s, net, value)
    case Err(_) => []
    case Ok(t) => Incremental.AppliedTimes(p, stop, t, Session.Bound(current))
  }

  ghost predicate AllStampedInTime(log: seq<(nat, nat)>) {
    forall i :: 0 <= i < |log| ==> Incremental.InTime(log[i].0, log[i].1)
  }

  lemma StampedInTime(log: seq<(nat, nat)>, tick: nat, times: seq<nat>)
    requires AllStampedInTime(log) && Incremental.AllInTime(tick, times)
    ensures AllStampedInTime(log + Stamped(tick, times))
  {
  }

  /* ---- Construction ---- */

  function CheckBindings(p: Program, bindings: seq<Binding>, seen: set<nat>): Result<(), BridgeError> {
    if |bindings| == 0 then Ok(())
    else
      var b := bindings[0];
      if b.port == 0 || b.net >= |p.drivers| then Err(IdInvalid)
      else if b.direction != Input && b.direction != Output then Err(PortDirection)
      else if b.direction == Input && |p.drivers[b.net]| > 0 then Err(PortDirection)
      else if b.port in seen then Err(IdInvalid)
      else CheckBindings(p, bindings[1..], seen + {b.port})
  }

  function NewDigital(id: nat, p: Program, stop: nat, bindings: seq<Binding>): Result<Digital, BridgeError> {
    if id == 0 then Err(IdInvalid)
    else
      var _ :- CheckBindings(p, bindings, {});
      if |bindings| == 0 then Err(IdInvalid) else Ok(Digital(id, p, stop, bindings, None, []))
  }

  lemma {:induction false} CheckedBindings(p: Program, bindings: seq<Binding>, seen: set<nat>)
    requires CheckBindings(p, bindings, seen).Ok?
    ensures forall i :: 0 <= i < |bindings| ==>
              && bindings[i].net < |p.drivers| && (bindings[i].direction == Input ==> p.drivers[bindings[i].net] == [])
              && bindings[i].port != 0 && bindings[i].port !in seen
    ensures forall i, j :: 0 <= i < j < |bindings| ==> bindings[i].port != bindings[j].port
  {
    if |bindings| > 0 {
      CheckedBindings(p, bindings[1..], seen + {bindings[0].port});
    }
  }

  /** A named port on a net that exists, handing out its level, or handing it one if nothing else drives it. */
  predicate FitBinding(p: Program, b: Binding) {
    && b.port != 0 && b.net < |p.drivers|
    && (b.direction == Output || (b.direction == Input && p.drivers[b.net] == []))
  }

  lemma {:induction false} CheckBindingsIsExact(p: Program, bindings: seq<Binding>, seen: set<nat>)
    ensures CheckBindings(p, bindings, seen).Ok? <==>
              && (forall i :: 0 <= i < |bindings| ==> FitBinding(p, bindings[i]) && bindings[i].port !in seen)
              && (forall i, j :: 0 <= i < j < |bindings| ==> bindings[i].port != bindings[j].port)
    decreases |bindings|
  {
    if |bindings| > 0 {
      var rest := bindings[1..];
      CheckBindingsIsExact(p, rest, seen + {bindings[0].port});
      assert bindings == [bindings[0]] + rest;
      assert forall i :: 0 <= i < |rest| ==> rest[i] == bindings[i + 1];
    }
  }

  /** Construction succeeds exactly for a named participant with fit bindings, at least one, of distinct ports. */
  lemma NewDigitalIsExact(id: nat, p: Program, stop: nat, bindings: seq<Binding>)
    ensures NewDigital(id, p, stop, bindings).Ok? <==>
              && id != 0 && bindings != [] && (forall i :: 0 <= i < |bindings| ==> FitBinding(p, bindings[i]))
              && (forall i, j :: 0 <= i < j < |bindings| ==> bindings[i].port != bindings[j].port)
  {
    CheckBindingsIsExact(p, bindings, {});
  }

  /** Construction establishes what the operations rely on, and the master accepts the ports. */
  lemma NewDigitalIsMade(id: nat, p: Program, stop: nat, bindings: seq<Binding>)
    requires WellFormed(p) && NewDigital(id, p, stop, bindings).Ok?
    ensures NewDigital(id, p, stop, bindings).value.Made()
    ensures ValidatePorts(NewDigital(id, p, stop, bindings).value.Ports(), {}).Ok?
  {
    CheckedBindings(p, bindings, {});
    PortsAreValid(NewDigital(id, p, stop, bindings).value.Ports(), {});
  }

  lemma {:induction false} PortsAreValid(ports: seq<Port>, names: set<nat>)
    requires forall i :: 0 <= i < |ports| ==>
               ports[i].name != 0 && ports[i].name !in names && ports[i].domain == DigitalDomain && ports[i].unit.None?
    requires forall i, j :: 0 <= i < j < |ports| ==> ports[i].name != ports[j].name
    ensures ValidatePorts(ports, names).Ok?
    decreases |ports|
  {
    if |ports| > 0 {
      PortsAreValid(ports[1..], names + {ports[0].name});
    }
  }

  /* ---- The contract, operation by operation ---- */

  lemma InitializeKeeps(d: Digital)
    requires d.Made() && d.Initialize().Ok?
    ensures d.Initialize().value.Valid()
  {
    var s := Kernel.Start(d.program, d.stop).value;
    Levelized.StartKeeps(d.program, d.stop);
    Incremental.AdvanceKeeps(d.program, d.stop, 0, s, 0);
    Incremental.AppliedWithin(d.program, d.stop, s, 0, 0);
    StampedInTime([], 0, Incremental.AppliedTimes(d.program, d.stop, s, Session.Bound(0)));
  }

  /** The master never passes the reported event, so nothing is applied late. */
  lemma AdvanceKeeps(d: Digital, target: nat)
    requires d.Valid() && target <= CoSim.U64_MAX && d.AdvanceTo(target).Ok?
    requires d.NextEvent().Some? ==> target <= d.NextEvent().value
    ensures d.AdvanceTo(target).value.Valid()
  {
    hide Projection.Base, Kernel.Process, Incremental.AppliedTimes;
    var (current, s) := (d.session.value.current, d.session.value.state);
    Incremental.AdvanceKeeps(d.program, d.stop, current, s, target);
    Incremental.AdvanceInTime(d.program, d.stop, current, s, target);
    StampedInTime(d.log, target, Incremental.AppliedTimes(d.program, d.stop, s, Session.Bound(target)));
  }

  lemma WriteKeeps(d: Digital, port: nat, value: Value)
    requires d.Valid() && d.Write(port, d.Time(), value).Ok?
    ensures var (next, changed) := d.Write(port, d.Time(), value).value;
            && next.Valid() && next.InputOf(port) == Some(value) && d.InputOf(port).Some?
            && (changed <==> d.InputOf(port) != Some(value)) && (!changed ==> next == d)
  {
    hide Projection.Base, Kernel.Process, Incremental.AppliedTimes;
    var (current, s) := (d.session.value.current, d.session.value.state);
    var b := FindBinding(d.bindings, port).value;
    assert b.net in d.Externals();
    Incremental.WriteKeeps(d.program, d.stop, d.Externals(), current, s, b.net, current, value.level);
    if d.Write(port, d.Time(), value).value.1 {
      Incremental.WriteInTime(d.program, d.stop, current, s, b.net, value.level);
      StampedInTime(d.log, current, AppliedByWrite(d.program, d.stop, current, s, b.net, value.level));
    }
  }

  /** A write shows at every input port on its net and spares every other one. */
  lemma WriteSpares(d: Digital, port: nat, value: Value, other: nat)
    requires d.Valid() && d.Write(port, d.Time(), value).Ok?
    ensures d.Write(port, d.Time(), value).value.0.CellOf(other) == d.CellOf(other)
    ensures d.Write(port, d.Time(), value).value.0.InputOf(other)
         == if d.CellOf(other) == d.CellOf(port) && d.InputOf(other).Some? then Some(value) else d.InputOf(other)
  {
    hide Projection.Base, Kernel.Process, Incremental.AppliedTimes;
    var (current, s) := (d.session.value.current, d.session.value.state);
    var b, c := FindBinding(d.bindings, port).value, FindBinding(d.bindings, other);
    assert b.net in d.Externals();
    Incremental.WriteKeeps(d.program, d.stop, d.Externals(), current, s, b.net, current, value.level);
    WriteKeeps(d, port, value);
    if c.Some? && c.value.direction == Input {
      assert c.value.net in d.Externals();
    }
  }

  /** The only binding of a port, if any; construction makes it the only one. */
  ghost predicate Bound(d: Digital, port: nat, net: nat, direction: Direction) {
    && Binding(port, net, direction) in d.bindings
    && forall b :: b in d.bindings && b.port == port ==> b == Binding(port, net, direction)
  }

  lemma ValidRuns(d: Digital)
    requires d.Valid()
    ensures d.Made() && d.session.Some?
  {
  }

  /** An output port hands out the level of its net, and no other port hands out anything. */
  lemma ReadsItsNet(d: Digital, port: nat, net: nat)
    requires d.Valid()
    ensures Bound(d, port, net, Output) ==>
              net < |d.session.value.state.nets| && d.Read(port) == Ok(Level(d.session.value.state.nets[net]))
    ensures Bound(d, port, net, Input) ==>
              net < |d.session.value.state.nets| && d.Read(port) == Err(PortDirection)
              && d.InputOf(port) == Some(Level(d.session.value.state.nets[net]))
    ensures (forall b :: b in d.bindings ==> b.port != port) ==> d.Read(port) == Err(PortMissing)
  {
    hide Projection.NetsConsistent, Projection.Ordered;
    var b := FindBinding(d.bindings, port);
    if b.Some? {
      var i :| 0 <= i < |d.bindings| && d.bindings[i] == b.value;
    }
  }

  /** A level written to an input port can be read back at once at an output port on the same net. */
  lemma ReadsBack(d: Digital, port: nat, value: Value, net: nat, out: nat)
    requires d.Valid() && d.Write(port, d.Time(), value).Ok?
    requires Bound(d, port, net, Input) && Bound(d, out, net, Output)
    ensures d.Write(port, d.Time(), value).value.0.Read(out) == Ok(value)
  {
    hide Digital.Valid, Digital.Write, Digital.Read, Digital.InputOf;
    ValidRuns(d);
    WriteKeeps(d, port, value);
    var next := d.Write(port, d.Time(), value).value.0;
    ReadsItsNet(next, port, net);
    ReadsItsNet(next, out, net);
  }

  /** In an acyclic zero-delay circuit at rest, every output port hands out one topological pass, up to buffering. */
  lemma ReadsOnePass(d: Digital, port: nat, net: nat, order: seq<nat>)
    requires d.Valid() && Bound(d, port, net, Output)
    requires Levelized.LevelizedCircuit(d.program) && Levelized.Topological(d.program, order)
    requires Resting.Resting(d.program, d.stop, d.session.value.current, d.session.value.state)
    ensures var s := d.session.value.state;
            var pass := Levelized.LevelizeFrom(d.program, Resting.PresentInputs(d.program, s),
                                               Resting.PresentSources(d.program, s), order);
            && net < |pass| && d.Read(port).Ok? && d.Read(port).value.Level?
            && Levelized.SameBuffered(d.Read(port).value.level, pass[net])
  {
    hide Levelized.LevelizedCircuit, Levelized.Topological, Levelized.LevelizeFrom, Digital.Valid, Digital.Read;
    hide Resting.Resting;
    ValidRuns(d);
    ReadsItsNet(d, port, net);
    Resting.RestIsOnePass(d.program, d.stop, d.session.value.current, d.session.value.state, order);
  }

  /** Everything a write must satisfy to be taken. */
  lemma WriteRefusals(d: Digital, port: nat, net: nat, at: nat, value: Value)
    requires d.Valid() && Bound(d, port, net, Input)
    ensures d.Write(port, at, value).Ok? ==> at == d.Time() && value.Level?
    ensures value.Level? && at == d.Time() && d.Write(port, at, value).Err? ==>
              d.Write(port, at, value) == Err(SessionFailed) && d.InputOf(port) != Some(value)
  {
    hide Kernel.Process, Session.Written, Projection.Base;
  }

  /* ---- The participant object ---- */

  class DigitalParticipant {
    const id: nat
    const program: Program
    const stop: nat
    const bindings: seq<Binding>
    var session: Session.DigitalSession?
    ghost var log: seq<(nat, nat)>

    ghost function View(): Digital
      reads this, session
    {
      Digital(id, program, stop, bindings, if session == null then None
              else Some(Live(session.currentTime, session.View())), log)
    }

    /** The session, once there is one, is this participant's own. */
    ghost predicate Valid()
      reads this, session
    {
      && View().Made()
      && (session != null ==>
            && session.Valid() && session.program == program && session.stop == stop
            && session.externalInputs == View().Externals())
    }

    constructor (id: nat, program: Program, stop: nat, bindings: seq<Binding>)
      requires WellFormed(program) && NewDigital(id, program, stop, bindings).Ok?
      ensures Valid() && Ok(View()) == NewDigital(id, program, stop, bindings)
    {
      NewDigitalIsMade(id, program, stop, bindings);
      this.id, this.program, this.stop, this.bindings := id, program, stop, bindings;
      session := null;
      log := [];
    }

    method Initialize() returns (r: Result<(), BridgeError>)
      requires Valid()
      modifies this
      ensures Valid()
      ensures r.Ok? ==> session != null && fresh(session) && old(View()).Initialize() == Ok(View())
      ensures r.Err? ==> session == old(session) && View() == old(View())
      ensures r.Err? && r.error != Cancelled ==> old(View()).Initialize() == Err(r.error)
    {
      hide Kernel.Process, Kernel.Start, Incremental.AppliedTimes;
      hide Projection.NetsConsistent, Projection.Ordered, WellFormed;
      if * {
        return Err(Cancelled);
      }
      var externals := set b | b in bindings && b.direction == Input :: b.net;
      var opening := new Session.DigitalSession(program, stop, externals);
      var started := opening.Initialize();
      if started.Err? {
        return Err(if started.error == Kernel.Interrupted then Cancelled else SessionFailed);
      }
      ghost var s := opening.View();
      var advanced := opening.AdvanceTo(0);
      if advanced.Err? {
        return Err(if advanced.error == Kernel.Interrupted then Cancelled else SessionFailed);
      }
      session := opening;
      log := Stamped(0, Incremental.AppliedTimes(program, stop, s, Session.Bound(0)));
      r := Ok(());
    }

    method NextEventTime() returns (r: Option<nat>)
      ensures r == View().NextEvent()
    {
      if session == null {
        return None;
      }
      r := session.NextEventTime();
    }

    method AdvanceTo(target: nat) returns (r: Result<(), BridgeError>)
      requires Valid()
      modifies this, session
      ensures session == old(session)
      ensures r.Ok? ==> Valid() && old(View()).AdvanceTo(target) == Ok(View())
      ensures r.Err? && r.error != Cancelled ==> old(View()).AdvanceTo(target) == Err(r.error)
      ensures r.Err? && r.error != Cancelled && r.error != SessionFailed ==> View() == old(View())
    {
      hide Kernel.Process, Projection.Base, Incremental.AppliedTimes;
      if session == null {
        return Err(NotInitialized);
      }
      ghost var s := session.View();
      var advanced := session.AdvanceTo(target);
      if advanced.Err? {
        return Err(if advanced.error == Kernel.Interrupted then Cancelled else SessionFailed);
      }
      log := log + Stamped(target, Incremental.AppliedTimes(program, stop, s, Session.Bound(target)));
      r := Ok(());
    }

    method ReadOutput(port: nat) returns (r: Result<Value, BridgeError>)
      ensures r == View().Read(port)
    {
      var b := FindBinding(bindings, port);
      if b.None? {
        return Err(PortMissing);
      }
      if b.value.direction != Output {
        return Err(PortDirection);
      }
      if session == null {
        return Err(NotInitialized);
      }
      var level := session.ReadNet(b.value.net);
      r := if level.Ok? then Ok(Level(level.value)) else Err(SessionFailed);
    }

    method WriteInput(port: nat, time: nat, value: Value) returns (r: Result<bool, BridgeError>)
      requires Valid()
      modifies this, session
      ensures session == old(session)
      ensures r.Ok? ==> Valid() && old(View()).Write(port, time, value) == Ok((View(), r.value))
      ensures r.Err? && r.error != Cancelled ==> old(View()).Write(port, time, value) == Err(r.error)
      ensures r.Err? && r.error != Cancelled && r.error != SessionFailed ==> View() == old(View())
    {
      hide Kernel.Process, Projection.Base, Incremental.AppliedTimes;
      var b := FindBinding(bindings, port);
      if b.None? {
        return Err(PortMissing);
      }
      if b.value.direction != Input {
        return Err(PortDirection);
      }
      if !value.Level? {
        return Err(WrongDomain);
      }
      if session == null {
        return Err(NotInitialized);
      }
      ghost var s := session.View();
      assert b.value.net in View().Externals();
      var written := session.WriteExternal(b.value.net, time, value.level);
      if written.Err? {
        return Err(if written.error == Kernel.Interrupted then Cancelled else SessionFailed);
      }
      ghost var times := if written.value then AppliedByWrite(program, stop, session.currentTime, s, b.value.net,
                                                              value.level) else [];
      log := log + Stamped(session.currentTime, times);
      r := Ok(written.value);
    }
  }
}
