/**
 * The co-simulation master as functions. A participant is known only through its `Behaviour`; names and
 * ids are numbers in the order of their strings, 0 being the blank name. Time counts picoseconds in 64 bits.
 */
module CoSim {
  import opened Wrappers
  import opened Logic
  import opened Ordering

  const U64_MAX: nat := 0xFFFF_FFFF_FFFF_FFFF

  datatype Domain = AnalogDomain | DigitalDomain | MixedDomain | ReferenceDomain

  datatype Direction = Input | Output | Bidirectional | Passive

  datatype Port = Port(name: nat, domain: Domain, direction: Direction, unit: Option<nat>) {
    predicate Readable() {
      direction == Output || direction == Bidirectional
    }

    predicate Writable() {
      direction == Input || direction == Bidirectional
    }
  }

  datatype Value = Level(level: LogicValue) | Volts(volts: real) {
    function Domain(): Domain {
      if Level? then DigitalDomain else AnalogDomain
    }
  }

  datatype Endpoint = Endpoint(participant: nat, port: nat)

  datatype Link = Link(source: Endpoint, target: Endpoint)

  datatype Config = Config(stop: nat, maxStep: nat, maxDeltaCycles: nat, maxSteps: nat) {
    predicate Valid() {
      stop > 0 && maxStep > 0 && maxDeltaCycles > 0 && maxSteps > 0
    }
  }

  datatype Stats = Stats(macroSteps: nat, deltaCycles: nat, participantAdvances: nat)

  datatype Operation = Initialize | AdvanceTo | ReadOutput | WriteInput | RecordOutput

  datatype CosimError =
    | Interrupted
    | ConfigInvalid
    | ParticipantInvalid | ParticipantDuplicate | ParticipantMissing
    | PortInvalid | PortDuplicate
    | LinkInvalid | DomainMismatch | UnitMismatch | MultipleDrivers
    | ParticipantTimeInvalid | EventTimeInvalid | TimeStalled
    | StepLimit | DeltaCycleLimit | ValueDomainMismatch
    | Panicked  // an `expect` on a link that was validated before
    | ParticipantFailed(id: nat, operation: Operation, code: nat)

  /** What the master may ask of a participant, the state being passed explicitly. */
  datatype Behaviour<!P> = Behaviour(
    id: P -> nat,
    ports: P -> seq<Port>,
    time: P -> nat,
    initialize: P -> Result<P, nat>,
    nextEvent: P -> Option<nat>,
    advance: (P, nat) -> Result<P, nat>,
    read: (P, nat) -> Result<Value, nat>,
    write: (P, nat, nat, Value) -> Result<(P, bool), nat>)

  /** The contract in the trait's documentation, `good` before and `inv` after initialization. */
  ghost predicate Contract<P(!new)>(b: Behaviour<P>, good: P -> bool, inv: P -> bool) {
    && (forall p :: good(p) ==> Initializes(b, inv, p))
    && (forall p :: inv(p) ==> FutureEvent(b, p))
    && (forall p, t :: inv(p) ==> Advances(b, inv, p, t))
    && (forall p, port, v :: inv(p) ==> WritesInPlace(b, inv, p, port, v))
  }

  ghost predicate Initializes<P>(b: Behaviour<P>, inv: P -> bool, p: P) {
    var r := b.initialize(p);
    r.Ok? ==> inv(r.value) && b.time(r.value) == 0 && b.ports(r.value) == b.ports(p)
  }

  ghost predicate FutureEvent<P>(b: Behaviour<P>, p: P) {
    b.nextEvent(p).Some? ==> b.nextEvent(p).value > b.time(p)
  }

  /** Only what the master asks for: a later time that does not pass the reported next event. */
  ghost predicate Advances<P>(b: Behaviour<P>, inv: P -> bool, p: P, t: nat) {
    var r := b.advance(p, t);
    b.time(p) < t <= U64_MAX && (b.nextEvent(p).Some? ==> t <= b.nextEvent(p).value) && r.Ok? ==>
      inv(r.value) && b.time(r.value) == t && b.ports(r.value) == b.ports(p)
  }

  /** A write at the current time happens at that time. */
  ghost predicate WritesInPlace<P>(b: Behaviour<P>, inv: P -> bool, p: P, port: nat, v: Value) {
    var r := b.write(p, port, b.time(p), v);
    r.Ok? ==> inv(r.value.0) && b.time(r.value.0) == b.time(p) && b.ports(r.value.0) == b.ports(p)
  }

  /** A write that reports no change did nothing, and the input it names held the value already. */
  ghost predicate IdleWrites<P(!new)>(b: Behaviour<P>, inv: P -> bool, input: (P, nat) -> Option<Value>) {
    forall p, port, v :: inv(p) ==> IdleWrite(b, input, p, port, v)
  }

  ghost predicate IdleWrite<P>(b: Behaviour<P>, input: (P, nat) -> Option<Value>, p: P, port: nat, v: Value) {
    var r := b.write(p, port, b.time(p), v);
    r.Ok? && !r.value.1 ==> r.value.0 == p && input(p, port) == Some(v)
  }

  /** What stores an input's value: ports with equal cells share one register. */
  datatype Cell = Own(port: nat) | Shared(index: nat)

  /** A write sets the one register it names, wherever it shows, and reports exactly whether that changed it. */
  ghost predicate InputsAreRegisters<P(!new)>(b: Behaviour<P>, inv: P -> bool, input: (P, nat) -> Option<Value>,
                                              cell: (P, nat) -> Cell)
  {
    forall p, port, v :: inv(p) ==> WritesRegister(b, input, cell, p, port, v)
  }

  ghost predicate WritesRegister<P>(b: Behaviour<P>, input: (P, nat) -> Option<Value>, cell: (P, nat) -> Cell, p: P,
                                    port: nat,
                                    v: Value)
  {
    var r := b.write(p, port, b.time(p), v);
    r.Ok? ==>
      && input(r.value.0, port) == Some(v)
      && (forall other :: cell(r.value.0, other) == cell(p, other))
      && (forall other :: cell(p, other) != cell(p, port) ==> input(r.value.0, other) == input(p, other))
      && (forall other :: cell(p, other) == cell(p, port) && input(p, other).Some? ==>
            input(r.value.0, other) == Some(v))
      && (r.value.1 <==> input(p, port) != Some(v))
      && (!r.value.1 ==> r.value.0 == p)
  }

  /** Inputs with one register hold the same. */
  ghost predicate CellsHoldOne<P(!new)>(inv: P -> bool, input: (P, nat) -> Option<Value>, cell: (P, nat) -> Cell) {
    forall p, a, c :: inv(p) && cell(p, a) == cell(p, c) && input(p, a).Some? && input(p, c).Some? ==>
      input(p, a) == input(p, c)
  }

  /* ---- Ports and links ---- */

  function FindPort(ports: seq<Port>, name: nat): (r: Option<Port>)
    ensures r.Some? ==> r.value in ports && r.value.name == name
    ensures r.None? ==> forall p :: p in ports ==> p.name != name
  {
    if |ports| == 0 then None
    else if ports[0].name == name then Some(ports[0])
    else FindPort(ports[1..], name)
  }

  function PortAt<P>(b: Behaviour<P>, parts: map<nat, P>, e: Endpoint): Option<Port> {
    if e.participant in parts then FindPort(b.ports(parts[e.participant]), e.port) else None
  }

  function ValidatePorts(ports: seq<Port>, names: set<nat>): Result<(), CosimError> {
    if |ports| == 0 then Ok(())
    else
      var port := ports[0];
      if port.name == 0 then Err(PortInvalid)
      else if port.name in names then Err(PortDuplicate)
      else if port.domain == DigitalDomain && port.unit.Some? then Err(PortInvalid)
      else if port.domain == AnalogDomain && port.unit.None? then Err(PortInvalid)
      else if port.domain == MixedDomain || port.domain == ReferenceDomain then Err(PortInvalid)
      else ValidatePorts(ports[1..], names + {port.name})
  }

  function CheckLink<P>(b: Behaviour<P>, parts: map<nat, P>, link: Link): Result<(), CosimError> {
    var source, target := PortAt(b, parts, link.source), PortAt(b, parts, link.target);
    if source.None? || target.None? then Err(LinkInvalid)
    else if !source.value.Readable() then Err(LinkInvalid)
    else if !target.value.Writable() then Err(LinkInvalid)
    else if source.value.domain != target.value.domain then Err(DomainMismatch)
    else if source.value.unit != target.value.unit && source.value.domain == AnalogDomain then Err(UnitMismatch)
    else Ok(())
  }

  function CheckLinks<P>(b: Behaviour<P>, parts: map<nat, P>, links: seq<Link>, targets: set<Endpoint>)
    : Result<(), CosimError>
  {
    if |links| == 0 then Ok(())
    else
      var _ :- CheckLink(b, parts, links[0]);
      if links[0].target in targets then Err(MultipleDrivers)
      else CheckLinks(b, parts, links[1..], targets + {links[0].target})
  }

  predicate EndpointLeq(a: Endpoint, b: Endpoint) {
    a.participant < b.participant || (a.participant == b.participant && a.port <= b.port)
  }

  /** The derived order of links: by source, then by target. */
  predicate LinkLeq(a: Link, b: Link) {
    if a.source != b.source then EndpointLeq(a.source, b.source) else EndpointLeq(a.target, b.target)
  }

  function InsertLink(links: seq<Link>, l: Link): (r: seq<Link>)
    ensures multiset(r) == multiset(links) + multiset{l}
  {
    if |links| == 0 then [l]
    else if LinkLeq(l, links[0]) then [l] + links
    else
      assert links == [links[0]] + links[1..];
      [links[0]] + InsertLink(links[1..], l)
  }

  function SortLinks(links: seq<Link>): (r: seq<Link>)
    ensures multiset(r) == multiset(links)
  {
    if |links| == 0 then []
    else
      assert links == [links[0]] + links[1..];
      InsertLink(SortLinks(links[1..]), links[0])
  }

  /** The links in order, or the first complaint about them. */
  function ValidatedLinks<P>(b: Behaviour<P>, parts: map<nat, P>, links: seq<Link>): Result<seq<Link>, CosimError> {
    if |parts| == 0 then Err(ParticipantMissing)
    else
      var sorted := SortLinks(links);
      var _ :- CheckLinks(b, parts, sorted, {});
      Ok(sorted)
  }

  /** `port` is the participant's first port of the endpoint's name. */
  ghost predicate IsPort<P>(b: Behaviour<P>, parts: map<nat, P>, e: Endpoint, port: Port) {
    && e.participant in parts
    && exists i: nat ::
         && i < |b.ports(parts[e.participant])| && b.ports(parts[e.participant])[i] == port && port.name == e.port
         && forall j: nat :: j < i ==> b.ports(parts[e.participant])[j].name != e.port
  }

  /** From an output to an input of the same domain and, between analog ports, of the same unit. */
  ghost predicate FitLink<P>(b: Behaviour<P>, parts: map<nat, P>, link: Link) {
    exists source, target ::
      && IsPort(b, parts, link.source, source) && IsPort(b, parts, link.target, target)
      && source.direction in {Output, Bidirectional} && target.direction in {Input, Bidirectional}
      && source.domain == target.domain && (source.domain == AnalogDomain ==> source.unit == target.unit)
  }

  /** Every link is fit, and no target has two links. */
  ghost predicate LinksValid<P>(b: Behaviour<P>, parts: map<nat, P>, links: seq<Link>) {
    (forall i :: 0 <= i < |links| ==> FitLink(b, parts, links[i])) && DistinctTargets(links)
  }

  ghost predicate DistinctTargets(links: seq<Link>) {
    forall i, j :: 0 <= i < j < |links| ==> links[i].target != links[j].target
  }

  lemma {:induction false} FindPortFindsFirst(ports: seq<Port>, name: nat, port: Port)
    ensures FindPort(ports, name) == Some(port) <==>
              exists i: nat :: i < |ports| && ports[i] == port && port.name == name && forall j: nat :: j < i ==>
                ports[j].name != name
  {
    if |ports| > 0 && ports[0].name != name {
      FindPortFindsFirst(ports[1..], name, port);
      if i: nat :| i < |ports| && ports[i] == port && port.name == name && forall j: nat :: j < i ==>
        ports[j].name != name {
        assert ports[1..][i - 1] == port && forall j: nat :: j < i - 1 ==> ports[1..][j] == ports[j + 1];
      }
      if i: nat :| i < |ports[1..]| && ports[1..][i] == port && port.name == name
                   && forall j: nat :: j < i ==> ports[1..][j].name != name {
        assert ports[i + 1] == port && forall j: nat :: 0 < j < i + 1 ==> ports[j] == ports[1..][j - 1];
      }
    }
  }

  /** The checks pass exactly for fit links. */
  lemma CheckLinkIsExact<P>(b: Behaviour<P>, parts: map<nat, P>, link: Link)
    ensures CheckLink(b, parts, link).Ok? <==> FitLink(b, parts, link)
  {
    forall e: Endpoint, port: Port
      ensures PortAt(b, parts, e) == Some(port) <==> IsPort(b, parts, e, port)
    {
      if e.participant in parts {
        FindPortFindsFirst(b.ports(parts[e.participant]), e.port, port);
      }
    }
  }

  /** Validation accepts exactly the valid link sets. */
  lemma {:induction false} CheckLinksIsExact<P>(b: Behaviour<P>, parts: map<nat, P>, links: seq<Link>,
                                                targets: set<Endpoint>)
    ensures CheckLinks(b, parts, links, targets).Ok? <==>
              LinksValid(b, parts, links) && forall i :: 0 <= i < |links| ==> links[i].target !in targets
    decreases |links|
  {
    hide FitLink, CheckLink;
    if |links| > 0 {
      var rest := links[1..];
      CheckLinkIsExact(b, parts, links[0]);
      CheckLinksIsExact(b, parts, rest, targets + {links[0].target});
      assert links == [links[0]] + rest;
      if LinksValid(b, parts, links) {
        assert forall i :: 0 <= i < |rest| ==> rest[i] == links[i + 1];
      }
    }
  }

  /* ---- One settling round: read every source, then write every target ---- */

  function ReadSource<P>(b: Behaviour<P>, parts: map<nat, P>, source: Endpoint): Result<Value, CosimError> {
    if source.participant !in parts then Err(Panicked)
    else
      match b.read(parts[source.participant], source.port)
      case Err(code) => Err(ParticipantFailed(source.participant, ReadOutput, code))
      case Ok(value) =>
        var port := PortAt(b, parts, source);
        if port.None? then Err(Panicked)
        else if value.Domain() != port.value.domain then Err(ValueDomainMismatch)
        else Ok(value)
  }

  function ReadAll<P>(b: Behaviour<P>, parts: map<nat, P>, links: seq<Link>): (r: Result<seq<Value>, CosimError>)
    ensures r.Ok? ==> |r.value| == |links|
    ensures r.Ok? ==> forall i :: 0 <= i < |links| ==> ReadSource(b, parts, links[i].source) == Ok(r.value[i])
  {
    if |links| == 0 then Ok([])
    else
      var value :- ReadSource(b, parts, links[0].source);
      var rest :- ReadAll(b, parts, links[1..]);
      Ok([value] + rest)
  }

  function WriteTarget<P>(b: Behaviour<P>, parts: map<nat, P>, target: Endpoint, time: nat, value: Value)
    : (r: Result<(map<nat, P>, bool), CosimError>)
    ensures r.Ok? ==> r.value.0.Keys == parts.Keys
  {
    if target.participant !in parts then Err(Panicked)
    else
      match b.write(parts[target.participant], target.port, time, value)
      case Err(code) => Err(ParticipantFailed(target.participant, WriteInput, code))
      case Ok((q, changed)) =>
        if b.time(q) != time then Err(ParticipantTimeInvalid)
        else Ok((parts[target.participant := q], changed))
  }

  function WriteAll<P>(b: Behaviour<P>, parts: map<nat, P>, links: seq<Link>, values: seq<Value>, time: nat)
    : (r: Result<(map<nat, P>, bool), CosimError>)
    requires |links| == |values|
    ensures r.Ok? ==> r.value.0.Keys == parts.Keys
    decreases |links|
  {
    if |links| == 0 then Ok((parts, false))
    else
      var (next, changed) :- WriteTarget(b, parts, links[0].target, time, values[0]);
      var (last, others) :- WriteAll(b, next, links[1..], values[1..], time);
      Ok((last, changed || others))
  }

  function Round<P>(b: Behaviour<P>, parts: map<nat, P>, links: seq<Link>, time: nat)
    : (r: Result<(map<nat, P>, bool), CosimError>)
    ensures r.Ok? ==> r.value.0.Keys == parts.Keys
  {
    var values :- ReadAll(b, parts, links);
    WriteAll(b, parts, links, values, time)
  }

  /** Rounds from number `cycle` up; the result counts the rounds that changed something. */
  function Settle<P>(b: Behaviour<P>, limit: nat, links: seq<Link>, parts: map<nat, P>, time: nat, cycle: nat)
    : (r: Result<(map<nat, P>, nat), CosimError>)
    requires cycle <= limit
    ensures r.Ok? ==> r.value.0.Keys == parts.Keys && cycle <= r.value.1 < limit
    decreases limit - cycle
  {
    if cycle == limit then Err(DeltaCycleLimit)
    else
      var (next, changed) :- Round(b, parts, links, time);
      if !changed then Ok((next, cycle)) else Settle(b, limit, links, next, time, cycle + 1)
  }

  /* ---- Time ---- */

  function SaturatingAdd(a: nat, b: nat): nat {
    if a + b > U64_MAX then U64_MAX else a + b
  }

  function Min(a: nat, b: nat): nat {
    if a < b then a else b
  }

  /** What one reported event does to the target. */
  function EarlierTarget<P>(b: Behaviour<P>, p: P, now: nat, target: nat): Result<nat, CosimError> {
    match b.nextEvent(p)
    case None => Ok(target)
    case Some(event) => if event <= now then Err(EventTimeInvalid) else Ok(Min(target, event))
  }

  /** The earliest of `target` and the events the participants `ids` report. */
  function EarliestEvent<P>(b: Behaviour<P>, parts: map<nat, P>, now: nat, target: nat, ids: seq<nat>)
    : (r: Result<nat, CosimError>)
    requires forall id :: id in ids ==> id in parts
    ensures r.Ok? ==> r.value <= target && (now < target ==> now < r.value)
    ensures r.Ok? ==> forall id :: id in ids && b.nextEvent(parts[id]).Some? ==> r.value <= b.nextEvent(parts[id]).value
    ensures r.Ok? && r.value != target ==> exists id :: id in ids && b.nextEvent(parts[id]) == Some(r.value)
    ensures r.Err? ==> r.error == EventTimeInvalid
    ensures r.Err? ==> exists id :: id in ids && b.nextEvent(parts[id]).Some? && b.nextEvent(parts[id]).value <= now
    decreases |ids|
  {
    if |ids| == 0 then Ok(target)
    else
      assert ids[0] in ids;
      var earlier :- EarlierTarget(b, parts[ids[0]], now, target);
      EarliestEvent(b, parts, now, earlier, ids[1..])
  }

  /** A full step from `now`, the end of the run, or an event that some participant reports. */
  ghost predicate Reached<P>(b: Behaviour<P>, config: Config, parts: map<nat, P>, now: nat, target: nat) {
    || target == now + config.maxStep
    || target == config.stop
    || exists id :: id in parts && b.nextEvent(parts[id]) == Some(target)
  }

  function NextTime<P>(b: Behaviour<P>, config: Config, parts: map<nat, P>, now: nat): (r: Result<nat, CosimError>)
    ensures r.Ok? ==> r.value <= config.stop && r.value <= now + config.maxStep
    ensures r.Ok? ==> forall id :: id in parts && b.nextEvent(parts[id]).Some? ==>
      r.value <= b.nextEvent(parts[id]).value
    ensures r.Ok? && config.stop <= U64_MAX ==> Reached(b, config, parts, now, r.value)
    ensures r.Ok? && now < config.stop <= U64_MAX && config.maxStep > 0 ==> now < r.value
  {
    EarliestEvent(b, parts, now, Min(SaturatingAdd(now, config.maxStep), config.stop), Ascending(parts.Keys))
  }

  function InitializeOne<P>(b: Behaviour<P>, id: nat, p: P): Result<P, CosimError> {
    match b.initialize(p)
    case Err(code) => Err(ParticipantFailed(id, Initialize, code))
    case Ok(q) => if b.time(q) != 0 then Err(ParticipantTimeInvalid) else Ok(q)
  }

  function InitializeAll<P>(b: Behaviour<P>, parts: map<nat, P>, ids: seq<nat>): (r: Result<map<nat, P>, CosimError>)
    requires forall id :: id in ids ==> id in parts
    ensures r.Ok? ==> r.value.Keys == parts.Keys
    decreases |ids|
  {
    if |ids| == 0 then Ok(parts)
    else
      var q :- InitializeOne(b, ids[0], parts[ids[0]]);
      InitializeAll(b, parts[ids[0] := q], ids[1..])
  }

  function AdvanceOne<P>(b: Behaviour<P>, id: nat, p: P, target: nat): Result<P, CosimError> {
    match b.advance(p, target)
    case Err(code) => Err(ParticipantFailed(id, AdvanceTo, code))
    case Ok(q) => if b.time(q) != target then Err(ParticipantTimeInvalid) else Ok(q)
  }

  function AdvanceAll<P>(b: Behaviour<P>, parts: map<nat, P>, target: nat, ids: seq<nat>)
    : (r: Result<map<nat, P>, CosimError>)
    requires forall id :: id in ids ==> id in parts
    ensures r.Ok? ==> r.value.Keys == parts.Keys
    decreases |ids|
  {
    if |ids| == 0 then Ok(parts)
    else
      var q :- AdvanceOne(b, ids[0], parts[ids[0]], target);
      AdvanceAll(b, parts[ids[0] := q], target, ids[1..])
  }

  /* ---- The recorder ---- */

  /** Tick times stand for the recorded seconds. */
  datatype Waveform =
    | DigitalWave(transitions: seq<(nat, LogicValue)>)
    | AnalogWave(unit: nat, times: seq<nat>, values: seq<real>)

  datatype Signal = Signal(endpoint: Endpoint, wave: Waveform)

  function EmptyWave(port: Port): Result<Waveform, CosimError> {
    match port.domain
    case DigitalDomain => Ok(DigitalWave([]))
    case AnalogDomain => if port.unit.None? then Err(PortInvalid) else Ok(AnalogWave(port.unit.value, [], []))
    case _ => Err(PortInvalid)
  }

  /** The names of a participant's readable ports. */
  function OutputNames(ports: seq<Port>): set<nat> {
    set port | port in ports && port.Readable() :: port.name
  }

  function PortSignals(id: nat, ports: seq<Port>, names: seq<nat>): (r: Result<seq<Signal>, CosimError>)
    decreases |names|
  {
    if |names| == 0 then Ok([])
    else
      var port := FindPort(ports, names[0]);
      if port.None? then Err(Panicked)
      else
        var wave :- EmptyWave(port.value);
        var rest :- PortSignals(id, ports, names[1..]);
        Ok([Signal(Endpoint(id, names[0]), wave)] + rest)
  }

  function NewRecorder<P>(b: Behaviour<P>, parts: map<nat, P>, ids: seq<nat>): (r: Result<seq<Signal>, CosimError>)
    requires forall id :: id in ids ==> id in parts
    decreases |ids|
  {
    if |ids| == 0 then Ok([])
    else
      var ports := b.ports(parts[ids[0]]);
      var mine :- PortSignals(ids[0], ports, Ascending(OutputNames(ports)));
      var rest :- NewRecorder(b, parts, ids[1..]);
      Ok(mine + rest)
  }

  /** A digital value is stored only when it differs from the last one stored. */
  function AppendTransition(ts: seq<(nat, LogicValue)>, time: nat, level: LogicValue): seq<(nat, LogicValue)> {
    if |ts| > 0 && ts[|ts| - 1].1 == level then ts else ts + [(time, level)]
  }

  /** A second analog value for the same time replaces the first. */
  function AppendPoint(unit: nat, times: seq<nat>, values: seq<real>, time: nat, volts: real): Waveform {
    if |times| > 0 && times[|times| - 1] == time then
      AnalogWave(unit, times, if |values| > 0 then values[|values| - 1 := volts] else values)
    else AnalogWave(unit, times + [time], values + [volts])
  }

  function AppendSample(wave: Waveform, time: nat, value: Value): Result<Waveform, CosimError> {
    if wave.DigitalWave? && value.Level? then Ok(DigitalWave(AppendTransition(wave.transitions, time, value.level)))
    else if wave.AnalogWave? && value.Volts? then Ok(AppendPoint(wave.unit, wave.times, wave.values, time, value.volts))
    else Err(ValueDomainMismatch)
  }

  function ReadRecorded<P>(b: Behaviour<P>, parts: map<nat, P>, e: Endpoint): Result<Value, CosimError> {
    if e.participant !in parts then Err(Panicked)
    else
      match b.read(parts[e.participant], e.port)
      case Err(code) => Err(ParticipantFailed(e.participant, RecordOutput, code))
      case Ok(value) => Ok(value)
  }

  function RecordSignal<P>(b: Behaviour<P>, parts: map<nat, P>, time: nat, signal: Signal): Result<Signal, CosimError> {
    var value :- ReadRecorded(b, parts, signal.endpoint);
    var wave :- AppendSample(signal.wave, time, value);
    Ok(signal.(wave := wave))
  }

  function Record<P>(b: Behaviour<P>, parts: map<nat, P>, time: nat, signals: seq<Signal>)
    : (r: Result<seq<Signal>, CosimError>)
    ensures r.Ok? ==> |r.value| == |signals|
    ensures r.Ok? ==> forall i :: 0 <= i < |signals| ==> RecordSignal(b, parts, time, signals[i]) == Ok(r.value[i])
  {
    if |signals| == 0 then Ok([])
    else
      var first :- RecordSignal(b, parts, time, signals[0]);
      var rest :- Record(b, parts, time, signals[1..]);
      Ok([first] + rest)
  }

  /* ---- The run ---- */

  datatype Snapshot<P> = Snapshot(time: nat, parts: map<nat, P>)

  /** `trace` is a history variable: the participants at every record. */
  datatype RunState<P> = RunState(parts: map<nat, P>, now: nat, stats: Stats, signals: seq<Signal>,
                                  trace: seq<Snapshot<P>>)

  function Recorded<P>(b: Behaviour<P>, s: RunState<P>, time: nat, parts: map<nat, P>, stats: Stats)
    : Result<RunState<P>, CosimError>
  {
    var signals :- Record(b, parts, time, s.signals);
    Ok(RunState(parts, time, stats, signals, s.trace + [Snapshot(time, parts)]))
  }

  function StatsAfter<P>(s: RunState<P>, cycles: nat): Stats {
    Stats(s.stats.macroSteps + 1, s.stats.deltaCycles + cycles, s.stats.participantAdvances + |s.parts|)
  }

  /** The second half of a macro step, once every participant has reached `target`. */
  function SettleStep<P>(b: Behaviour<P>, config: Config, links: seq<Link>, s: RunState<P>, advanced: map<nat, P>,
                         target: nat)
    : (r: Result<RunState<P>, CosimError>)
    ensures r.Ok? ==> r.value.stats.macroSteps == s.stats.macroSteps + 1
  {
    var (settled, cycles) :- Settle(b, config.maxDeltaCycles, links, advanced, target, 0);
    Recorded(b, s, target, settled, StatsAfter(s, cycles))
  }

  function MacroStep<P>(b: Behaviour<P>, config: Config, links: seq<Link>, s: RunState<P>)
    : (r: Result<RunState<P>, CosimError>)
    ensures r.Ok? ==> r.value.stats.macroSteps == s.stats.macroSteps + 1 <= config.maxSteps
  {
    if s.stats.macroSteps >= config.maxSteps then Err(StepLimit)
    else
      var target :- NextTime(b, config, s.parts, s.now);
      if target <= s.now then Err(TimeStalled)
      else
        var advanced :- AdvanceAll(b, s.parts, target, Ascending(s.parts.Keys));
        SettleStep(b, config, links, s, advanced, target)
  }

  function RunLoop<P>(b: Behaviour<P>, config: Config, links: seq<Link>, s: RunState<P>)
    : Result<RunState<P>, CosimError>
    decreases config.maxSteps - s.stats.macroSteps
  {
    if s.now >= config.stop then Ok(s)
    else
      var next :- MacroStep(b, config, links, s);
      RunLoop(b, config, links, next)
  }

  /** Initialization, the settling at time zero and the first record. */
  function Begin<P>(b: Behaviour<P>, config: Config, parts: map<nat, P>, links: seq<Link>)
    : Result<RunState<P>, CosimError>
  {
    var initialized :- InitializeAll(b, parts, Ascending(parts.Keys));
    var signals :- NewRecorder(b, initialized, Ascending(initialized.Keys));
    var (settled, cycles) :- Settle(b, config.maxDeltaCycles, links, initialized, 0, 0);
    Recorded(b, RunState(settled, 0, Stats(0, 0, 0), signals, []), 0, settled, Stats(0, cycles, 0))
  }

  /** A whole run over the registered participants and links. */
  function Simulate<P>(b: Behaviour<P>, config: Config, parts: map<nat, P>, links: seq<Link>)
    : Result<RunState<P>, CosimError>
  {
    if !config.Valid() then Err(ConfigInvalid)
    else
      var sorted :- ValidatedLinks(b, parts, links);
      var s :- Begin(b, config, parts, sorted);
      RunLoop(b, config, sorted, s)
  }
}
