/** Registering participants and links: success and outcome do not depend on the order. */
module Registration {
  import opened Wrappers
  import opened CoSim

  datatype Command<P> = Add(participant: P) | Connect(link: Link)

  datatype Registry<P> = Registry(parts: map<nat, P>, links: seq<Link>)

  function ValidatePortList(ports: seq<Port>): Result<(), CosimError> {
    if |ports| == 0 then Err(ParticipantInvalid) else ValidatePorts(ports, {})
  }

  predicate PortOk(port: Port) {
    port.name != 0 && match port.domain
                      case DigitalDomain => port.unit.None?
                      case AnalogDomain => port.unit.Some?
                      case _ => false
  }

  /** Accepted port lists: every port fit by itself, no name used twice. */
  lemma {:induction false} ValidatePortsIsExact(ports: seq<Port>, names: set<nat>)
    ensures ValidatePorts(ports, names).Ok? <==>
              && (forall i :: 0 <= i < |ports| ==> PortOk(ports[i]) && ports[i].name !in names)
              && (forall i, j :: 0 <= i < j < |ports| ==> ports[i].name != ports[j].name)
    decreases |ports|
  {
    if |ports| > 0 {
      var rest := ports[1..];
      ValidatePortsIsExact(rest, names + {ports[0].name});
      assert ports == [ports[0]] + rest;
      assert forall i :: 0 <= i < |rest| ==> rest[i] == ports[i + 1];
    }
  }

  function AddParticipant<P>(b: Behaviour<P>, parts: map<nat, P>, p: P): Result<map<nat, P>, CosimError> {
    var id := b.id(p);
    if id == 0 then Err(ParticipantInvalid)
    else if id in parts then Err(ParticipantDuplicate)
    else
      var _ :- ValidatePortList(b.ports(p));
      Ok(parts[id := p])
  }

  function Register<P>(b: Behaviour<P>, r: Registry<P>, c: Command<P>): Result<Registry<P>, CosimError> {
    match c
    case Add(p) =>
      var parts :- AddParticipant(b, r.parts, p);
      Ok(r.(parts := parts))
    case Connect(link) => Ok(r.(links := r.links + [link]))
  }

  /** All commands in order from an empty scheduler, up to the first complaint. */
  function RegisterAll<P>(b: Behaviour<P>, commands: seq<Command<P>>): Result<Registry<P>, CosimError> {
    if |commands| == 0 then Ok(Registry(map[], []))
    else
      var before :- RegisterAll(b, commands[..|commands| - 1]);
      Register(b, before, commands[|commands| - 1])
  }

  /* ---- Success, independently of order ---- */

  /** A named participant with at least one port, all ports fit and of distinct names. */
  ghost predicate Acceptable<P>(b: Behaviour<P>, p: P) {
    && b.id(p) != 0 && b.ports(p) != []
    && (forall i :: 0 <= i < |b.ports(p)| ==> PortOk(b.ports(p)[i]))
    && (forall i, j :: 0 <= i < j < |b.ports(p)| ==> b.ports(p)[i].name != b.ports(p)[j].name)
  }

  /** Every participant is acceptable by itself, and no id is claimed twice. */
  ghost predicate Compatible<P(!new)>(b: Behaviour<P>, commands: multiset<Command<P>>) {
    && (forall p :: Add(p) in commands ==> Acceptable(b, p))
    && (forall p, q :: Add(p) in commands && Add(q) in commands && b.id(p) == b.id(q) ==>
          p == q && commands[Add(p)] == 1)
  }

  /** The registry holds the added participants under their ids and the connected links. */
  ghost predicate Holds<P(!new)>(b: Behaviour<P>, commands: multiset<Command<P>>, r: Registry<P>) {
    && (forall p :: Add(p) in commands ==> b.id(p) in r.parts && r.parts[b.id(p)] == p)
    && (forall id :: id in r.parts ==> Add(r.parts[id]) in commands && b.id(r.parts[id]) == id)
    && (forall l :: multiset(r.links)[l] == commands[Connect(l)])
  }

  lemma LastCommand<P>(commands: seq<Command<P>>)
    requires |commands| > 0
    ensures multiset(commands) == multiset(commands[..|commands| - 1]) + multiset{commands[|commands| - 1]}
  {
    assert commands == commands[..|commands| - 1] + [commands[|commands| - 1]];
  }

  lemma AcceptableIsChecked<P>(b: Behaviour<P>, p: P)
    ensures Acceptable(b, p) <==> b.id(p) != 0 && ValidatePortList(b.ports(p)).Ok?
  {
    ValidatePortsIsExact(b.ports(p), {});
  }

  lemma AddStep<P(!new)>(b: Behaviour<P>, commands: multiset<Command<P>>, r: Registry<P>, p: P)
    requires Compatible(b, commands) && Holds(b, commands, r)
    ensures Register(b, r, Add(p)).Ok? <==> Compatible(b, commands + multiset{Add(p)})
    ensures Register(b, r, Add(p)).Ok? ==> Holds(b, commands + multiset{Add(p)}, Register(b, r, Add(p)).value)
  {
    var after := commands + multiset{Add(p)};
    hide Acceptable, ValidatePortList;
    AcceptableIsChecked(b, p);
    assert Add(p) in after;
    if b.id(p) in r.parts {
      var q := r.parts[b.id(p)];
      assert Add(q) in after && b.id(q) == b.id(p);
      if p == q {
        assert after[Add(p)] >= 2;
      }
    } else if Acceptable(b, p) {
      assert Add(p) !in commands;
      assert forall q :: Add(q) in after ==> q == p || Add(q) in commands;
    }
  }

  lemma ConnectStep<P(!new)>(b: Behaviour<P>, commands: multiset<Command<P>>, r: Registry<P>, link: Link)
    requires Compatible(b, commands) && Holds(b, commands, r)
    ensures Register(b, r, Connect(link)).Ok? && Compatible(b, commands + multiset{Connect(link)})
    ensures Holds(b, commands + multiset{Connect(link)}, Register(b, r, Connect(link)).value)
  {
    var after := commands + multiset{Command<P>.Connect(link)};
    assert forall p :: Command<P>.Add(p) in after <==> Command<P>.Add(p) in commands;
    assert forall l :: after[Connect(l)] == commands[Connect(l)] + (if l == link then 1 else 0);
  }

  lemma CompatibleBefore<P(!new)>(b: Behaviour<P>, before: multiset<Command<P>>, last: Command<P>)
    requires Compatible(b, before + multiset{last})
    ensures Compatible(b, before)
  {
    var after := before + multiset{last};
    forall p, q | Add(p) in before && Add(q) in before && b.id(p) == b.id(q)
      ensures p == q && before[Add(p)] == 1
    {
      assert Add(p) in after && Add(q) in after;
    }
    forall p | Add(p) in before
      ensures Acceptable(b, p)
    {
      assert Add(p) in after;
    }
  }

  /** Registration succeeds exactly on compatible commands, and then holds exactly what they say. */
  lemma {:induction false} RegistrationIsExact<P(!new)>(b: Behaviour<P>, commands: seq<Command<P>>)
    ensures RegisterAll(b, commands).Ok? <==> Compatible(b, multiset(commands))
    ensures RegisterAll(b, commands).Ok? ==> Holds(b, multiset(commands), RegisterAll(b, commands).value)
    decreases |commands|
  {
    hide Compatible, Holds, Register;
    if |commands| == 0 {
      EmptyRegistry(b);
      assert commands == [];
    } else {
      var before, last := commands[..|commands| - 1], commands[|commands| - 1];
      RegistrationIsExact(b, before);
      LastCommand(commands);
      if RegisterAll(b, before).Ok? {
        match last
        case Add(p) => AddStep(b, multiset(before), RegisterAll(b, before).value, p);
        case Connect(link) => ConnectStep(b, multiset(before), RegisterAll(b, before).value, link);
      } else if Compatible(b, multiset(commands)) {
        CompatibleBefore(b, multiset(before), last);
      }
    }
  }

  lemma EmptyRegistry<P(!new)>(b: Behaviour<P>)
    ensures Compatible(b, multiset{}) && Holds(b, multiset{}, Registry(map[], []))
  {
  }

  /* ---- Sorting forgets the order of links ---- */

  ghost predicate Sorted(links: seq<Link>) {
    forall i, j :: 0 <= i < j < |links| ==> LinkLeq(links[i], links[j])
  }

  lemma InsertSorted(links: seq<Link>, l: Link)
    requires Sorted(links)
    ensures Sorted(InsertLink(links, l))
  {
    if |links| > 0 && !LinkLeq(l, links[0]) {
      InsertSorted(links[1..], l);
      var rest := InsertLink(links[1..], l);
      forall k | 0 <= k < |rest|
        ensures LinkLeq(links[0], rest[k])
      {
        assert rest[k] in multiset(rest);
        assert rest[k] == l || rest[k] in links[1..];
      }
    }
  }

  lemma SortSorted(links: seq<Link>)
    ensures Sorted(SortLinks(links))
  {
    if |links| > 0 {
      SortSorted(links[1..]);
      InsertSorted(SortLinks(links[1..]), links[0]);
    }
  }

  lemma FirstIsLeast(links: seq<Link>, l: Link)
    requires Sorted(links) && l in multiset(links)
    ensures |links| > 0 && LinkLeq(links[0], l)
    ensures Sorted(links[1..]) && multiset(links) == multiset{links[0]} + multiset(links[1..])
  {
    var k :| 0 <= k < |links| && links[k] == l;
    assert LinkLeq(links[0], links[0]);
    assert links == [links[0]] + links[1..];
  }

  lemma Antisymmetric(a: Link, c: Link)
    requires LinkLeq(a, c) && LinkLeq(c, a)
    ensures a == c
  {
  }

  lemma {:induction false} SortedIsUnique(a: seq<Link>, c: seq<Link>)
    requires Sorted(a) && Sorted(c) && multiset(a) == multiset(c)
    ensures a == c
    decreases |a|
  {
    hide Sorted, LinkLeq;
    assert |multiset(a)| == |multiset(c)|;
    if |a| > 0 {
      assert a[0] in multiset(a) && c[0] in multiset(c);
      FirstIsLeast(a, c[0]);
      FirstIsLeast(c, a[0]);
      Antisymmetric(a[0], c[0]);
      assert multiset(a[1..]) == multiset(a) - multiset{a[0]};
      assert multiset(c[1..]) == multiset(c) - multiset{c[0]};
      SortedIsUnique(a[1..], c[1..]);
      assert a == [a[0]] + a[1..] && c == [c[0]] + c[1..];
    }
  }

  predicate Before(a: Endpoint, c: Endpoint) {
    a.participant < c.participant || (a.participant == c.participant && a.port < c.port)
  }

  /** Links are worked off by the source's participant and port, and for one source by the target's. */
  lemma SortOrders(links: seq<Link>, i: nat, j: nat)
    requires i < j < |SortLinks(links)|
    ensures var (a, c) := (SortLinks(links)[i], SortLinks(links)[j]);
            Before(a.source, c.source) || (a.source == c.source && (a.target == c.target || Before(a.target, c.target)))
  {
    SortSorted(links);
  }

  lemma SortForgetsOrder(a: seq<Link>, c: seq<Link>)
    requires multiset(a) == multiset(c)
    ensures SortLinks(a) == SortLinks(c)
  {
    SortSorted(a);
    SortSorted(c);
    SortedIsUnique(SortLinks(a), SortLinks(c));
  }

  /* ---- The outcome ---- */

  lemma SameHoldings<P(!new)>(b: Behaviour<P>, commands: multiset<Command<P>>, r: Registry<P>, s: Registry<P>)
    requires Holds(b, commands, r) && Holds(b, commands, s)
    ensures r.parts == s.parts && multiset(r.links) == multiset(s.links)
  {
    assert forall id :: id in r.parts ==> Add(r.parts[id]) in commands && id in s.parts && s.parts[id] == r.parts[id];
    assert forall id :: id in s.parts ==> Add(s.parts[id]) in commands && id in r.parts;
    assert forall l :: multiset(r.links)[l] == multiset(s.links)[l];
  }

  function Run<P>(b: Behaviour<P>, config: Config, commands: seq<Command<P>>): Result<RunState<P>, CosimError> {
    var registry :- RegisterAll(b, commands);
    Simulate(b, config, registry.parts, registry.links)
  }

  /**
   * Reordering the registrations changes neither whether they succeed nor, if they do, the outcome of the
   * run: the same report or the same error, link validation included.
   */
  lemma RegistrationOrderIrrelevant<P(!new)>(b: Behaviour<P>, config: Config, one: seq<Command<P>>,
                                             other: seq<Command<P>>)
    requires multiset(one) == multiset(other)
    ensures RegisterAll(b, one).Ok? <==> RegisterAll(b, other).Ok?
    ensures RegisterAll(b, one).Ok? ==> Run(b, config, one) == Run(b, config, other)
  {
    hide Compatible, Holds, RegisterAll, SortLinks, Begin, RunLoop;
    RegistrationIsExact(b, one);
    RegistrationIsExact(b, other);
    if RegisterAll(b, one).Ok? {
      var r, s := RegisterAll(b, one).value, RegisterAll(b, other).value;
      SameHoldings(b, multiset(one), r, s);
      SortForgetsOrder(r.links, s.links);
    }
  }
}
