/** Same-time settling: when it converges, and what an Ok return guarantees. */
module Settling {
  import opened Wrappers
  import opened CoSim

  /** All participants satisfy the invariant and stand at `time`. */
  ghost predicate AllAt<P>(b: Behaviour<P>, inv: P -> bool, parts: map<nat, P>, time: nat) {
    forall id :: id in parts ==> inv(parts[id]) && b.time(parts[id]) == time
  }

  ghost predicate SamePorts<P>(b: Behaviour<P>, before: map<nat, P>, after: map<nat, P>) {
    after.Keys == before.Keys && forall id :: id in before ==> b.ports(after[id]) == b.ports(before[id])
  }

  function InputAt<P>(input: (P, nat) -> Option<Value>, parts: map<nat, P>, e: Endpoint): Option<Value>
    requires e.participant in parts
  {
    input(parts[e.participant], e.port)
  }

  /* ---- Contract only ---- */

  lemma WriteTargetKeeps<P(!new)>(b: Behaviour<P>, good: P -> bool, inv: P -> bool, parts: map<nat, P>,
                                  target: Endpoint, time: nat,
                                  value: Value)
    requires Contract(b, good, inv) && AllAt(b, inv, parts, time)
    ensures var r := WriteTarget(b, parts, target, time, value);
            && (r.Ok? ==> AllAt(b, inv, r.value.0, time) && SamePorts(b, parts, r.value.0))
            && r != Err(ParticipantTimeInvalid)
  {
    if target.participant in parts {
      var p := parts[target.participant];
      assert WritesInPlace(b, inv, p, target.port, value);
    }
  }

  lemma {:induction false} WriteAllKeeps<P(!new)>(b: Behaviour<P>, good: P -> bool, inv: P -> bool, parts: map<nat, P>,
                                                  links: seq<Link>,
                                                  values: seq<Value>, time: nat)
    requires Contract(b, good, inv) && AllAt(b, inv, parts, time) && |links| == |values|
    ensures var r := WriteAll(b, parts, links, values, time);
            && (r.Ok? ==> AllAt(b, inv, r.value.0, time) && SamePorts(b, parts, r.value.0))
            && r != Err(ParticipantTimeInvalid)
    decreases |links|
  {
    hide Contract;
    if |links| > 0 {
      var one := WriteTarget(b, parts, links[0].target, time, values[0]);
      WriteTargetKeeps(b, good, inv, parts, links[0].target, time, values[0]);
      if one.Ok? {
        WriteAllKeeps(b, good, inv, one.value.0, links[1..], values[1..], time);
      }
    }
  }

  lemma {:induction false} SettleKeeps<P(!new)>(b: Behaviour<P>, good: P -> bool, inv: P -> bool, limit: nat,
                                                links: seq<Link>,
                                                parts: map<nat, P>, time: nat, cycle: nat)
    requires Contract(b, good, inv) && AllAt(b, inv, parts, time) && cycle <= limit
    ensures var r := Settle(b, limit, links, parts, time, cycle);
            && (r.Ok? ==> AllAt(b, inv, r.value.0, time) && SamePorts(b, parts, r.value.0))
            && r != Err(ParticipantTimeInvalid)
    decreases limit - cycle
  {
    hide Contract;
    if cycle < limit {
      var values := ReadAll(b, parts, links);
      if values.Ok? {
        WriteAllKeeps(b, good, inv, parts, links, values.value, time);
        var round := Round(b, parts, links, time);
        if round.Ok? && round.value.1 {
          SettleKeeps(b, good, inv, limit, links, round.value.0, time, cycle + 1);
        }
      } else {
        ReadAllErrors(b, parts, links);
      }
    }
  }

  lemma {:induction false} ReadAllErrors<P>(b: Behaviour<P>, parts: map<nat, P>, links: seq<Link>)
    ensures var r := ReadAll(b, parts, links);
            r.Err? ==> r.error == Panicked || r.error == ValueDomainMismatch || r.error.ParticipantFailed?
  {
    if |links| > 0 {
      ReadAllErrors(b, parts, links[1..]);
    }
  }

  /* ---- Any Ok return is a fixed point ---- */

  /** Every link's target input holds its source's output. */
  ghost predicate LinksSettled<P>(b: Behaviour<P>, input: (P, nat) -> Option<Value>, parts: map<nat, P>,
                                  links: seq<Link>) {
    forall i :: 0 <= i < |links| ==> SettledLink(b, input, parts, links[i])
  }

  /** The value is of the domain of the port it comes from, a participant's present one. */
  ghost predicate OfItsDomain<P>(b: Behaviour<P>, parts: map<nat, P>, source: Endpoint, value: Value) {
    && source.participant in parts && b.read(parts[source.participant], source.port) == Ok(value)
    && exists i: nat :: i < |b.ports(parts[source.participant])|
                        && b.ports(parts[source.participant])[i].name == source.port
                        && b.ports(parts[source.participant])[i].domain == value.Domain()
  }

  ghost predicate SettledLink<P>(b: Behaviour<P>, input: (P, nat) -> Option<Value>, parts: map<nat, P>, link: Link) {
    && link.target.participant in parts && ReadSource(b, parts, link.source).Ok?
    && OfItsDomain(b, parts, link.source, ReadSource(b, parts, link.source).value)
    && InputAt(input, parts, link.target) == Some(ReadSource(b, parts, link.source).value)
  }

  lemma IdleWriteChangesNothing<P(!new)>(b: Behaviour<P>, inv: P -> bool, input: (P, nat) -> Option<Value>,
                                         parts: map<nat, P>,
                                         target: Endpoint, time: nat, value: Value)
    requires IdleWrites(b, inv, input) && AllAt(b, inv, parts, time) && WriteTarget(b, parts, target, time, value).Ok?
    requires !WriteTarget(b, parts, target, time, value).value.1
    ensures WriteTarget(b, parts, target, time, value).value.0 == parts
    ensures target.participant in parts && InputAt(input, parts, target) == Some(value)
  {
    var p := parts[target.participant];
    assert IdleWrite(b, input, p, target.port, value);
    assert parts[target.participant := p] == parts;
  }

  /** If no write of a round reports a change, there was none, and the targets held their values before. */
  lemma {:induction false} IdleRoundChangesNothing<P(!new)>(b: Behaviour<P>, inv: P -> bool,
                                                            input: (P, nat) -> Option<Value>,
                                                            parts: map<nat, P>, links: seq<Link>, values: seq<Value>,
                                                            time: nat)
    requires IdleWrites(b, inv, input) && AllAt(b, inv, parts, time) && |links| == |values|
    requires WriteAll(b, parts, links, values, time).Ok? && !WriteAll(b, parts, links, values, time).value.1
    ensures WriteAll(b, parts, links, values, time).value.0 == parts
    ensures forall i :: 0 <= i < |links| ==>
              links[i].target.participant in parts && InputAt(input, parts, links[i].target) == Some(values[i])
    decreases |links|
  {
    hide IdleWrites, AllAt;
    if |links| > 0 {
      IdleWriteChangesNothing(b, inv, input, parts, links[0].target, time, values[0]);
      var rest := links[1..];
      IdleRoundChangesNothing(b, inv, input, parts, rest, values[1..], time);
      assert forall i :: 0 <= i < |rest| ==> rest[i] == links[i + 1] && values[1..][i] == values[i + 1];
    }
  }

  /** Holds for cyclic links and for inputs that share a register. */
  lemma {:induction false} SettledOnReturn<P(!new)>(b: Behaviour<P>, good: P -> bool, inv: P -> bool,
                                                    input: (P, nat) -> Option<Value>,
                                                    limit: nat, links: seq<Link>, parts: map<nat, P>, time: nat,
                                                    cycle: nat)
    requires Contract(b, good, inv) && IdleWrites(b, inv, input) && AllAt(b, inv, parts, time) && cycle <= limit
    ensures var r := Settle(b, limit, links, parts, time, cycle);
            r.Ok? ==> LinksSettled(b, input, r.value.0, links)
    decreases limit - cycle
  {
    hide Contract, IdleWrites;
    if cycle < limit {
      var values, round := ReadAll(b, parts, links), Round(b, parts, links, time);
      if round.Ok? {
        WriteAllKeeps(b, good, inv, parts, links, values.value, time);
        if round.value.1 {
          SettledOnReturn(b, good, inv, input, limit, links, round.value.0, time, cycle + 1);
        } else {
          IdleRoundChangesNothing(b, inv, input, parts, links, values.value, time);
        }
      }
    }
  }

  /* ---- Participants that no link targets ---- */

  ghost predicate Untargeted(links: seq<Link>, id: nat) {
    forall i :: 0 <= i < |links| ==> links[i].target.participant != id
  }

  lemma {:induction false} WriteAllSparesUntargeted<P>(b: Behaviour<P>, parts: map<nat, P>, links: seq<Link>,
                                                       values: seq<Value>, time: nat,
                                                       id: nat)
    requires |links| == |values| && id in parts && Untargeted(links, id) && WriteAll(b, parts, links, values, time).Ok?
    ensures WriteAll(b, parts, links, values, time).value.0[id] == parts[id]
    decreases |links|
  {
    if |links| > 0 {
      var next := WriteTarget(b, parts, links[0].target, time, values[0]).value.0;
      assert forall i :: 0 <= i < |links[1..]| ==> links[1..][i] == links[i + 1];
      WriteAllSparesUntargeted(b, next, links[1..], values[1..], time, id);
    }
  }

  lemma RoundSparesUntargeted<P>(b: Behaviour<P>, parts: map<nat, P>, links: seq<Link>, time: nat, id: nat)
    requires id in parts && Untargeted(links, id) && Round(b, parts, links, time).Ok?
    ensures Round(b, parts, links, time).value.0[id] == parts[id]
  {
    WriteAllSparesUntargeted(b, parts, links, ReadAll(b, parts, links).value, time, id);
  }

  /* ---- Inputs as registers ---- */

  /** `at` says where each endpoint's value is stored. */
  ghost predicate CellsAre<P>(cell: (P, nat) -> Cell, parts: map<nat, P>, at: Endpoint -> Cell) {
    forall id, port :: id in parts ==> cell(parts[id], port) == at(Endpoint(id, port))
  }

  predicate SameCell(at: Endpoint -> Cell, a: Endpoint, c: Endpoint) {
    a.participant == c.participant && at(a) == at(c)
  }

  ghost predicate Governed<P(!new)>(b: Behaviour<P>, good: P -> bool, inv: P -> bool, input: (P, nat) -> Option<Value>,
                                    cell: (P, nat) -> Cell, at: Endpoint -> Cell, parts: map<nat, P>, time: nat)
  {
    Contract(b, good, inv) && InputsAreRegisters(b, inv, input, cell) && AllAt(b, inv, parts, time)
        && CellsAre(cell, parts, at)
  }

  lemma RegistersAreIdle<P(!new)>(b: Behaviour<P>, inv: P -> bool, input: (P, nat) -> Option<Value>,
                                  cell: (P, nat) -> Cell)
    requires InputsAreRegisters(b, inv, input, cell)
    ensures IdleWrites(b, inv, input)
  {
    forall p, port, v | inv(p)
      ensures IdleWrite(b, input, p, port, v)
    {
      assert WritesRegister(b, input, cell, p, port, v);
    }
  }

  /** One write: its register takes the value, every other is spared, and idle writes do nothing. */
  lemma WriteTargetRegister<P(!new)>(b: Behaviour<P>, good: P -> bool, inv: P -> bool, input: (P, nat) -> Option<Value>,
                                     cell: (P, nat) -> Cell, at: Endpoint -> Cell,
                                     parts: map<nat, P>, target: Endpoint, time: nat, value: Value)
    requires Governed(b, good, inv, input, cell, at, parts, time) && WriteTarget(b, parts, target, time, value).Ok?
    ensures var (next, changed) := WriteTarget(b, parts, target, time, value).value;
            && target.participant in parts && Governed(b, good, inv, input, cell, at, next, time)
            && InputAt(input, next, target) == Some(value)
            && (forall id :: id in parts && id != target.participant ==> next[id] == parts[id])
            && (forall e: Endpoint :: e.participant in parts ==>
                  if !SameCell(at, target, e) then InputAt(input, next, e) == InputAt(input, parts, e)
                  else InputAt(input, parts, e).Some? ==> InputAt(input, next, e) == Some(value))
            && (changed <==> InputAt(input, parts, target) != Some(value))
            && (!changed ==> next == parts)
  {
    WriteTargetKeeps(b, good, inv, parts, target, time, value);
    var p := parts[target.participant];
    assert WritesRegister(b, input, cell, p, target.port, value);
    hide Contract, InputsAreRegisters;
    assert parts[target.participant := p] == parts;
  }

  lemma {:induction false} WriteAllGoverned<P(!new)>(b: Behaviour<P>, good: P -> bool, inv: P -> bool,
                                                     input: (P, nat) -> Option<Value>,
                                                     cell: (P, nat) -> Cell, at: Endpoint -> Cell,
                                                     parts: map<nat, P>, links: seq<Link>, values: seq<Value>,
                                                     time: nat)
    requires Governed(b, good, inv, input, cell, at, parts, time)
    requires |links| == |values| && WriteAll(b, parts, links, values, time).Ok?
    ensures Governed(b, good, inv, input, cell, at, WriteAll(b, parts, links, values, time).value.0, time)
    decreases |links|
  {
    hide Governed;
    if |links| > 0 {
      WriteTargetRegister(b, good, inv, input, cell, at, parts, links[0].target, time, values[0]);
      var next := WriteTarget(b, parts, links[0].target, time, values[0]).value.0;
      WriteAllGoverned(b, good, inv, input, cell, at, next, links[1..], values[1..], time);
    }
  }

  /** An input that holds `v` still does if nothing else is written to its register. */
  lemma {:induction false} WriteAllHolds<P(!new)>(b: Behaviour<P>, good: P -> bool, inv: P -> bool,
                                                  input: (P, nat) -> Option<Value>,
                                                  cell: (P, nat) -> Cell, at: Endpoint -> Cell,
                                                  parts: map<nat, P>, links: seq<Link>, values: seq<Value>, time: nat,
                                                  e: Endpoint, v: Value)
    requires Governed(b, good, inv, input, cell, at, parts, time)
    requires |links| == |values| && WriteAll(b, parts, links, values, time).Ok?
    requires e.participant in parts && InputAt(input, parts, e) == Some(v)
    requires forall i :: 0 <= i < |links| && SameCell(at, links[i].target, e) ==> values[i] == v
    ensures InputAt(input, WriteAll(b, parts, links, values, time).value.0, e) == Some(v)
    decreases |links|
  {
    hide Governed;
    if |links| > 0 {
      WriteTargetRegister(b, good, inv, input, cell, at, parts, links[0].target, time, values[0]);
      var next, rest := WriteTarget(b, parts, links[0].target, time, values[0]).value.0, links[1..];
      assert forall i :: 0 <= i < |rest| ==> rest[i] == links[i + 1] && values[1..][i] == values[i + 1];
      WriteAllHolds(b, good, inv, input, cell, at, next, rest, values[1..], time, e, v);
    }
  }

  /** Every link from number `i` on into the register of link `i` brings the same value. */
  ghost predicate LastInto(at: Endpoint -> Cell, links: seq<Link>, values: seq<Value>, i: nat)
    requires |links| == |values| && i < |links|
  {
    forall j :: i <= j < |links| && SameCell(at, links[j].target, links[i].target) ==> values[j] == values[i]
  }

  lemma LastIntoRest(at: Endpoint -> Cell, links: seq<Link>, values: seq<Value>, i: nat)
    requires |links| == |values| && i < |links| && LastInto(at, links, values, i)
    ensures i > 0 ==> LastInto(at, links[1..], values[1..], i - 1)
    ensures i == 0 ==> forall j :: 0 <= j < |links[1..]| && SameCell(at, links[1..][j].target, links[0].target) ==>
              values[1..][j] == values[0]
  {
    hide SameCell;
    assert forall j :: 0 <= j < |links[1..]| ==> links[1..][j] == links[j + 1] && values[1..][j] == values[j + 1];
  }

  /** After the writes an endpoint holds the value that the last links into its register bring. */
  lemma {:induction false} WriteAllDelivers<P(!new)>(b: Behaviour<P>, good: P -> bool, inv: P -> bool,
                                                     input: (P, nat) -> Option<Value>, cell: (P,
                                                                      nat) -> Cell, at: Endpoint -> Cell,
                                                     parts: map<nat, P>, links: seq<Link>, values: seq<Value>,
                                                     time: nat, i: nat)
    requires Governed(b, good, inv, input, cell, at, parts, time) && |links| == |values| && i < |links|
    requires LastInto(at, links, values, i) && WriteAll(b, parts, links, values, time).Ok?
    ensures var after := WriteAll(b, parts, links, values, time).value.0;
            links[i].target.participant in after && InputAt(input, after, links[i].target) == Some(values[i])
    decreases |links|
  {
    hide Governed, LastInto, SameCell;
    var target := links[i].target;
    WriteTargetRegister(b, good, inv, input, cell, at, parts, links[0].target, time, values[0]);
    LastIntoRest(at, links, values, i);
    var next, rest := WriteTarget(b, parts, links[0].target, time, values[0]).value.0, links[1..];
    if i == 0 {
      WriteAllHolds(b, good, inv, input, cell, at, next, rest, values[1..], time, target, values[0]);
    } else {
      WriteAllDelivers(b, good, inv, input, cell, at, next, rest, values[1..], time, i - 1);
    }
  }

  /** Writing what the targets already hold reports no change. */
  lemma {:induction false} WriteAllRepeats<P(!new)>(b: Behaviour<P>, good: P -> bool, inv: P -> bool,
                                                    input: (P, nat) -> Option<Value>,
                                                    cell: (P, nat) -> Cell, at: Endpoint -> Cell,
                                                    parts: map<nat, P>, links: seq<Link>, values: seq<Value>, time: nat)
    requires Governed(b, good, inv, input, cell, at, parts, time)
    requires |links| == |values| && WriteAll(b, parts, links, values, time).Ok?
    requires forall i :: 0 <= i < |links| && links[i].target.participant in parts ==>
               InputAt(input, parts, links[i].target) == Some(values[i])
    ensures !WriteAll(b, parts, links, values, time).value.1
    decreases |links|
  {
    hide Governed;
    if |links| > 0 {
      WriteTargetRegister(b, good, inv, input, cell, at, parts, links[0].target, time, values[0]);
      var rest := links[1..];
      assert forall i :: 0 <= i < |rest| ==> rest[i] == links[i + 1] && values[1..][i] == values[i + 1];
      WriteAllRepeats(b, good, inv, input, cell, at, parts, rest, values[1..], time);
    }
  }

  /** Only the links into participants of rank at most `k` matter to those participants. */
  lemma {:induction false} WriteAllIdleBelow<P(!new)>(b: Behaviour<P>, good: P -> bool, inv: P -> bool,
                                                      input: (P, nat) -> Option<Value>,
                                                      cell: (P, nat) -> Cell, at: Endpoint -> Cell,
                                                      rank: nat -> nat, k: nat, parts: map<nat, P>, links: seq<Link>,
                                                      values: seq<Value>,
                                                      time: nat)
    requires Governed(b, good, inv, input, cell, at, parts, time)
    requires |links| == |values| && WriteAll(b, parts, links, values, time).Ok?
    requires forall i :: 0 <= i < |links| && rank(links[i].target.participant) <= k ==>
               links[i].target.participant in parts ==>
               InputAt(input, parts, links[i].target) == Some(values[i])
    ensures var after := WriteAll(b, parts, links, values, time).value.0;
            forall id :: id in parts && rank(id) <= k ==> after[id] == parts[id]
    decreases |links|
  {
    if |links| > 0 {
      hide Governed;
      var target := links[0].target;
      WriteTargetRegister(b, good, inv, input, cell, at, parts, target, time, values[0]);
      var next, rest := WriteTarget(b, parts, target, time, values[0]).value.0, links[1..];
      assert rank(target.participant) <= k ==> next[target.participant] == parts[target.participant];
      assert forall i :: 0 <= i < |rest| ==> rest[i] == links[i + 1] && values[1..][i] == values[i + 1];
      WriteAllIdleBelow(b, good, inv, input, cell, at, rank, k, next, rest, values[1..], time);
    }
  }

  /* ---- Rounds ---- */

  /** The participants after `k` rounds, whether or not settling would have gone so far. */
  function Rounds<P>(b: Behaviour<P>, links: seq<Link>, parts: map<nat, P>, time: nat, k: nat)
    : (r: Result<map<nat, P>, CosimError>)
    ensures r.Ok? ==> r.value.Keys == parts.Keys
  {
    if k == 0 then Ok(parts)
    else
      var before :- Rounds(b, links, parts, time, k - 1);
      var (after, _) :- Round(b, before, links, time);
      Ok(after)
  }

  lemma {:induction false} EarlierRounds<P>(b: Behaviour<P>, links: seq<Link>, parts: map<nat, P>, time: nat, j: nat,
                                            k: nat)
    requires j <= k && Rounds(b, links, parts, time, k).Ok?
    ensures Rounds(b, links, parts, time, j).Ok?
    decreases k
  {
    hide Round;
    if j < k {
      EarlierRounds(b, links, parts, time, j, k - 1);
    }
  }

  lemma NextRound<P>(b: Behaviour<P>, links: seq<Link>, parts: map<nat, P>, time: nat, k: nat)
    requires Rounds(b, links, parts, time, k + 1).Ok?
    ensures Rounds(b, links, parts, time, k).Ok?
    ensures var before := Rounds(b, links, parts, time, k).value;
            Round(b, before, links, time).Ok? && Rounds(b, links, parts, time, k + 1).value
                == Round(b, before, links, time).value.0
  {
    hide Round;
  }

  lemma {:induction false} RoundsGoverned<P(!new)>(b: Behaviour<P>, good: P -> bool, inv: P -> bool,
                                                   input: (P, nat) -> Option<Value>, cell: (P,
                                                                      nat) -> Cell, at: Endpoint -> Cell,
                                                   links: seq<Link>, parts: map<nat, P>, time: nat, k: nat)
    requires Governed(b, good, inv, input, cell, at, parts, time) && Rounds(b, links, parts, time, k).Ok?
    ensures Governed(b, good, inv, input, cell, at, Rounds(b, links, parts, time, k).value, time)
    decreases k
  {
    hide Governed, Rounds;
    if k > 0 {
      NextRound(b, links, parts, time, k - 1);
      var before := Rounds(b, links, parts, time, k - 1).value;
      RoundsGoverned(b, good, inv, input, cell, at, links, parts, time, k - 1);
      WriteAllGoverned(b, good, inv, input, cell, at, before, links, ReadAll(b, before, links).value, time);
    } else {
      NoRounds(b, links, parts, time);
    }
  }

  lemma NoRounds<P>(b: Behaviour<P>, links: seq<Link>, parts: map<nat, P>, time: nat)
    ensures Rounds(b, links, parts, time, 0) == Ok(parts)
  {
  }

  /** Participants that no link targets stay as they are. */
  lemma {:induction false} RoundsSpareUntargeted<P>(b: Behaviour<P>, links: seq<Link>, parts: map<nat, P>, time: nat,
                                                    k: nat, id: nat)
    requires id in parts && Untargeted(links, id) && Rounds(b, links, parts, time, k).Ok?
    ensures Rounds(b, links, parts, time, k).value[id] == parts[id]
    decreases k
  {
    hide Rounds, Untargeted, Round;
    if k > 0 {
      NextRound(b, links, parts, time, k - 1);
      RoundsSpareUntargeted(b, links, parts, time, k - 1, id);
      RoundSparesUntargeted(b, Rounds(b, links, parts, time, k - 1).value, links, time, id);
    } else {
      NoRounds(b, links, parts, time);
    }
  }

  /** Round number `k + 1` takes place and reports a change. */
  ghost predicate Changes<P>(b: Behaviour<P>, links: seq<Link>, parts: map<nat, P>, time: nat, k: nat) {
    && Rounds(b, links, parts, time, k).Ok?
    && Round(b, Rounds(b, links, parts, time, k).value, links, time).Ok?
    && Round(b, Rounds(b, links, parts, time, k).value, links, time).value.1
  }

  /** `r` is what settling yields from round `k` on: the first round without a change, or the limit. */
  ghost predicate FollowsRounds<P>(b: Behaviour<P>, limit: nat, links: seq<Link>, parts: map<nat, P>, time: nat, k: nat,
                                   r: Result<(map<nat, P>, nat), CosimError>)
  {
    if r.Ok? then
      && k <= r.value.1 < limit && Rounds(b, links, parts, time, r.value.1).Ok?
      && Round(b, Rounds(b, links, parts, time, r.value.1).value, links, time) == Ok((r.value.0, false))
      && forall m :: k <= m < r.value.1 ==> Changes(b, links, parts, time, m)
    else
      r == Err(DeltaCycleLimit) ==> forall m :: k <= m < limit ==> Changes(b, links, parts, time, m)
  }

  lemma SettleOnce<P>(b: Behaviour<P>, limit: nat, links: seq<Link>, parts: map<nat, P>, time: nat, cycle: nat)
    requires cycle < limit
    ensures var (r, round) := (Settle(b, limit, links, parts, time, cycle), Round(b, parts, links, time));
            if round.Err? then r == Err(round.error)
            else if round.value.1 then r == Settle(b, limit, links, round.value.0, time, cycle + 1)
            else r == Ok((round.value.0, cycle))
  {
    hide Round;
  }

  lemma SettleAtLimit<P>(b: Behaviour<P>, limit: nat, links: seq<Link>, parts: map<nat, P>, time: nat)
    ensures Settle(b, limit, links, parts, time, limit) == Err(DeltaCycleLimit)
  {
  }

  lemma RoundAfter<P>(b: Behaviour<P>, links: seq<Link>, parts: map<nat, P>, time: nat, k: nat)
    requires Rounds(b, links, parts, time, k).Ok? && Round(b, Rounds(b, links, parts, time, k).value, links, time).Ok?
    ensures Rounds(b, links, parts, time, k + 1) == Ok(Round(b, Rounds(b, links, parts, time, k).value, links,
                                                             time).value.0)
  {
    hide Round;
  }

  lemma {:induction false} SettlingIsRounds<P>(b: Behaviour<P>, limit: nat, links: seq<Link>, parts: map<nat, P>,
                                               time: nat, k: nat)
    requires k <= limit && Rounds(b, links, parts, time, k).Ok?
    ensures FollowsRounds(b, limit, links, parts, time, k,
                          Settle(b, limit, links, Rounds(b, links, parts, time, k).value, time, k))
    decreases limit - k
  {
    hide Round, Rounds, Settle, Changes;
    var now := Rounds(b, links, parts, time, k).value;
    if k == limit {
      SettleAtLimit(b, limit, links, now, time);
    } else {
      RoundErrors(b, now, links, time);
      SettleOnce(b, limit, links, now, time, k);
      var round := Round(b, now, links, time);
      if round.Ok? && round.value.1 {
        RoundAfter(b, links, parts, time, k);
        ChangesHere(b, links, parts, time, k);
        SettlingIsRounds(b, limit, links, parts, time, k + 1);
      }
    }
  }

  lemma ChangesHere<P>(b: Behaviour<P>, links: seq<Link>, parts: map<nat, P>, time: nat, k: nat)
    requires Rounds(b, links, parts, time, k).Ok?
    requires var round := Round(b, Rounds(b, links, parts, time, k).value, links, time); round.Ok? && round.value.1
    ensures Changes(b, links, parts, time, k)
  {
  }

  lemma {:induction false} WriteAllErrors<P>(b: Behaviour<P>, parts: map<nat, P>, links: seq<Link>, values: seq<Value>,
                                             time: nat)
    requires |links| == |values|
    ensures var r := WriteAll(b, parts, links, values, time);
            r.Err? ==> r.error == Panicked || r.error == ParticipantTimeInvalid || r.error.ParticipantFailed?
    decreases |links|
  {
    if |links| > 0 {
      var one := WriteTarget(b, parts, links[0].target, time, values[0]);
      if one.Ok? {
        WriteAllErrors(b, one.value.0, links[1..], values[1..], time);
      }
    }
  }

  lemma RoundErrors<P>(b: Behaviour<P>, parts: map<nat, P>, links: seq<Link>, time: nat)
    ensures Round(b, parts, links, time) != Err(DeltaCycleLimit)
  {
    ReadAllErrors(b, parts, links);
    var values := ReadAll(b, parts, links);
    if values.Ok? {
      WriteAllErrors(b, parts, links, values.value, time);
    }
  }

  /* ---- Links into one register ---- */

  /** The sources of any two links into one register read the same. */
  ghost predicate SourcesAgree<P>(b: Behaviour<P>, at: Endpoint -> Cell, parts: map<nat, P>, links: seq<Link>) {
    forall i, j :: 0 <= i < j < |links| && SameCell(at, links[i].target, links[j].target) ==>
      ReadSource(b, parts, links[i].source) == ReadSource(b, parts, links[j].source)
  }

  /** They are one source, or both belong to participants that settling cannot change. */
  ghost predicate SteadySources<P>(at: Endpoint -> Cell, parts: map<nat, P>, links: seq<Link>) {
    forall i, j :: 0 <= i < j < |links| && SameCell(at, links[i].target, links[j].target) ==>
      || links[i].source == links[j].source
      || (SteadySource(parts, links, links[i].source) && SteadySource(parts, links, links[j].source))
  }

  ghost predicate SteadySource<P>(parts: map<nat, P>, links: seq<Link>, source: Endpoint) {
    source.participant in parts && Untargeted(links, source.participant)
  }

  lemma AgreementIsSteady<P>(b: Behaviour<P>, at: Endpoint -> Cell, before: map<nat, P>, after: map<nat, P>,
                             links: seq<Link>)
    requires before.Keys == after.Keys && SteadySources(at, before, links)
    requires forall id :: id in before && Untargeted(links, id) ==> after[id] == before[id]
    ensures SourcesAgree(b, at, before, links) <==> SourcesAgree(b, at, after, links)
    ensures SteadySources(at, after, links)
  {
    hide ReadSource;
    forall source: Endpoint | SteadySource(before, links, source)
      ensures ReadSource(b, after, source) == ReadSource(b, before, source)
    {
      SameRead(b, before, after, source);
    }
  }

  lemma SameRead<P>(b: Behaviour<P>, before: map<nat, P>, after: map<nat, P>, source: Endpoint)
    requires before.Keys == after.Keys
    requires source.participant in before ==> after[source.participant] == before[source.participant]
    ensures ReadSource(b, after, source) == ReadSource(b, before, source)
  {
  }

  /* ---- Feed-forward links ---- */

  ghost predicate RaisesRank(rank: nat -> nat, links: seq<Link>) {
    forall i :: 0 <= i < |links| ==> rank(links[i].source.participant) < rank(links[i].target.participant)
  }

  /** The two agree on all participants of rank at most `k`. */
  ghost predicate SameUpTo<P(!new)>(rank: nat -> nat, k: nat, one: map<nat, P>, other: map<nat, P>) {
    one.Keys == other.Keys && forall id :: id in one && rank(id) <= k ==> one[id] == other[id]
  }

  /** Links into participants of rank at most `k + 1` read the same from both. */
  lemma SameReadsUpTo<P(!new)>(b: Behaviour<P>, rank: nat -> nat, k: nat, one: map<nat, P>, other: map<nat, P>,
                               links: seq<Link>)
    requires RaisesRank(rank, links) && SameUpTo(rank, k, one, other)
    ensures forall i :: 0 <= i < |links| && rank(links[i].target.participant) <= k + 1 ==>
              ReadSource(b, one, links[i].source) == ReadSource(b, other, links[i].source)
  {
    hide ReadSource;
    forall i | 0 <= i < |links| && rank(links[i].target.participant) <= k + 1
      ensures ReadSource(b, one, links[i].source) == ReadSource(b, other, links[i].source)
    {
      SameRead(b, other, one, links[i].source);
    }
  }

  /**
   * If participants of rank at most `k` are in `before` as in `final`, where sources into one register agree,
   * a round from `before` gives every input of rank at most `k + 1` what its source shows in `final`.
   */
  lemma RoundDelivers<P(!new)>(b: Behaviour<P>, good: P -> bool, inv: P -> bool,
                               input: (P, nat) -> Option<Value>, cell: (P, nat) -> Cell, at: Endpoint -> Cell,
                               rank: nat -> nat, k: nat, before: map<nat, P>, final: map<nat, P>, links: seq<Link>,
                               time: nat, i: nat)
    requires Governed(b, good, inv, input, cell, at, before, time) && Round(b, before, links, time).Ok?
    requires RaisesRank(rank, links)
    requires SameUpTo(rank, k, before, final) && SourcesAgree(b, at, final, links)
    requires i < |links| && rank(links[i].target.participant) <= k + 1
    ensures ReadSource(b, final, links[i].source).Ok?
    ensures var after := Round(b, before, links, time).value.0;
            && links[i].target.participant in after
            && InputAt(input, after, links[i].target) == Some(ReadSource(b, final, links[i].source).value)
  {
    hide Governed, ReadAll, WriteAll;
    var values := ReadAll(b, before, links).value;
    SameReadsUpTo(b, rank, k, before, final, links);
    forall j | 0 <= j < |links| && SameCell(at, links[j].target, links[i].target)
      ensures values[j] == values[i]
    {
      AgreeBothWays(b, at, final, links, i, j);
    }
    WriteAllDelivers(b, good, inv, input, cell, at, before, links, values, time, i);
  }

  lemma AgreeBothWays<P>(b: Behaviour<P>, at: Endpoint -> Cell, parts: map<nat, P>, links: seq<Link>, i: nat, j: nat)
    requires SourcesAgree(b, at, parts, links) && i < |links| && j < |links|
    requires SameCell(at, links[j].target, links[i].target)
    ensures ReadSource(b, parts, links[i].source) == ReadSource(b, parts, links[j].source)
  {
    hide ReadSource;
  }

  /** One more rank is stable one round later. */
  lemma RankStabilizes<P(!new)>(b: Behaviour<P>, good: P -> bool, inv: P -> bool,
                                input: (P, nat) -> Option<Value>, cell: (P, nat) -> Cell, at: Endpoint -> Cell,
                                rank: nat -> nat, k: nat, before: map<nat, P>, middle: map<nat, P>, final: map<nat, P>,
                                links: seq<Link>, time: nat)
    requires Governed(b, good, inv, input, cell, at, before, time)
    requires Governed(b, good, inv, input, cell, at, middle, time) && RaisesRank(rank, links)
    requires SameUpTo(rank, k, before, final) && SameUpTo(rank, k, middle, final) && SourcesAgree(b, at, final, links)
    requires Round(b, before, links, time).Ok? && Round(b, before, links, time).value.0 == middle
    requires Round(b, middle, links, time).Ok?
    ensures SameUpTo(rank, k + 1, middle, Round(b, middle, links, time).value.0)
  {
    hide Governed, SourcesAgree, RaisesRank, WriteAll, ReadAll;
    var again := ReadAll(b, middle, links).value;
    SameReadsUpTo(b, rank, k, middle, final, links);
    forall i | 0 <= i < |links| && rank(links[i].target.participant) <= k + 1 && links[i].target.participant in middle
      ensures InputAt(input, middle, links[i].target) == Some(again[i])
    {
      RoundDelivers(b, good, inv, input, cell, at, rank, k, before, final, links, time, i);
    }
    WriteAllIdleBelow(b, good, inv, input, cell, at, rank, k + 1, middle, links, again, time);
  }

  /** Rounds `j` and `n` agree on participants of rank at most `k`. */
  ghost predicate SameAt<P(!new)>(b: Behaviour<P>, rank: nat -> nat, links: seq<Link>, parts: map<nat, P>, time: nat,
                                  k: nat, j: nat,
                                  n: nat)
  {
    && Rounds(b, links, parts, time, j).Ok? && Rounds(b, links, parts, time, n).Ok?
    && SameUpTo(rank, k, Rounds(b, links, parts, time, j).value, Rounds(b, links, parts, time, n).value)
  }

  ghost predicate AgreesAfter<P>(b: Behaviour<P>, at: Endpoint -> Cell, links: seq<Link>, parts: map<nat, P>, time: nat,
                                 n: nat) {
    Rounds(b, links, parts, time, n).Ok? && SourcesAgree(b, at, Rounds(b, links, parts, time, n).value, links)
  }

  lemma StableNext<P(!new)>(b: Behaviour<P>, good: P -> bool, inv: P -> bool,
                            input: (P, nat) -> Option<Value>, cell: (P, nat) -> Cell, at: Endpoint -> Cell,
                            rank: nat -> nat, links: seq<Link>, parts: map<nat, P>, time: nat, n: nat, k: nat, j: nat)
    requires Governed(b, good, inv, input, cell, at, parts, time) && RaisesRank(rank, links)
    requires AgreesAfter(b, at, links, parts, time, n)
    requires 0 < k && 0 < j < n && SameAt(b, rank, links, parts, time, k - 1, j - 1, n)
    requires SameAt(b, rank, links, parts, time, k - 1, j, n)
    ensures SameAt(b, rank, links, parts, time, k, j, j + 1)
  {
    hide Governed, SourcesAgree, RaisesRank, Rounds, Round, SameUpTo;
    EarlierRounds(b, links, parts, time, j + 1, n);
    NextRound(b, links, parts, time, j);
    NextRound(b, links, parts, time, j - 1);
    RoundsGoverned(b, good, inv, input, cell, at, links, parts, time, j - 1);
    RoundsGoverned(b, good, inv, input, cell, at, links, parts, time, j);
    RankStabilizes(b, good, inv, input, cell, at, rank, k - 1, Rounds(b, links, parts, time, j - 1).value,
                   Rounds(b, links, parts, time, j).value,
                   Rounds(b, links, parts, time, n).value, links, time);
  }

  lemma SameChains<P(!new)>(b: Behaviour<P>, rank: nat -> nat, links: seq<Link>, parts: map<nat, P>, time: nat, k: nat,
                            i: nat, j: nat,
                            n: nat)
    requires SameAt(b, rank, links, parts, time, k, i, j) && SameAt(b, rank, links, parts, time, k, j, n)
    ensures SameAt(b, rank, links, parts, time, k, i, n)
  {
    hide Rounds;
  }

  lemma AfterIsOk<P>(b: Behaviour<P>, at: Endpoint -> Cell, links: seq<Link>, parts: map<nat, P>, time: nat, n: nat)
    requires AgreesAfter(b, at, links, parts, time, n)
    ensures Rounds(b, links, parts, time, n).Ok?
  {
  }

  lemma SameAtItself<P(!new)>(b: Behaviour<P>, rank: nat -> nat, links: seq<Link>, parts: map<nat, P>, time: nat,
                              k: nat, n: nat)
    requires Rounds(b, links, parts, time, n).Ok?
    ensures SameAt(b, rank, links, parts, time, k, n, n)
  {
    hide Rounds;
  }

  /** If sources agree after `n` rounds, participants of rank at most `k` have been as they are then since round `k`. */
  lemma {:induction false} StableSince<P(!new)>(b: Behaviour<P>, good: P -> bool, inv: P -> bool,
                                                input: (P, nat) -> Option<Value>, cell: (P,
                                                                      nat) -> Cell, at: Endpoint -> Cell,
                                                rank: nat -> nat, links: seq<Link>, parts: map<nat, P>, time: nat,
                                                n: nat, k: nat,
                                                j: nat)
    requires Governed(b, good, inv, input, cell, at, parts, time) && RaisesRank(rank, links)
    requires AgreesAfter(b, at, links, parts, time, n) && k <= j <= n
    ensures SameAt(b, rank, links, parts, time, k, j, n)
    decreases k, n - j, 1
  {
    AfterIsOk(b, at, links, parts, time, n);
    hide Governed, RaisesRank, AgreesAfter, SameAt, Rounds;
    if j == n {
      SameAtItself(b, rank, links, parts, time, k, n);
    } else {
      StableSince(b, good, inv, input, cell, at, rank, links, parts, time, n, k, j + 1);
      StableStep(b, good, inv, input, cell, at, rank, links, parts, time, n, k, j);
      SameChains(b, rank, links, parts, time, k, j, j + 1, n);
    }
  }

  lemma {:induction false} StableStep<P(!new)>(b: Behaviour<P>, good: P -> bool, inv: P -> bool,
                                               input: (P, nat) -> Option<Value>, cell: (P,
                                                                      nat) -> Cell, at: Endpoint -> Cell,
                                               rank: nat -> nat, links: seq<Link>, parts: map<nat, P>, time: nat,
                                               n: nat, k: nat,
                                               j: nat)
    requires Governed(b, good, inv, input, cell, at, parts, time) && RaisesRank(rank, links)
    requires AgreesAfter(b, at, links, parts, time, n) && k <= j < n
    requires SameAt(b, rank, links, parts, time, k, j + 1, n)
    ensures SameAt(b, rank, links, parts, time, k, j, j + 1)
    decreases k, n - j, 0
  {
    hide Governed, RaisesRank, AgreesAfter, SameAt, Rounds;
    if k == 0 {
      LowestRankStays(b, rank, links, parts, time, j, n);
    } else {
      StableSince(b, good, inv, input, cell, at, rank, links, parts, time, n, k - 1, j - 1);
      StableSince(b, good, inv, input, cell, at, rank, links, parts, time, n, k - 1, j);
      StableNext(b, good, inv, input, cell, at, rank, links, parts, time, n, k, j);
    }
  }

  /** Nothing feeds a participant of rank zero. */
  lemma LowestRankStays<P(!new)>(b: Behaviour<P>, rank: nat -> nat, links: seq<Link>, parts: map<nat, P>, time: nat,
                                 j: nat, n: nat)
    requires RaisesRank(rank, links) && j < n && SameAt(b, rank, links, parts, time, 0, j + 1, n)
    ensures SameAt(b, rank, links, parts, time, 0, j, j + 1)
  {
    hide Rounds, Round;
    NextRound(b, links, parts, time, j);
    var now := Rounds(b, links, parts, time, j).value;
    forall id | id in now && rank(id) == 0
      ensures Round(b, now, links, time).value.0[id] == now[id]
    {
      RoundSparesUntargeted(b, now, links, time, id);
    }
  }

  /** If sources agree after as many rounds as there are ranks, the next round reports no change. */
  lemma LastRoundIsIdle<P(!new)>(b: Behaviour<P>, good: P -> bool, inv: P -> bool,
                                 input: (P, nat) -> Option<Value>, cell: (P, nat) -> Cell, at: Endpoint -> Cell,
                                 rank: nat -> nat, top: nat, links: seq<Link>, parts: map<nat, P>, time: nat)
    requires Governed(b, good, inv, input, cell, at, parts, time) && RaisesRank(rank, links)
    requires forall id :: id in parts ==> rank(id) <= top
    requires Rounds(b, links, parts, time, top).Ok?
    requires SourcesAgree(b, at, Rounds(b, links, parts, time, top).value, links)
    ensures !Changes(b, links, parts, time, top)
  {
    hide Governed, SourcesAgree, Rounds;
    var final := Rounds(b, links, parts, time, top).value;
    if Round(b, final, links, time).Ok? {
      var values := ReadAll(b, final, links).value;
      RoundsGoverned(b, good, inv, input, cell, at, links, parts, time, top);
      forall i | 0 <= i < |links| && links[i].target.participant in final
        ensures InputAt(input, final, links[i].target) == Some(values[i])
      {
        FinalInput(b, good, inv, input, cell, at, rank, top, links, parts, time, i);
      }
      WriteAllRepeats(b, good, inv, input, cell, at, final, links, values, time);
    }
  }

  lemma FinalInput<P(!new)>(b: Behaviour<P>, good: P -> bool, inv: P -> bool,
                            input: (P, nat) -> Option<Value>, cell: (P, nat) -> Cell, at: Endpoint -> Cell,
                            rank: nat -> nat, top: nat, links: seq<Link>, parts: map<nat, P>, time: nat, i: nat)
    requires Governed(b, good, inv, input, cell, at, parts, time) && RaisesRank(rank, links)
    requires forall id :: id in parts ==> rank(id) <= top
    requires Rounds(b, links, parts, time, top).Ok?
    requires SourcesAgree(b, at, Rounds(b, links, parts, time, top).value, links)
    requires i < |links| && links[i].target.participant in parts
    ensures var final := Rounds(b, links, parts, time, top).value;
            && ReadSource(b, final, links[i].source).Ok?
            && InputAt(input, final, links[i].target) == Some(ReadSource(b, final, links[i].source).value)
  {
    hide Governed, SourcesAgree, Rounds, Round, ReadSource;
    assert rank(links[i].target.participant) <= top && top > 0;
    var final := Rounds(b, links, parts, time, top).value;
    NextRound(b, links, parts, time, top - 1);
    var before := Rounds(b, links, parts, time, top - 1).value;
    StableSince(b, good, inv, input, cell, at, rank, links, parts, time, top, top - 1, top - 1);
    RoundsGoverned(b, good, inv, input, cell, at, links, parts, time, top - 1);
    RoundDelivers(b, good, inv, input, cell, at, rank, top - 1, before, final, links, time, i);
  }

  /** After a round without a change nothing ever changes. */
  lemma {:induction false} RoundsStay<P>(b: Behaviour<P>, links: seq<Link>, parts: map<nat, P>, time: nat, n: nat,
                                         k: nat)
    requires n <= k && Rounds(b, links, parts, time, n).Ok?
    requires var final := Rounds(b, links, parts, time, n).value; Round(b, final, links, time) == Ok((final, false))
    ensures Rounds(b, links, parts, time, k) == Rounds(b, links, parts, time, n)
    decreases k
  {
    hide Round;
    if n < k {
      RoundsStay(b, links, parts, time, n, k - 1);
    }
  }

  /** Once settled, links into one register agree. */
  lemma SettledSourcesAgree<P(!new)>(b: Behaviour<P>, good: P -> bool, inv: P -> bool, input: (P, nat) -> Option<Value>,
                                     cell: (P, nat) -> Cell, at: Endpoint -> Cell,
                                     parts: map<nat, P>, links: seq<Link>, time: nat)
    requires Governed(b, good, inv, input, cell, at, parts, time)
    requires CellsHoldOne(inv, input, cell) && LinksSettled(b, input, parts, links)
    ensures SourcesAgree(b, at, parts, links)
  {
    hide Contract, InputsAreRegisters, ReadSource;
  }

  /**
   * Links that raise a rank of at most `top` settle, under any limit above `top`, exactly if after `top` rounds
   * the sources that feed one register agree - unless a participant fails before. They then take at most `top`
   * changing rounds, and end in the participants of that round.
   */
  lemma FeedForwardSettlesExactly<P(!new)>(b: Behaviour<P>, good: P -> bool, inv: P -> bool,
                                           input: (P, nat) -> Option<Value>, cell: (P,
                                                                      nat) -> Cell, at: Endpoint -> Cell,
                                           rank: nat -> nat, top: nat, limit: nat, links: seq<Link>, parts: map<nat,
                                           P>, time: nat)
    requires Governed(b, good, inv, input, cell, at, parts, time) && CellsHoldOne(inv, input, cell)
    requires RaisesRank(rank, links)
    requires (forall id :: id in parts ==> rank(id) <= top) && top < limit
    ensures var (r, after) := (Settle(b, limit, links, parts, time, 0), Rounds(b, links, parts, time, top));
            && (r.Ok? ==> r.value.1 <= top && after == Ok(r.value.0) && SourcesAgree(b, at, r.value.0, links)
                          && LinksSettled(b, input, r.value.0, links))
            && (r == Err(DeltaCycleLimit) ==> after.Ok? && !SourcesAgree(b, at, after.value, links))
  {
    hide Governed, SourcesAgree, Settle, Rounds, CellsHoldOne, LinksSettled, RaisesRank;
    var r := Settle(b, limit, links, parts, time, 0);
    NoRounds(b, links, parts, time);
    SettlingIsRounds(b, limit, links, parts, time, 0);
    if r.Ok? {
      SettledAgrees(b, good, inv, input, cell, at, limit, links, parts, time);
      SettledWithinRanks(b, good, inv, input, cell, at, rank, top, links, parts, time, r.value.1);
    } else if r == Err(DeltaCycleLimit) {
      assert Changes(b, links, parts, time, top);
      if SourcesAgree(b, at, Rounds(b, links, parts, time, top).value, links) {
        LastRoundIsIdle(b, good, inv, input, cell, at, rank, top, links, parts, time);
      }
    }
  }

  /** What an Ok settling ends in. */
  lemma SettledAgrees<P(!new)>(b: Behaviour<P>, good: P -> bool, inv: P -> bool,
                               input: (P, nat) -> Option<Value>, cell: (P, nat) -> Cell, at: Endpoint -> Cell,
                               limit: nat, links: seq<Link>, parts: map<nat, P>, time: nat)
    requires Governed(b, good, inv, input, cell, at, parts, time) && CellsHoldOne(inv, input, cell)
    requires Settle(b, limit, links, parts, time, 0).Ok?
    ensures var (final, n) := Settle(b, limit, links, parts, time, 0).value;
            && Rounds(b, links, parts, time, n) == Ok(final)
            && SourcesAgree(b, at, final, links) && LinksSettled(b, input, final, links)
  {
    hide SourcesAgree, Settle, Rounds, CellsHoldOne, LinksSettled, Contract, InputsAreRegisters, Changes;
    var (final, n) := Settle(b, limit, links, parts, time, 0).value;
    NoRounds(b, links, parts, time);
    SettlingIsRounds(b, limit, links, parts, time, 0);
    RegistersAreIdle(b, inv, input, cell);
    SettledOnReturn(b, good, inv, input, limit, links, parts, time, 0);
    RoundsGoverned(b, good, inv, input, cell, at, links, parts, time, n);
    var last := Rounds(b, links, parts, time, n).value;
    IdleRoundChangesNothing(b, inv, input, last, links, ReadAll(b, last, links).value, time);
    SettledSourcesAgree(b, good, inv, input, cell, at, final, links, time);
  }

  lemma SameRoundIsIdle<P(!new)>(b: Behaviour<P>, rank: nat -> nat, links: seq<Link>, parts: map<nat, P>, time: nat,
                                 top: nat, n: nat)
    requires SameAt(b, rank, links, parts, time, top, top, n) && forall id :: id in parts ==> rank(id) <= top
    requires var final := Rounds(b, links, parts, time, n).value; Round(b, final, links, time) == Ok((final, false))
    ensures !Changes(b, links, parts, time, top)
  {
    hide Rounds, Round;
    assert Rounds(b, links, parts, time, top).value == Rounds(b, links, parts, time, n).value;
  }

  /** The first round without a change comes no later than round `top + 1`. */
  lemma SettledWithinRanks<P(!new)>(b: Behaviour<P>, good: P -> bool, inv: P -> bool,
                                    input: (P, nat) -> Option<Value>, cell: (P, nat) -> Cell, at: Endpoint -> Cell,
                                    rank: nat -> nat, top: nat, links: seq<Link>, parts: map<nat, P>, time: nat, n: nat)
    requires Governed(b, good, inv, input, cell, at, parts, time) && RaisesRank(rank, links)
    requires forall id :: id in parts ==> rank(id) <= top
    requires Rounds(b, links, parts, time, n).Ok? && SourcesAgree(b, at, Rounds(b, links, parts, time, n).value, links)
    requires var final := Rounds(b, links, parts, time, n).value; Round(b, final, links, time) == Ok((final, false))
    requires forall m :: 0 <= m < n ==> Changes(b, links, parts, time, m)
    ensures n <= top && Rounds(b, links, parts, time, top) == Rounds(b, links, parts, time, n)
  {
    hide Governed, SourcesAgree, Rounds, Round, RaisesRank;
    if n > top {
      StableSince(b, good, inv, input, cell, at, rank, links, parts, time, n, top, top);
      SameRoundIsIdle(b, rank, links, parts, time, top, n);
    } else {
      RoundsStay(b, links, parts, time, n, top);
    }
  }

  /** When settling cannot change the sources that feed one register, they can be compared beforehand. */
  lemma FeedForwardConverges<P(!new)>(b: Behaviour<P>, good: P -> bool, inv: P -> bool,
                                      input: (P, nat) -> Option<Value>, cell: (P, nat) -> Cell, at: Endpoint -> Cell,
                                      rank: nat -> nat, top: nat, limit: nat, links: seq<Link>, parts: map<nat, P>,
                                      time: nat)
    requires Governed(b, good, inv, input, cell, at, parts, time) && CellsHoldOne(inv, input, cell)
    requires RaisesRank(rank, links) && SteadySources(at, parts, links)
    requires (forall id :: id in parts ==> rank(id) <= top) && top < limit
    ensures var r := Settle(b, limit, links, parts, time, 0);
            && (r.Ok? ==> SourcesAgree(b, at, parts, links) && r.value.1 <= top)
            && (r == Err(DeltaCycleLimit) ==> !SourcesAgree(b, at, parts, links))
  {
    hide Governed, SourcesAgree, SteadySources, Settle, Rounds, CellsHoldOne, RaisesRank, Untargeted;
    FeedForwardSettlesExactly(b, good, inv, input, cell, at, rank, top, limit, links, parts, time);
    var after := Rounds(b, links, parts, time, top);
    if after.Ok? {
      forall id | id in parts && Untargeted(links, id)
        ensures after.value[id] == parts[id]
      {
        RoundsSpareUntargeted(b, links, parts, time, top, id);
      }
      AgreementIsSteady(b, at, parts, after.value, links);
    }
  }
}
