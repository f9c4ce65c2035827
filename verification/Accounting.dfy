/**
 * Every record and every counter of a run of the master, from what the participants themselves do: each is
 * initialized once and advanced once per macro step, and each settling takes as many cycles as it has rounds
 * that change something.
 */
module Accounting {
  import opened Wrappers
  import opened CoSim
  import opened Ordering
  import opened Settling
  import opened Timeline

  /** The participants as they enter a settling, and the rounds of it that change something. */
  datatype Entry<P> = Entry(parts: map<nat, P>, cycles: nat)

  function TotalCycles<P>(entries: seq<Entry<P>>): nat
    decreases |entries|
  {
    if |entries| == 0 then 0 else TotalCycles(entries[..|entries| - 1]) + entries[|entries| - 1].cycles
  }

  ghost predicate EachInitialized<P>(b: Behaviour<P>, parts: map<nat, P>, after: map<nat, P>) {
    after.Keys == parts.Keys && forall id :: id in parts ==> b.initialize(parts[id]) == Ok(after[id])
  }

  ghost predicate EachAdvanced<P>(b: Behaviour<P>, parts: map<nat, P>, target: nat, after: map<nat, P>) {
    after.Keys == parts.Keys && forall id :: id in parts ==> b.advance(parts[id], target) == Ok(after[id])
  }

  /** Settling takes the entered participants to the recorded ones. */
  ghost predicate SettledFrom<P>(b: Behaviour<P>, config: Config, links: seq<Link>, entry: Entry<P>,
                                 record: Snapshot<P>) {
    FollowsRounds(b, config.maxDeltaCycles, links, entry.parts, record.time, 0, Ok((record.parts, entry.cycles)))
  }

  /** The history of a run that began with `parts`, and its counters. */
  ghost predicate Accounted<P>(b: Behaviour<P>, config: Config, links: seq<Link>, parts: map<nat, P>, s: RunState<P>,
                               entries: seq<Entry<P>>) {
    && |entries| == |s.trace| == s.stats.macroSteps + 1
    && s.trace[0].time == 0 && s.trace[|s.trace| - 1] == Snapshot(s.now, s.parts)
    && EachInitialized(b, parts, entries[0].parts)
    && (forall i :: 0 <= i < |entries| ==> SettledFrom(b, config, links, entries[i], s.trace[i]))
    && (forall i :: 0 < i < |entries| ==>
          EachAdvanced(b, s.trace[i - 1].parts, s.trace[i].time, entries[i].parts))
    && s.stats.deltaCycles == TotalCycles(entries)
    && s.stats.participantAdvances == s.stats.macroSteps * |parts| && s.parts.Keys == parts.Keys
  }

  lemma {:induction false} InitializeAllIs<P>(b: Behaviour<P>, parts: map<nat, P>, ids: seq<nat>)
    requires forall i, j :: 0 <= i < j < |ids| ==> ids[i] < ids[j]
    requires forall id :: id in ids ==> id in parts
    ensures var r := InitializeAll(b, parts, ids);
            r.Ok? ==>
              && r.value.Keys == parts.Keys
              && (forall id :: id in ids ==> b.initialize(parts[id]) == Ok(r.value[id]))
              && (forall id :: id in parts && id !in ids ==> r.value[id] == parts[id])
    decreases |ids|
  {
    if |ids| > 0 {
      var id := ids[0];
      assert id in ids;
      var q := InitializeOne(b, id, parts[id]);
      if q.Ok? {
        assert forall i :: 0 < i < |ids| ==> ids[i] != id;
        assert forall k :: k in ids <==> k == id || k in ids[1..];
        InitializeAllIs(b, parts[id := q.value], ids[1..]);
      }
    }
  }

  lemma {:induction false} AdvanceAllIs<P>(b: Behaviour<P>, parts: map<nat, P>, target: nat, ids: seq<nat>)
    requires forall i, j :: 0 <= i < j < |ids| ==> ids[i] < ids[j]
    requires forall id :: id in ids ==> id in parts
    ensures var r := AdvanceAll(b, parts, target, ids);
            r.Ok? ==>
              && r.value.Keys == parts.Keys
              && (forall id :: id in ids ==> b.advance(parts[id], target) == Ok(r.value[id]))
              && (forall id :: id in parts && id !in ids ==> r.value[id] == parts[id])
    decreases |ids|
  {
    if |ids| > 0 {
      var id := ids[0];
      assert id in ids;
      var q := AdvanceOne(b, id, parts[id], target);
      if q.Ok? {
        assert forall i :: 0 < i < |ids| ==> ids[i] != id;
        assert forall k :: k in ids <==> k == id || k in ids[1..];
        AdvanceAllIs(b, parts[id := q.value], target, ids[1..]);
      }
    }
  }

  lemma SettleAccounts<P>(b: Behaviour<P>, config: Config, links: seq<Link>, parts: map<nat, P>, time: nat)
    requires Settle(b, config.maxDeltaCycles, links, parts, time, 0).Ok?
    ensures var (settled, cycles) := Settle(b, config.maxDeltaCycles, links, parts, time, 0).value;
            SettledFrom(b, config, links, Entry(parts, cycles), Snapshot(time, settled)) && settled.Keys == parts.Keys
  {
    hide Settle, Round, FollowsRounds;
    NoRounds(b, links, parts, time);
    SettlingIsRounds(b, config.maxDeltaCycles, links, parts, time, 0);
  }

  lemma FirstAccounted<P>(b: Behaviour<P>, config: Config, links: seq<Link>, parts: map<nat, P>, s: RunState<P>,
                          entry: Entry<P>)
    requires s.trace == [Snapshot(0, s.parts)] && s.now == 0 && s.stats == Stats(0, entry.cycles, 0)
    requires EachInitialized(b, parts, entry.parts) && SettledFrom(b, config, links, entry, s.trace[0])
    requires s.parts.Keys == parts.Keys
    ensures Accounted(b, config, links, parts, s, [entry])
  {
    hide SettledFrom;
    assert [entry][..0] == [];
    assert TotalCycles([entry][..0]) == 0;
  }

  lemma BeginAccounts<P>(b: Behaviour<P>, config: Config, parts: map<nat, P>, links: seq<Link>)
    returns (entries: seq<Entry<P>>)
    requires Begin(b, config, parts, links).Ok?
    ensures Accounted(b, config, links, parts, Begin(b, config, parts, links).value, entries)
  {
    hide InitializeAll, NewRecorder, Settle, Record, Ascending, SettledFrom, Accounted;
    var s := Begin(b, config, parts, links).value;
    var entered := InitializeAll(b, parts, Ascending(parts.Keys)).value;
    InitializeAllIs(b, parts, Ascending(parts.Keys));
    SettleAccounts(b, config, links, entered, 0);
    var entry := Entry(entered, Settle(b, config.maxDeltaCycles, links, entered, 0, 0).value.1);
    FirstAccounted(b, config, links, parts, s, entry);
    entries := [entry];
  }

  lemma MoreAccounted<P>(b: Behaviour<P>, config: Config, links: seq<Link>, parts: map<nat, P>, s: RunState<P>,
                         t: RunState<P>, entries: seq<Entry<P>>, entry: Entry<P>)
    requires Accounted(b, config, links, parts, s, entries)
    requires t.trace == s.trace + [Snapshot(t.now, t.parts)] && t.stats == StatsAfter(s, entry.cycles)
    requires EachAdvanced(b, s.parts, t.now, entry.parts) && t.parts.Keys == s.parts.Keys
    requires SettledFrom(b, config, links, entry, Snapshot(t.now, t.parts))
    ensures Accounted(b, config, links, parts, t, entries + [entry])
  {
    hide SettledFrom, EachAdvanced, EachInitialized, TotalCycles;
    var more, n := entries + [entry], |entries|;
    OneMoreTotal(entries, entry);
    SameSize(s.parts, parts);
    OneMoreEach(s.stats.macroSteps, |parts|);
    assert forall i :: 0 <= i < n ==> more[i] == entries[i] && t.trace[i] == s.trace[i];
    assert SettledFrom(b, config, links, more[n], t.trace[n]);
    assert EachAdvanced(b, t.trace[n - 1].parts, t.trace[n].time, more[n].parts);
  }

  lemma OneMoreTotal<P>(entries: seq<Entry<P>>, entry: Entry<P>)
    ensures TotalCycles(entries + [entry]) == TotalCycles(entries) + entry.cycles
  {
    assert (entries + [entry])[..|entries|] == entries;
  }

  lemma OneMoreEach(steps: nat, n: nat)
    ensures (steps + 1) * n == steps * n + n
  {
  }

  lemma MacroStepAccounts<P>(b: Behaviour<P>, config: Config, links: seq<Link>, parts: map<nat, P>, s: RunState<P>,
                             entries: seq<Entry<P>>)
    returns (more: seq<Entry<P>>)
    requires Accounted(b, config, links, parts, s, entries) && MacroStep(b, config, links, s).Ok?
    ensures Accounted(b, config, links, parts, MacroStep(b, config, links, s).value, more)
  {
    hide AdvanceAll, NextTime, Settle, Record, Ascending, SettledFrom, Accounted;
    var target := NextTime(b, config, s.parts, s.now).value;
    var advanced := AdvanceAll(b, s.parts, target, Ascending(s.parts.Keys)).value;
    AdvanceAllIs(b, s.parts, target, Ascending(s.parts.Keys));
    SettleAccounts(b, config, links, advanced, target);
    var entry := Entry(advanced, Settle(b, config.maxDeltaCycles, links, advanced, target, 0).value.1);
    MoreAccounted(b, config, links, parts, s, MacroStep(b, config, links, s).value, entries, entry);
    more := entries + [entry];
  }

  lemma {:induction false} RunLoopAccounts<P>(b: Behaviour<P>, config: Config, links: seq<Link>, parts: map<nat, P>,
                                              s: RunState<P>, entries: seq<Entry<P>>)
    returns (all: seq<Entry<P>>)
    requires Accounted(b, config, links, parts, s, entries) && RunLoop(b, config, links, s).Ok?
    ensures Accounted(b, config, links, parts, RunLoop(b, config, links, s).value, all)
    decreases config.maxSteps - s.stats.macroSteps
  {
    hide Accounted, MacroStep;
    if s.now >= config.stop {
      all := entries;
    } else {
      var more := MacroStepAccounts(b, config, links, parts, s, entries);
      all := RunLoopAccounts(b, config, links, parts, MacroStep(b, config, links, s).value, more);
    }
  }

  /** A whole run, of any participants: its history and its counters, exactly. */
  lemma WholeRunAccounts<P>(b: Behaviour<P>, config: Config, parts: map<nat, P>, links: seq<Link>)
    returns (entries: seq<Entry<P>>)
    requires Simulate(b, config, parts, links).Ok?
    ensures Accounted(b, config, SortLinks(links), parts, Simulate(b, config, parts, links).value, entries)
  {
    hide Accounted, Begin, RunLoop;
    var sorted := ValidatedLinks(b, parts, links).value;
    assert sorted == SortLinks(links);
    hide ValidatedLinks;
    var first := BeginAccounts(b, config, parts, sorted);
    entries := RunLoopAccounts(b, config, sorted, parts, Begin(b, config, parts, sorted).value, first);
  }
}
