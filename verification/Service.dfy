/**
 * The service's job table: short critical sections under one lock, interleaved with the tasks that run the
 * jobs, with cancellations and with further submissions. Ids and results are numbers.
 */
module Service {
  import opened Wrappers
  import opened Ordering

  datatype Status = Queued | Running | Cancelling | Succeeded | Failed | Cancelled {
    predicate IsTerminal() {
      Succeeded? || Failed? || Cancelled?
    }
  }

  datatype Failure = SimulationFailure | WorkerFailure

  datatype Entry = Entry(status: Status, result: Option<nat>, error: Option<Failure>)

  datatype Limits = Limits(maxRetained: nat, maxConcurrent: nat) {
    predicate Valid() {
      0 < maxConcurrent <= maxRetained
    }
  }

  type Table = map<nat, Entry>

  /* ---- Critical sections ---- */

  /** Removes ended jobs among `ids`, in order, while the table is full. */
  function PruneFrom(jobs: Table, maxRetained: nat, ids: seq<nat>): Table {
    if |ids| == 0 || |jobs| < maxRetained then jobs
    else PruneFrom(if ids[0] in jobs && jobs[ids[0]].status.IsTerminal() then jobs - {ids[0]}
                   else jobs, maxRetained, ids[1..])
  }

  function PruneTerminal(jobs: Table, maxRetained: nat): Table {
    PruneFrom(jobs, maxRetained, Ascending(jobs.Keys))
  }

  const NEW_ENTRY := Entry(Queued, None, None)

  const CANCELLED_ENTRY := Entry(Cancelled, None, None)

  datatype Outcome = Simulated(result: nat) | Cancellation | SimulationError | WorkerError

  /** What a finishing task writes; a cancellation that arrived in time wins over a simulation's outcome. */
  function FinalEntry(cancelled: bool, outcome: Outcome): Entry {
    match outcome
    case Simulated(result) => if cancelled then CANCELLED_ENTRY else Entry(Succeeded, Some(result), None)
    case SimulationError => if cancelled then CANCELLED_ENTRY else Entry(Failed, None, Some(SimulationFailure))
    case WorkerError => Entry(Failed, None, Some(WorkerFailure))
    case Cancellation => CANCELLED_ENTRY
  }

  /** Applies `entry` to the job if it is still in the table. */
  function Update(jobs: Table, id: nat, entry: Entry): Table {
    if id in jobs then jobs[id := entry] else jobs
  }

  function WithStatus(jobs: Table, id: nat, status: Status): Table {
    if id in jobs then jobs[id := jobs[id].(status := status)] else jobs
  }

  /** `cancel_job` reaches jobs that have not ended. */
  predicate Cancellable(jobs: Table, id: nat) {
    id in jobs && !jobs[id].status.IsTerminal()
  }

  /* ---- The table object ---- */

  datatype ServiceError = QueueFull | JobNotFound

  class JobTable {
    const limits: Limits
    var jobs: Table
    var cancelled: set<nat>

    constructor (limits: Limits)
      ensures this.limits == limits && jobs == map[] && cancelled == {}
    {
      this.limits := limits;
      jobs, cancelled := map[], {};
    }

    method Prune()
      modifies this`jobs
      ensures jobs == PruneTerminal(old(jobs), limits.maxRetained)
    {
      hide Ascending;
      var ids := Ascending(jobs.Keys);
      assert ids[0..] == ids;
      for i := 0 to |ids|
        invariant PruneFrom(jobs, limits.maxRetained, ids[i..]) == PruneFrom(old(jobs), limits.maxRetained, ids)
      {
        assert ids[i..][1..] == ids[i + 1..];
        if |jobs| < limits.maxRetained {
          return;
        }
        if ids[i] in jobs && jobs[ids[i]].status.IsTerminal() {
          jobs := jobs - {ids[i]};
        }
      }
    }

    /** Makes room if ended jobs allow it. */
    method SubmitJob(id: nat) returns (r: Result<Entry, ServiceError>)
      modifies this`jobs
      ensures var pruned := PruneTerminal(old(jobs), limits.maxRetained);
              if |pruned| >= limits.maxRetained then r == Err(QueueFull) && jobs == pruned
              else r == Ok(NEW_ENTRY) && jobs == pruned[id := NEW_ENTRY]
    {
      Prune();
      if |jobs| >= limits.maxRetained {
        return Err(QueueFull);
      }
      jobs := jobs[id := NEW_ENTRY];
      r := Ok(NEW_ENTRY);
    }

    method CancelJob(id: nat) returns (r: Result<Entry, ServiceError>)
      modifies this
      ensures r == if id in jobs then Ok(jobs[id]) else Err(JobNotFound)
      ensures jobs == if Cancellable(old(jobs), id) then WithStatus(old(jobs), id, Cancelling) else old(jobs)
      ensures cancelled == if Cancellable(old(jobs), id) then old(cancelled) + {id} else old(cancelled)
    {
      if id !in jobs {
        return Err(JobNotFound);
      }
      if !jobs[id].status.IsTerminal() {
        cancelled := cancelled + {id};
        jobs := jobs[id := jobs[id].(status := Cancelling)];
      }
      r := Ok(jobs[id]);
    }

    method UpdateStatus(id: nat, status: Status)
      modifies this`jobs
      ensures jobs == WithStatus(old(jobs), id, status)
    {
      if id in jobs {
        jobs := jobs[id := jobs[id].(status := status)];
      }
    }

    method FinishSuccess(id: nat, result: nat)
      modifies this`jobs
      ensures jobs == Update(old(jobs), id, FinalEntry(id in cancelled, Simulated(result)))
    {
      if id in jobs {
        if id in cancelled {
          jobs := jobs[id := CANCELLED_ENTRY];
        } else {
          jobs := jobs[id := Entry(Succeeded, Some(result), None)];
        }
      }
    }

    method FinishSimulationFailure(id: nat)
      modifies this`jobs
      ensures jobs == Update(old(jobs), id, FinalEntry(id in cancelled, SimulationError))
    {
      if id in jobs {
        if id in cancelled {
          jobs := jobs[id := CANCELLED_ENTRY];
        } else {
          jobs := jobs[id := Entry(Failed, None, Some(SimulationFailure))];
        }
      }
    }

    method FinishWorkerFailure(id: nat)
      modifies this`jobs
      ensures jobs == Update(old(jobs), id, FinalEntry(id in cancelled, WorkerError))
    {
      if id in jobs {
        jobs := jobs[id := Entry(Failed, None, Some(WorkerFailure))];
      }
    }

    method FinishCancelled(id: nat)
      modifies this`jobs
      ensures jobs == Update(old(jobs), id, FinalEntry(id in cancelled, Cancellation))
    {
      if id in jobs {
        jobs := jobs[id := CANCELLED_ENTRY];
      }
    }
  }

  /* ---- Pruning ---- */

  /** Pruning removes only ended jobs, and no more of them than make room. */
  lemma {:induction false} PruneFromKeeps(jobs: Table, maxRetained: nat, ids: seq<nat>)
    ensures var r := PruneFrom(jobs, maxRetained, ids);
            && (forall id :: id in r ==> id in jobs && r[id] == jobs[id])
            && (forall id :: id in jobs && (!jobs[id].status.IsTerminal() || id !in ids) ==> id in r)
            && |r| <= |jobs| && (|jobs| >= maxRetained > 0 ==> |r| >= maxRetained - 1)
            && (|r| >= maxRetained ==> forall id :: id in r && id in ids ==> !r[id].status.IsTerminal())
    decreases |ids|
  {
    if |ids| > 0 && |jobs| >= maxRetained {
      var next := if ids[0] in jobs && jobs[ids[0]].status.IsTerminal() then jobs - {ids[0]} else jobs;
      PruneFromKeeps(next, maxRetained, ids[1..]);
      OneLess(jobs, ids[0]);
      assert ids == [ids[0]] + ids[1..];
    }
  }

  lemma OneLess(jobs: Table, id: nat)
    ensures |jobs - {id}| == |jobs| - (if id in jobs then 1 else 0)
  {
    assert (jobs - {id}).Keys == jobs.Keys - {id};
    assert |(jobs - {id}).Keys| == |jobs - {id}| && |jobs.Keys| == |jobs|;
  }

  /** Jobs that have not ended survive; a table still full afterwards holds only such jobs. */
  lemma PruneTerminalKeeps(jobs: Table, maxRetained: nat)
    ensures var r := PruneTerminal(jobs, maxRetained);
            && (forall id :: id in r ==> id in jobs && r[id] == jobs[id])
            && (forall id :: id in jobs && !jobs[id].status.IsTerminal() ==> id in r)
            && (|r| >= maxRetained ==> forall id :: id in r ==> !r[id].status.IsTerminal())
            && |r| <= |jobs|
  {
    PruneFromKeeps(jobs, maxRetained, Ascending(jobs.Keys));
  }

  /** And it removes the oldest: no ended job is kept that precedes a removed one. */
  lemma {:induction false} PruneOldestFirst(jobs: Table, maxRetained: nat, ids: seq<nat>, gone: nat, left: nat)
    requires forall i, j :: 0 <= i < j < |ids| ==> ids[i] < ids[j]
    requires gone in jobs && gone !in PruneFrom(jobs, maxRetained, ids)
    requires left in PruneFrom(jobs, maxRetained, ids) && left in ids && left in jobs && jobs[left].status.IsTerminal()
    ensures gone < left
    decreases |ids|
  {
    var next := if ids[0] in jobs && jobs[ids[0]].status.IsTerminal() then jobs - {ids[0]} else jobs;
    PruneFromKeeps(next, maxRetained, ids[1..]);
    PruneFromKeeps(jobs, maxRetained, ids);
    assert ids == [ids[0]] + ids[1..];
    if gone != ids[0] {
      PruneOldestFirst(next, maxRetained, ids[1..], gone, left);
    } else {
      var k :| 0 <= k < |ids| && ids[k] == left;
    }
  }
}
