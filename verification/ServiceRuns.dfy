/** Every interleaving of the service's critical sections with its tasks. */
module ServiceRuns {
  import opened Wrappers
  import opened Service

  /** One spawned `run_job`; from `Gated` to `Stopped` it holds a permit. */
  datatype TaskPc =
    | Waiting
    | Gated
    | Abandoning                   // cancelled before it ran
    | Dropping
    | Starting
    | Running
    | Stopped(outcome: Outcome)
    | Rechecking(outcome: Outcome)
    | Finishing(outcome: Outcome)
    | Over

  datatype Task = Task(id: nat, pc: TaskPc)

  /** `reserved` are ids drawn from the counter whose submission has not reached the table. */
  datatype State = State(jobs: Table, cancelled: set<nat>, tasks: seq<Task>, free: nat, reserved: set<nat>, next: nat)

  predicate HoldsPermit(pc: TaskPc) {
    pc.Gated? || pc.Abandoning? || pc.Dropping? || pc.Starting? || pc.Running? || pc.Stopped?
  }

  /** The job's entry is still to receive its final form. */
  predicate Live(pc: TaskPc) {
    !pc.Over? && !pc.Dropping?
  }

  /** The gate may turn out closed; otherwise the outcome matters to a task whose simulation ends. */
  datatype Choice = Go(outcome: Outcome) | GateClosed

  function TaskStep(s: State, task: Task, choice: Choice): (State, TaskPc) {
    var isCancelled := task.id in s.cancelled;
    match task.pc
    case Waiting =>
      if choice.GateClosed? then (s, Finishing(WorkerError))
      else if s.free == 0 then (s, Waiting)
      else (s.(free := s.free - 1), Gated)
    case Gated => (s, if isCancelled then Abandoning else Starting)
    case Abandoning => (s.(jobs := Update(s.jobs, task.id, FinalEntry(isCancelled, Cancellation))), Dropping)
    case Dropping => (s.(free := s.free + 1), Over)
    case Starting => (s.(jobs := WithStatus(s.jobs, task.id, Status.Running)), TaskPc.Running)
    case Running => (s, Stopped(if choice.Go? then choice.outcome else WorkerError))
    case Stopped(outcome) => (s.(free := s.free + 1), Rechecking(outcome))
    case Rechecking(outcome) => (s, Finishing(if isCancelled then Cancellation else outcome))
    case Finishing(outcome) => (s.(jobs := Update(s.jobs, task.id, FinalEntry(isCancelled, outcome))), Over)
    case Over => (s, Over)
  }

  datatype Action = Reserve | Insert(id: nat) | Cancel(id: nat) | TaskActs(t: nat, choice: Choice)

  /** One critical section or task step; an action that is not possible changes nothing. */
  function Perform(limits: Limits, s: State, a: Action): State {
    match a
    case Reserve => s.(reserved := s.reserved + {s.next}, next := s.next + 1)
    case Insert(id) =>
      if id !in s.reserved then s
      else
        var pruned := PruneTerminal(s.jobs, limits.maxRetained);
        var t := s.(reserved := s.reserved - {id});
        if |pruned| >= limits.maxRetained then t.(jobs := pruned)
        else t.(jobs := pruned[id := NEW_ENTRY], tasks := s.tasks + [Task(id, Waiting)])
    case Cancel(id) =>
      if Cancellable(s.jobs, id) then s.(cancelled := s.cancelled + {id}, jobs := WithStatus(s.jobs, id, Cancelling))
        else s
    case TaskActs(t, choice) =>
      if t >= |s.tasks| then s
      else
        var (u, pc) := TaskStep(s, s.tasks[t], choice);
        u.(tasks := s.tasks[t := s.tasks[t].(pc := pc)])
  }

  function PerformAll(limits: Limits, s: State, actions: seq<Action>): State {
    if |actions| == 0 then s
    else Perform(limits, PerformAll(limits, s, actions[..|actions| - 1]), actions[|actions| - 1])
  }

  function Fresh(limits: Limits): State {
    State(map[], {}, [], limits.maxConcurrent, {}, 0)
  }

  /* ---- The invariant ---- */

  function Permits(tasks: seq<Task>): nat {
    if |tasks| == 0 then 0
    else Permits(tasks[..|tasks| - 1]) + (if HoldsPermit(tasks[|tasks| - 1].pc) then 1 else 0)
  }

  /** A cancelled job shows no result, is never Succeeded, and fails only through its worker. */
  predicate CancelledWell(entry: Entry) {
    && entry.result.None? && !entry.status.Succeeded?
    && (entry.status.Failed? ==> entry.error == Some(WorkerFailure))
  }

  ghost predicate TaskOk(s: State, task: Task) {
    && task.id < s.next && task.id !in s.reserved
    && (Live(task.pc) ==> task.id in s.jobs && !s.jobs[task.id].status.IsTerminal())
    && (task.pc.Abandoning? ==> task.id in s.cancelled)
  }

  ghost predicate EntryOk(s: State, id: nat)
    requires id in s.jobs
  {
    && id < s.next && id !in s.reserved
    && (id in s.cancelled ==> CancelledWell(s.jobs[id]))
    && (s.jobs[id].result.Some? ==> s.jobs[id].status.Succeeded?)
    && (!s.jobs[id].status.IsTerminal() ==> HasTask(s.tasks, id))
  }

  ghost predicate HasTask(tasks: seq<Task>, id: nat) {
    exists t :: 0 <= t < |tasks| && tasks[t].id == id && Live(tasks[t].pc)
  }

  ghost predicate Inv(limits: Limits, s: State) {
    && |s.jobs| <= limits.maxRetained
    && s.free + Permits(s.tasks) == limits.maxConcurrent
    && (forall id :: id in s.reserved ==> id < s.next)
    && (forall t :: 0 <= t < |s.tasks| ==> TaskOk(s, s.tasks[t]))
    && (forall t, u :: 0 <= t < u < |s.tasks| ==> s.tasks[t].id != s.tasks[u].id)
    && (forall id :: id in s.jobs ==> EntryOk(s, id))
    && (forall id :: id in s.cancelled ==> id < s.next && id !in s.reserved)
  }

  lemma {:induction false} PermitsUpdate(tasks: seq<Task>, t: nat, x: Task)
    requires t < |tasks|
    ensures Permits(tasks[t := x]) == Permits(tasks) - (if HoldsPermit(tasks[t].pc) then 1 else 0)
        + (if HoldsPermit(x.pc) then 1 else 0)
    decreases |tasks|
  {
    var n := |tasks| - 1;
    if t < n {
      PermitsUpdate(tasks[..n], t, x);
      assert tasks[t := x][..n] == tasks[..n][t := x];
    } else {
      assert tasks[t := x][..n] == tasks[..n];
    }
  }

  /* ---- Task steps ---- */

  /** A task step writes at most its own job's entry, and never once that has ended. */
  lemma TaskStepEffect(s: State, task: Task, choice: Choice)
    requires TaskOk(s, task)
    ensures var (u, pc) := TaskStep(s, task, choice);
            && u.jobs.Keys == s.jobs.Keys && (forall id :: id in s.jobs && id != task.id ==> u.jobs[id] == s.jobs[id])
            && u.cancelled == s.cancelled && u.reserved == s.reserved && u.next == s.next && u.tasks == s.tasks
            && u.free + (if HoldsPermit(pc) then 1 else 0) == s.free + (if HoldsPermit(task.pc) then 1 else 0)
            && (task.id in s.jobs && s.jobs[task.id].status.IsTerminal() ==> u.jobs == s.jobs)
  {
    assert task.id in s.jobs && s.jobs[task.id].status.IsTerminal() ==> !Live(task.pc);
    assert !Live(task.pc) ==> TaskStep(s, task, choice).0.jobs == s.jobs;
  }

  /** While a runner is live its job's entry stays open; its last write closes it, as a cancelled job must be closed. */
  lemma TaskStepWrites(s: State, task: Task, choice: Choice)
    requires TaskOk(s, task) && (Live(task.pc) ==> EntryOk(s, task.id))
    ensures var (u, pc) := TaskStep(s, task, choice);
            && (Live(pc) ==> Live(task.pc) && !u.jobs[task.id].status.IsTerminal())
            && (pc.Abandoning? ==> task.id in s.cancelled)
            && (Live(task.pc) && !Live(pc) ==> u.jobs[task.id].status.IsTerminal())
            && (Live(task.pc) ==>
                  (task.id in s.cancelled ==> CancelledWell(u.jobs[task.id]))
                  && (u.jobs[task.id].result.Some? ==> u.jobs[task.id].status.Succeeded?))
  {
  }

  lemma StillHasTask(tasks: seq<Task>, t: nat, x: Task, id: nat)
    requires t < |tasks| && HasTask(tasks, id) && x.id == tasks[t].id && (id == x.id ==> Live(x.pc))
    ensures HasTask(tasks[t := x], id)
  {
    var u :| 0 <= u < |tasks| && tasks[u].id == id && Live(tasks[u].pc);
    assert tasks[t := x][u].id == id && Live(tasks[t := x][u].pc);
  }

  lemma TaskActsEntryOk(limits: Limits, s: State, t: nat, choice: Choice, id: nat)
    requires Inv(limits, s) && t < |s.tasks| && id in Perform(limits, s, TaskActs(t, choice)).jobs
    ensures EntryOk(Perform(limits, s, TaskActs(t, choice)), id)
  {
    hide TaskStep, CancelledWell;
    var task := s.tasks[t];
    assert TaskOk(s, task);
    TaskStepEffect(s, task, choice);
    TaskStepWrites(s, task, choice);
    var (u, pc) := TaskStep(s, task, choice);
    var x := task.(pc := pc);
    var v := u.(tasks := s.tasks[t := x]);
    assert EntryOk(s, id);
    if !v.jobs[id].status.IsTerminal() {
      if id != task.id {
        StillHasTask(s.tasks, t, x, id);
      } else if Live(pc) {
        assert v.tasks[t].id == id;
      } else {
        OnlyOneTask(s, t, id);
      }
    }
  }

  lemma TaskActsTaskOk(limits: Limits, s: State, t: nat, choice: Choice, w: nat)
    requires Inv(limits, s) && t < |s.tasks| && w < |s.tasks|
    ensures var v := Perform(limits, s, TaskActs(t, choice)); TaskOk(v, v.tasks[w])
  {
    hide TaskStep, EntryOk, Permits;
    assert TaskOk(s, s.tasks[t]) && TaskOk(s, s.tasks[w]);
    TaskStepEffect(s, s.tasks[t], choice);
    LiveEntryOk(limits, s, t);
    TaskStepWrites(s, s.tasks[t], choice);
  }

  lemma LiveEntryOk(limits: Limits, s: State, t: nat)
    requires Inv(limits, s) && t < |s.tasks|
    ensures Live(s.tasks[t].pc) ==> s.tasks[t].id in s.jobs && EntryOk(s, s.tasks[t].id)
  {
    assert TaskOk(s, s.tasks[t]);
  }

  lemma TaskActsKeepsInv(limits: Limits, s: State, t: nat, choice: Choice)
    requires Inv(limits, s) && t < |s.tasks|
    ensures Inv(limits, Perform(limits, s, TaskActs(t, choice)))
  {
    hide TaskStep, TaskOk, EntryOk, HoldsPermit;
    TaskOkHere(limits, s, t);
    TaskStepEffect(s, s.tasks[t], choice);
    var (u, pc) := TaskStep(s, s.tasks[t], choice);
    PermitsUpdate(s.tasks, t, s.tasks[t].(pc := pc));
    SameCount(u.jobs, s.jobs);
    forall id | id in u.jobs
      ensures EntryOk(Perform(limits, s, TaskActs(t, choice)), id)
    {
      TaskActsEntryOk(limits, s, t, choice, id);
    }
    forall w | 0 <= w < |s.tasks|
      ensures var v := Perform(limits, s, TaskActs(t, choice)); TaskOk(v, v.tasks[w])
    {
      TaskActsTaskOk(limits, s, t, choice, w);
    }
  }

  lemma OnlyOneTask(s: State, t: nat, id: nat)
    requires t < |s.tasks| && s.tasks[t].id == id && HasTask(s.tasks, id)
    requires forall t, u :: 0 <= t < u < |s.tasks| ==> s.tasks[t].id != s.tasks[u].id
    ensures Live(s.tasks[t].pc)
  {
  }

  lemma SameCount(a: Table, b: Table)
    requires a.Keys == b.Keys
    ensures |a| == |b|
  {
    assert |a.Keys| == |a| && |b.Keys| == |b|;
  }

  /* ---- The other actions ---- */

  lemma CancelKeepsInv(limits: Limits, s: State, id: nat)
    requires Inv(limits, s) && Cancellable(s.jobs, id)
    ensures Inv(limits, Perform(limits, s, Cancel(id)))
  {
    var v := Perform(limits, s, Cancel(id));
    SameCount(v.jobs, s.jobs);
    forall j | j in v.jobs
      ensures EntryOk(v, j)
    {
      assert EntryOk(s, j);
    }
  }

  lemma InsertKeepsInv(limits: Limits, s: State, id: nat)
    requires Inv(limits, s) && id in s.reserved && limits.Valid()
    ensures Inv(limits, Perform(limits, s, Insert(id)))
  {
    hide PruneTerminal, CancelledWell, TaskOk, EntryOk, Permits;
    var pruned := PruneTerminal(s.jobs, limits.maxRetained);
    PruneTerminalKeeps(s.jobs, limits.maxRetained);
    var v := Perform(limits, s, Insert(id));
    NewId(limits, s, id);
    CountOneMore(pruned, id);
    PermitsAppend(s.tasks, id);
    forall j | j in v.jobs
      ensures EntryOk(v, j)
    {
      InsertedEntryOk(limits, s, id, j);
    }
    forall t | 0 <= t < |v.tasks|
      ensures TaskOk(v, v.tasks[t]) && (t < |s.tasks| ==> v.tasks[t].id != id)
    {
      InsertedTaskOk(limits, s, id, t);
    }
  }

  lemma NewId(limits: Limits, s: State, id: nat)
    requires Inv(limits, s) && id in s.reserved
    ensures id !in s.jobs && id < s.next
  {
    assert id in s.jobs ==> EntryOk(s, id);
  }

  lemma PermitsAppend(tasks: seq<Task>, id: nat)
    ensures Permits(tasks + [Task(id, Waiting)]) == Permits(tasks)
  {
    assert (tasks + [Task(id, Waiting)])[..|tasks|] == tasks;
  }

  lemma InsertedEntryOk(limits: Limits, s: State, id: nat, j: nat)
    requires Inv(limits, s) && id in s.reserved && j in Perform(limits, s, Insert(id)).jobs
    ensures EntryOk(Perform(limits, s, Insert(id)), j)
  {
    PruneTerminalKeeps(s.jobs, limits.maxRetained);
    hide PruneTerminal, CancelledWell;
    var v := Perform(limits, s, Insert(id));
    if j != id {
      assert EntryOk(s, j);
      if HasTask(s.tasks, j) {
        var u :| 0 <= u < |s.tasks| && s.tasks[u].id == j && Live(s.tasks[u].pc);
        assert v.tasks[u].id == j && Live(v.tasks[u].pc);
      }
    } else {
      NewId(limits, s, id);
      assert v.tasks[|s.tasks|].id == id;
    }
  }

  lemma InsertedTaskOk(limits: Limits, s: State, id: nat, t: nat)
    requires Inv(limits, s) && id in s.reserved && t < |Perform(limits, s, Insert(id)).tasks|
    ensures var v := Perform(limits, s, Insert(id)); TaskOk(v, v.tasks[t]) && (t < |s.tasks| ==> v.tasks[t].id != id)
  {
    PruneTerminalKeeps(s.jobs, limits.maxRetained);
    hide PruneTerminal, EntryOk;
    if t < |s.tasks| {
      assert TaskOk(s, s.tasks[t]);
    }
    NewId(limits, s, id);
  }

  lemma CountOneMore(jobs: Table, id: nat)
    requires id !in jobs
    ensures |jobs[id := NEW_ENTRY]| == |jobs| + 1
  {
    assert jobs[id := NEW_ENTRY].Keys == jobs.Keys + {id};
    assert |jobs[id := NEW_ENTRY].Keys| == |jobs[id := NEW_ENTRY]| && |jobs.Keys| == |jobs|;
  }

  lemma PerformKeepsInv(limits: Limits, s: State, a: Action)
    requires Inv(limits, s) && limits.Valid()
    ensures Inv(limits, Perform(limits, s, a))
  {
    match a {
      case Reserve =>
        var v := Perform(limits, s, Reserve);
        forall j | j in v.jobs
          ensures EntryOk(v, j)
        {
          assert EntryOk(s, j);
        }
      case Insert(id) =>
        if id in s.reserved {
          InsertKeepsInv(limits, s, id);
        }
      case Cancel(id) =>
        if Cancellable(s.jobs, id) {
          CancelKeepsInv(limits, s, id);
        }
      case TaskActs(t, choice) =>
        if t < |s.tasks| {
          TaskActsKeepsInv(limits, s, t, choice);
        }
    }
  }

  lemma {:induction false} AlwaysInv(limits: Limits, actions: seq<Action>)
    requires limits.Valid()
    ensures Inv(limits, PerformAll(limits, Fresh(limits), actions))
    decreases |actions|
  {
    hide Inv, Perform;
    if |actions| == 0 {
      FreshInv(limits);
    } else {
      AlwaysInv(limits, actions[..|actions| - 1]);
      PerformKeepsInv(limits, PerformAll(limits, Fresh(limits), actions[..|actions| - 1]), actions[|actions| - 1]);
    }
  }

  lemma FreshInv(limits: Limits)
    ensures Inv(limits, Fresh(limits))
  {
  }

  /* ---- What it means ---- */

  lemma {:induction false} RunKeepsInv(limits: Limits, s: State, actions: seq<Action>)
    requires Inv(limits, s) && limits.Valid()
    ensures Inv(limits, PerformAll(limits, s, actions)) && s.cancelled <= PerformAll(limits, s, actions).cancelled
    decreases |actions|
  {
    if |actions| > 0 {
      hide Inv, TaskStep;
      var u, a := PerformAll(limits, s, actions[..|actions| - 1]), actions[|actions| - 1];
      RunKeepsInv(limits, s, actions[..|actions| - 1]);
      PerformKeepsInv(limits, u, a);
      if a.TaskActs? && a.t < |u.tasks| {
        TaskOkHere(limits, u, a.t);
        TaskStepEffect(u, u.tasks[a.t], a.choice);
      }
    }
  }

  lemma TaskOkHere(limits: Limits, s: State, t: nat)
    requires Inv(limits, s) && t < |s.tasks|
    ensures TaskOk(s, s.tasks[t])
  {
  }

  /** The table never outgrows its limit, and no more simulations run than there are permits. */
  lemma LimitsHold(limits: Limits, actions: seq<Action>)
    requires limits.Valid()
    ensures var s := PerformAll(limits, Fresh(limits), actions);
            |s.jobs| <= limits.maxRetained && Simulating(s.tasks) <= limits.maxConcurrent
  {
    hide PerformAll;
    AlwaysInv(limits, actions);
    SimulatingHoldPermits(PerformAll(limits, Fresh(limits), actions).tasks);
  }

  function Simulating(tasks: seq<Task>): nat {
    if |tasks| == 0 then 0
    else Simulating(tasks[..|tasks| - 1]) + (if tasks[|tasks| - 1].pc.Running? then 1 else 0)
  }

  lemma {:induction false} SimulatingHoldPermits(tasks: seq<Task>)
    ensures Simulating(tasks) <= Permits(tasks)
  {
    if |tasks| > 0 {
      SimulatingHoldPermits(tasks[..|tasks| - 1]);
    }
  }

  /** The job has ended as `entry`, or has ended and been evicted; either way its id is not coming back. */
  ghost predicate EndedAs(s: State, id: nat, entry: Entry) {
    id < s.next && id !in s.reserved && (id in s.jobs ==> s.jobs[id] == entry)
  }

  lemma StepKeepsEnded(limits: Limits, s: State, a: Action, id: nat, entry: Entry)
    requires Inv(limits, s) && EndedAs(s, id, entry) && entry.status.IsTerminal()
    ensures EndedAs(Perform(limits, s, a), id, entry)
  {
    hide TaskStep, PruneTerminal;
    match a {
      case Insert(_) => PruneTerminalKeeps(s.jobs, limits.maxRetained);
      case TaskActs(t, choice) =>
        if t < |s.tasks| {
          TaskStepEffect(s, s.tasks[t], choice);
        }
      case _ =>
    }
  }

  /** A terminal entry never changes again, in any continuation: it can only be evicted, and then stays away. */
  lemma {:induction false} TerminalIsAbsorbing(limits: Limits, s: State, actions: seq<Action>, id: nat)
    requires Inv(limits, s) && limits.Valid() && id in s.jobs && s.jobs[id].status.IsTerminal()
    ensures EndedAs(PerformAll(limits, s, actions), id, s.jobs[id])
    decreases |actions|
  {
    if |actions| == 0 {
      assert EntryOk(s, id);
    } else {
      TerminalIsAbsorbing(limits, s, actions[..|actions| - 1], id);
      RunKeepsInv(limits, s, actions[..|actions| - 1]);
      hide Inv, Perform, EndedAs;
      StepKeepsEnded(limits, PerformAll(limits, s, actions[..|actions| - 1]), actions[|actions| - 1], id, s.jobs[id]);
    }
  }

  /** A job that has not ended is never evicted. */
  lemma ActiveIsNeverEvicted(limits: Limits, s: State, a: Action, id: nat)
    requires Inv(limits, s) && id in s.jobs && !s.jobs[id].status.IsTerminal()
    ensures id in Perform(limits, s, a).jobs
  {
    hide TaskStep, PruneTerminal;
    match a {
      case Insert(_) => PruneTerminalKeeps(s.jobs, limits.maxRetained);
      case TaskActs(t, choice) =>
        if t < |s.tasks| {
          TaskStepEffect(s, s.tasks[t], choice);
        }
      case _ =>
    }
  }

  /**
   * Once a cancellation has hit a job that had not ended, the job never shows a result, whatever happens next,
   * and if it ends it ends as Cancelled, or as Failed by a failure of its worker.
   */
  lemma CancelledStaysCancelled(limits: Limits, s: State, id: nat, actions: seq<Action>)
    requires Inv(limits, s) && limits.Valid() && Cancellable(s.jobs, id)
    ensures var t := PerformAll(limits, Perform(limits, s, Cancel(id)), actions);
            id in t.jobs ==>
              && t.jobs[id].result.None?
              && (t.jobs[id].status.IsTerminal() ==>
                    t.jobs[id].status.Cancelled? || (t.jobs[id].status.Failed?
                                                     && t.jobs[id].error == Some(WorkerFailure)))
  {
    CancelKeepsInv(limits, s, id);
    RunKeepsInv(limits, Perform(limits, s, Cancel(id)), actions);
    hide PerformAll;
    var t := PerformAll(limits, Perform(limits, s, Cancel(id)), actions);
    if id in t.jobs {
      assert EntryOk(t, id);
    }
  }

  /* ---- Every job gets to an end ---- */

  function Rank(pc: TaskPc): nat {
    match pc
    case Waiting => 7
    case Gated => 6
    case Starting => 5
    case Running => 4
    case Stopped(_) => 3
    case Rechecking(_) => 2
    case Abandoning => 2
    case Finishing(_) => 1
    case Dropping => 1
    case Over => 0
  }

  /** A step either waits for a permit that is not there, or brings the runner closer to its end. */
  lemma TaskStepAdvances(s: State, task: Task, choice: Choice)
    ensures var (u, pc) := TaskStep(s, task, choice);
            if task.pc.Over? || (task.pc.Waiting? && choice.Go? && s.free == 0) then u == s && pc == task.pc
            else Rank(pc) < Rank(task.pc)
  {
  }

  lemma {:induction false} SomeoneHoldsAPermit(tasks: seq<Task>)
    requires Permits(tasks) > 0
    ensures exists t :: 0 <= t < |tasks| && HoldsPermit(tasks[t].pc)
  {
    if |tasks| > 0 {
      var n := |tasks| - 1;
      if HoldsPermit(tasks[n].pc) {
      } else {
        SomeoneHoldsAPermit(tasks[..n]);
        var t :| 0 <= t < n && HoldsPermit(tasks[..n][t].pc);
        assert HoldsPermit(tasks[t].pc);
      }
    }
  }

  /** Some runner is able to take a step that brings it closer to its end. */
  ghost predicate SomeoneCanMove(s: State, outcome: Outcome) {
    exists t :: 0 <= t < |s.tasks| && Rank(TaskStep(s, s.tasks[t], Go(outcome)).1) < Rank(s.tasks[t].pc)
  }

  /** No deadlock: while a job in the table has not ended, some task is able to move. */
  lemma NotStuck(limits: Limits, s: State, id: nat, outcome: Outcome)
    requires Inv(limits, s) && limits.Valid() && id in s.jobs && !s.jobs[id].status.IsTerminal()
    ensures SomeoneCanMove(s, outcome)
  {
    assert EntryOk(s, id);
    var t :| 0 <= t < |s.tasks| && s.tasks[t].id == id && Live(s.tasks[t].pc);
    TaskStepAdvances(s, s.tasks[t], Go(outcome));
    if s.tasks[t].pc.Waiting? && s.free == 0 {
      SomeoneHoldsAPermit(s.tasks);
      var u :| 0 <= u < |s.tasks| && HoldsPermit(s.tasks[u].pc);
      TaskStepAdvances(s, s.tasks[u], Go(outcome));
    }
  }

  /** So when no task can move any more, every job in the table has ended. */
  lemma QuietMeansEnded(limits: Limits, s: State, outcome: Outcome)
    requires Inv(limits, s) && limits.Valid() && !SomeoneCanMove(s, outcome)
    ensures forall id :: id in s.jobs ==> s.jobs[id].status.IsTerminal()
  {
    forall id | id in s.jobs && !s.jobs[id].status.IsTerminal()
      ensures false
    {
      NotStuck(limits, s, id, outcome);
    }
  }

  function Ranks(tasks: seq<Task>): nat {
    if |tasks| == 0 then 0 else Ranks(tasks[..|tasks| - 1]) + Rank(tasks[|tasks| - 1].pc)
  }

  /** The action is a task step that does not merely wait. */
  predicate Moves(s: State, a: Action) {
    a.TaskActs? && a.t < |s.tasks| && TaskStep(s, s.tasks[a.t], a.choice).1 != s.tasks[a.t].pc
  }

  /** How many of the actions do. */
  function EffectiveSteps(limits: Limits, s: State, actions: seq<Action>): nat {
    if |actions| == 0 then 0
    else
      var less := actions[..|actions| - 1];
      EffectiveSteps(limits, s, less) + (if Moves(PerformAll(limits, s, less), actions[|actions| - 1]) then 1 else 0)
  }

  lemma {:induction false} RanksUpdate(tasks: seq<Task>, t: nat, x: Task)
    requires t < |tasks|
    ensures Ranks(tasks[t := x]) == Ranks(tasks) - Rank(tasks[t].pc) + Rank(x.pc)
    decreases |tasks|
  {
    var n := |tasks| - 1;
    if t < n {
      RanksUpdate(tasks[..n], t, x);
      assert tasks[t := x][..n] == tasks[..n][t := x];
    } else {
      assert tasks[t := x][..n] == tasks[..n];
    }
  }

  /** Every effective step costs rank; only a submission brings new rank. */
  lemma PerformCosts(limits: Limits, s: State, a: Action)
    ensures var u := Perform(limits, s, a);
            && |u.tasks| >= |s.tasks|
            && (if Moves(s, a) then 1 else 0) + Ranks(u.tasks) <= Ranks(s.tasks) + 7 * (|u.tasks| - |s.tasks|)
  {
    hide PruneTerminal;
    match a {
      case TaskActs(t, choice) =>
        if t < |s.tasks| {
          TaskStepAdvances(s, s.tasks[t], choice);
          RanksUpdate(s.tasks, t, s.tasks[t].(pc := TaskStep(s, s.tasks[t], choice).1));
          hide TaskStep, Ranks, Rank;
        }
      case Insert(id) =>
        hide TaskStep;
        assert (s.tasks + [Task(id, Waiting)])[..|s.tasks|] == s.tasks;
      case _ =>
    }
  }

  /** All tasks together take at most what is left of the present ones, and seven steps for each accepted submission. */
  lemma {:induction false} TaskStepsAreBounded(limits: Limits, s: State, actions: seq<Action>)
    ensures var u := PerformAll(limits, s, actions);
            && |u.tasks| >= |s.tasks|
            && EffectiveSteps(limits, s, actions) + Ranks(u.tasks) <= Ranks(s.tasks) + 7 * (|u.tasks| - |s.tasks|)
    decreases |actions|
  {
    hide Ranks, Perform, Moves;
    if |actions| > 0 {
      var less := actions[..|actions| - 1];
      TaskStepsAreBounded(limits, s, less);
      PerformCosts(limits, PerformAll(limits, s, less), actions[|actions| - 1]);
    }
  }
}
