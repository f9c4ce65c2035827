/**
 * How jobs of the service end, in every interleaving: what each entry finally says, from a history of what the
 * job's simulation returned and of when the job was cancelled.
 */
module ServiceOutcomes {
  import opened Wrappers
  import opened Service
  import opened ServiceRuns

  /**
   * What has been observed of each job: what its simulation returned, that its gate was found closed, and whether
   * it was cancelled when that was asked after the simulation.
   */
  datatype History = History(ran: map<nat, Outcome>, shut: set<nat>, rechecked: map<nat, bool>)

  /** The history after one more action from `s`. */
  function Noted(h: History, s: State, a: Action): History {
    if !a.TaskActs? || a.t >= |s.tasks| then h
    else
      var Task(id, pc) := s.tasks[a.t];
      if pc.Waiting? && a.choice.GateClosed? then h.(shut := h.shut + {id})
      else if pc.Running? then h.(ran := h.ran[id := if a.choice.Go? then a.choice.outcome else WorkerError])
      else if pc.Rechecking? then h.(rechecked := h.rechecked[id := id in s.cancelled])
      else h
  }

  function HistoryOf(limits: Limits, s: State, actions: seq<Action>): History {
    if |actions| == 0 then History(map[], {}, map[])
    else
      var less := actions[..|actions| - 1];
      Noted(HistoryOf(limits, s, less), PerformAll(limits, s, less), actions[|actions| - 1])
  }

  /* ---- The ways to end ---- */

  predicate HasRun(h: History, id: nat) {
    id !in h.shut && id in h.ran
  }

  /** Its simulation returned `result`, and it was not cancelled before that was written. */
  predicate EndsWith(h: History, cancelled: set<nat>, id: nat, result: nat) {
    HasRun(h, id) && h.ran[id] == Simulated(result) && id !in cancelled
  }

  predicate EndsBySimulation(h: History, cancelled: set<nat>, id: nat) {
    HasRun(h, id) && h.ran[id] == SimulationError && id !in cancelled
  }

  /** The gate was closed, or the worker broke down and the job was not cancelled by then. */
  predicate EndsByWorker(h: History, id: nat) {
    id in h.shut || (id in h.ran && h.ran[id] == WorkerError && id in h.rechecked && !h.rechecked[id])
  }

  /** It was cancelled before it ran, or in time, or its simulation reported a cancellation itself. */
  predicate EndsByCancel(h: History, cancelled: set<nat>, id: nat) {
    && id !in h.shut
    && if id !in h.ran then id in cancelled
       else match h.ran[id]
            case Cancellation => true
            case WorkerError => id in h.rechecked && h.rechecked[id]
            case _ => id in cancelled
  }

  /** What an ended entry says. */
  ghost predicate Judged(h: History, cancelled: set<nat>, id: nat, e: Entry) {
    && (e.status.Succeeded? ==> e.error.None? && e.result.Some? && EndsWith(h, cancelled, id, e.result.value))
    && (e.status.Cancelled? ==> e == CANCELLED_ENTRY && EndsByCancel(h, cancelled, id))
    && (e.status.Failed? ==>
          && e.result.None?
          && (e.error == Some(SimulationFailure) || e.error == Some(WorkerFailure))
          && (e.error == Some(SimulationFailure) ==> EndsBySimulation(h, cancelled, id))
          && (e.error == Some(WorkerFailure) ==> EndsByWorker(h, id)))
  }

  /* ---- The invariant ---- */

  predicate Unnoted(h: History, id: nat) {
    id !in h.ran && id !in h.shut && id !in h.rechecked
  }

  /** Where a task stands, its history says. */
  predicate TaskNoted(h: History, cancelled: set<nat>, task: Task) {
    var id := task.id;
    match task.pc
    case Stopped(outcome) => HasRun(h, id) && h.ran[id] == outcome && id !in h.rechecked
    case Rechecking(outcome) => HasRun(h, id) && h.ran[id] == outcome && id !in h.rechecked
    case Finishing(outcome) =>
      if id in h.shut then outcome == WorkerError
      else
        && HasRun(h, id) && id in h.rechecked && (h.rechecked[id] ==> id in cancelled)
        && outcome == if h.rechecked[id] then Cancellation else h.ran[id]
    case Over => true
    case _ => Unnoted(h, id)
  }

  /** The job's simulation has been started: its runner has passed that point and its gate was not closed. */
  predicate HasStarted(h: History, task: Task) {
    match task.pc
    case Running => true
    case Stopped(_) => true
    case Rechecking(_) => true
    case Finishing(_) => task.id !in h.shut
    case _ => false
  }

  /** While a job has not ended, its entry tells how far it is; a start hides a cancellation that came before it. */
  predicate StageShown(h: History, cancelled: set<nat>, task: Task, e: Entry) {
    && e.result.None? && e.error.None?
    && if HasStarted(h, task) then e.status == Status.Running || (e.status == Cancelling && task.id in cancelled)
       else e.status == if task.id in cancelled then Cancelling else Queued
  }

  predicate TaskShown(h: History, s: State, task: Task) {
    Live(task.pc) && task.id in s.jobs ==> StageShown(h, s.cancelled, task, s.jobs[task.id])
  }

  ghost predicate HistoryInv(s: State, h: History) {
    && (forall id: nat :: !Unnoted(h, id) ==> id < s.next && id !in s.reserved)
    && (forall t :: 0 <= t < |s.tasks| ==> TaskNoted(h, s.cancelled, s.tasks[t]) && TaskShown(h, s, s.tasks[t]))
    && (forall id :: id in s.jobs ==> Judged(h, s.cancelled, id, s.jobs[id]))
  }

  /** Only a task's own steps are noted for its job. */
  lemma OnlyItsOwn(h: History, s: State, t: nat, choice: Choice, id: nat)
    requires t < |s.tasks| && id != s.tasks[t].id
    ensures var k := Noted(h, s, TaskActs(t, choice));
            && (id in k.ran <==> id in h.ran) && (id in h.ran ==> k.ran[id] == h.ran[id])
            && (id in k.shut <==> id in h.shut)
            && (id in k.rechecked <==> id in h.rechecked) && (id in h.rechecked ==> k.rechecked[id] == h.rechecked[id])
  {
  }

  lemma StepNoted(h: History, s: State, t: nat, choice: Choice)
    requires t < |s.tasks| && TaskOk(s, s.tasks[t]) && TaskNoted(h, s.cancelled, s.tasks[t])
    ensures var (task, k) := (s.tasks[t], Noted(h, s, TaskActs(t, choice)));
            TaskNoted(k, s.cancelled, task.(pc := TaskStep(s, task, choice).1))
  {
  }

  lemma StepShown(h: History, s: State, t: nat, choice: Choice)
    requires t < |s.tasks| && TaskOk(s, s.tasks[t]) && TaskNoted(h, s.cancelled, s.tasks[t])
    requires TaskShown(h, s, s.tasks[t])
    ensures var (task, k) := (s.tasks[t], Noted(h, s, TaskActs(t, choice)));
            var (u, pc) := TaskStep(s, task, choice);
            TaskShown(k, u, task.(pc := pc))
  {
  }

  lemma StepJudged(h: History, s: State, t: nat, choice: Choice)
    requires t < |s.tasks| && TaskOk(s, s.tasks[t]) && TaskNoted(h, s.cancelled, s.tasks[t])
    requires s.tasks[t].id in s.jobs ==> Judged(h, s.cancelled, s.tasks[t].id, s.jobs[s.tasks[t].id])
    ensures var (task, k) := (s.tasks[t], Noted(h, s, TaskActs(t, choice)));
            var jobs := TaskStep(s, task, choice).0.jobs;
            task.id in jobs ==> Judged(k, s.cancelled, task.id, jobs[task.id])
  {
  }

  lemma TaskActsKeepsHistory(limits: Limits, s: State, h: History, t: nat, choice: Choice)
    requires Inv(limits, s) && HistoryInv(s, h) && t < |s.tasks|
    ensures HistoryInv(Perform(limits, s, TaskActs(t, choice)), Noted(h, s, TaskActs(t, choice)))
  {
    hide TaskStep, TaskNoted, Judged, Noted, EntryOk, Permits, StageShown;
    var task := s.tasks[t];
    TaskOkHere(limits, s, t);
    TaskStepEffect(s, task, choice);
    StepNoted(h, s, t, choice);
    StepShown(h, s, t, choice);
    StepJudged(h, s, t, choice);
    var u, k := Perform(limits, s, TaskActs(t, choice)), Noted(h, s, TaskActs(t, choice));
    forall id: nat | !Unnoted(k, id)
      ensures id < u.next && id !in u.reserved
    {
      if id == task.id {
        assert TaskOk(s, task);
      } else {
        OnlyItsOwn(h, s, t, choice, id);
        assert !Unnoted(h, id);
      }
    }
    forall w | 0 <= w < |u.tasks|
      ensures TaskNoted(k, u.cancelled, u.tasks[w]) && TaskShown(k, u, u.tasks[w])
    {
      if w != t {
        assert s.tasks[w].id != task.id;
        OtherTaskNoted(h, s, t, choice, w);
      }
    }
    forall id | id in u.jobs
      ensures Judged(k, u.cancelled, id, u.jobs[id])
    {
      if id != task.id {
        OtherJudged(h, s, t, choice, id);
      }
    }
  }

  lemma OtherTaskNoted(h: History, s: State, t: nat, choice: Choice, w: nat)
    requires t < |s.tasks| && w < |s.tasks| && s.tasks[w].id != s.tasks[t].id
    requires TaskNoted(h, s.cancelled, s.tasks[w]) && TaskShown(h, s, s.tasks[w])
    ensures TaskNoted(Noted(h, s, TaskActs(t, choice)), s.cancelled, s.tasks[w])
    ensures TaskShown(Noted(h, s, TaskActs(t, choice)), s, s.tasks[w])
  {
    OnlyItsOwn(h, s, t, choice, s.tasks[w].id);
    hide Noted;
  }

  lemma OtherJudged(h: History, s: State, t: nat, choice: Choice, id: nat)
    requires t < |s.tasks| && id != s.tasks[t].id && id in s.jobs && Judged(h, s.cancelled, id, s.jobs[id])
    ensures Judged(Noted(h, s, TaskActs(t, choice)), s.cancelled, id, s.jobs[id])
  {
    OnlyItsOwn(h, s, t, choice, id);
    hide Noted;
  }

  /** A cancellation reaches only jobs that have not ended, and those that have keep their verdict. */
  lemma CancelKeepsHistory(limits: Limits, s: State, h: History, id: nat)
    requires Inv(limits, s) && HistoryInv(s, h)
    ensures HistoryInv(Perform(limits, s, Cancel(id)), h)
  {
    hide TaskOk, EntryOk, Permits;
    var u := Perform(limits, s, Cancel(id));
    forall j | j in u.jobs
      ensures Judged(h, u.cancelled, j, u.jobs[j])
    {
      assert Judged(h, s.cancelled, j, s.jobs[j]);
    }
    forall t | 0 <= t < |u.tasks|
      ensures TaskNoted(h, u.cancelled, u.tasks[t]) && TaskShown(h, u, u.tasks[t])
    {
      assert TaskNoted(h, s.cancelled, s.tasks[t]) && TaskShown(h, s, s.tasks[t]);
    }
  }

  lemma InsertKeepsHistory(limits: Limits, s: State, h: History, id: nat)
    requires Inv(limits, s) && HistoryInv(s, h)
    ensures HistoryInv(Perform(limits, s, Insert(id)), h)
  {
    hide EntryOk, Permits, PruneTerminal;
    PruneTerminalKeeps(s.jobs, limits.maxRetained);
    var u := Perform(limits, s, Insert(id));
    forall t | 0 <= t < |u.tasks|
      ensures TaskNoted(h, u.cancelled, u.tasks[t]) && TaskShown(h, u, u.tasks[t])
    {
      if t < |s.tasks| {
        assert TaskOk(s, s.tasks[t]);
        assert TaskNoted(h, s.cancelled, s.tasks[t]) && TaskShown(h, s, s.tasks[t]);
      } else {
        assert Unnoted(h, id);
      }
    }
  }

  lemma PerformKeepsHistory(limits: Limits, s: State, h: History, a: Action)
    requires Inv(limits, s) && HistoryInv(s, h)
    ensures HistoryInv(Perform(limits, s, a), Noted(h, s, a))
  {
    hide Inv, TaskNoted, Judged, TaskStep;
    match a {
      case Reserve =>
      case Insert(id) => InsertKeepsHistory(limits, s, h, id);
      case Cancel(id) => CancelKeepsHistory(limits, s, h, id);
      case TaskActs(t, choice) =>
        if t < |s.tasks| {
          TaskActsKeepsHistory(limits, s, h, t, choice);
        }
    }
  }

  lemma {:induction false} AlwaysHistory(limits: Limits, actions: seq<Action>)
    requires limits.Valid()
    ensures HistoryInv(PerformAll(limits, Fresh(limits), actions), HistoryOf(limits, Fresh(limits), actions))
    decreases |actions|
  {
    if |actions| > 0 {
      hide HistoryInv, Perform, Noted, Inv;
      var less := actions[..|actions| - 1];
      AlwaysInv(limits, less);
      AlwaysHistory(limits, less);
      PerformKeepsHistory(limits, PerformAll(limits, Fresh(limits), less), HistoryOf(limits, Fresh(limits), less),
                          actions[|actions| - 1]);
    }
  }

  /* ---- What it means ---- */

  /** Until it ends, a job is shown as queued, running or being cancelled exactly as its runner and history say. */
  lemma StagesAreExact(limits: Limits, actions: seq<Action>, t: nat)
    requires limits.Valid() && t < |PerformAll(limits, Fresh(limits), actions).tasks|
    ensures var s := PerformAll(limits, Fresh(limits), actions);
            var task := s.tasks[t];
            Live(task.pc) ==>
              && task.id in s.jobs
              && StageShown(HistoryOf(limits, Fresh(limits), actions), s.cancelled, task, s.jobs[task.id])
  {
    hide PerformAll, HistoryOf, Judged, TaskNoted, StageShown;
    AlwaysHistory(limits, actions);
    AlwaysInv(limits, actions);
    TaskOkHere(limits, PerformAll(limits, Fresh(limits), actions), t);
  }

  /** Each ended entry is what its history demands, and nothing else. */
  ghost predicate Verdict(h: History, cancelled: set<nat>, id: nat, e: Entry) {
    && (forall r :: e == Entry(Succeeded, Some(r), None) <==> EndsWith(h, cancelled, id, r))
    && (e == Entry(Failed, None, Some(SimulationFailure)) <==> EndsBySimulation(h, cancelled, id))
    && (e == Entry(Failed, None, Some(WorkerFailure)) <==> EndsByWorker(h, id))
    && (e == Entry(Cancelled, None, None) <==> EndsByCancel(h, cancelled, id))
  }

  lemma JudgedExactly(h: History, cancelled: set<nat>, id: nat, e: Entry)
    requires Judged(h, cancelled, id, e) && e.status.IsTerminal()
    ensures Verdict(h, cancelled, id, e)
  {
  }

  /**
   * In every interleaving, a job that has ended shows its simulation's result exactly if it was not cancelled in
   * time, and every other end exactly for its own reason.
   */
  lemma EndsAreExact(limits: Limits, actions: seq<Action>, id: nat)
    requires limits.Valid()
    ensures var s := PerformAll(limits, Fresh(limits), actions);
            id in s.jobs && s.jobs[id].status.IsTerminal() ==>
              Verdict(HistoryOf(limits, Fresh(limits), actions), s.cancelled, id, s.jobs[id])
  {
    hide PerformAll, HistoryOf, Judged, TaskNoted, Verdict;
    AlwaysHistory(limits, actions);
    var s := PerformAll(limits, Fresh(limits), actions);
    if id in s.jobs && s.jobs[id].status.IsTerminal() {
      JudgedExactly(HistoryOf(limits, Fresh(limits), actions), s.cancelled, id, s.jobs[id]);
    }
  }
}
