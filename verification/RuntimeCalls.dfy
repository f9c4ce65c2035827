/**
 * The runtime object, left alone: each method, run without interference, makes exactly the steps of the
 * interleaved model. `steps` lists them: for each step, whether it failed and what the executor returned.
 */
module RuntimeCalls {
  import opened Wrappers
  import opened Ordering
  import M = Runtime
  import RuntimeSafety
  import RuntimeTurns

  datatype RuntimeError = QueueFull | NotFound | IoFailed | RecoveryConflict

  /** A worker stepping alone. */
  ghost function Solo(env: M.Env, h: M.Shared, pc: M.WorkerPc, steps: seq<M.Choice>): (M.Shared, M.WorkerPc) {
    if |steps| == 0 then (h, pc)
    else
      var (g, at) := Solo(env, h, pc, steps[..|steps| - 1]);
      M.WorkerStep(env, g, at, steps[|steps| - 1])
  }

  /** A client stepping alone. */
  ghost function SoloClient(env: M.Env, h: M.Shared, pc: M.ClientPc, steps: seq<bool>): (M.Shared, M.ClientPc) {
    if |steps| == 0 then (h, pc)
    else
      var (g, at) := SoloClient(env, h, pc, steps[..|steps| - 1]);
      M.ClientStep(env, g, at, steps[|steps| - 1])
  }

  /** Recovery stepping to its end. */
  ghost function SoloRecovery(h: M.Shared, phase: M.Phase, steps: seq<bool>): (M.Shared, M.Phase) {
    if |steps| == 0 then (h, phase)
    else
      var (g, at) := SoloRecovery(h, phase, steps[..|steps| - 1]);
      if at.Recovering? then M.RecoveryStep(g, at.pc, steps[|steps| - 1]) else (g, at)
  }

  lemma SoloStep(env: M.Env, h: M.Shared, pc: M.WorkerPc, steps: seq<M.Choice>, choice: M.Choice)
    ensures var (g, at) := Solo(env, h, pc, steps);
            Solo(env, h, pc, steps + [choice]) == M.WorkerStep(env, g, at, choice)
  {
    assert (steps + [choice])[..|steps|] == steps;
  }

  lemma SoloClientStep(env: M.Env, h: M.Shared, pc: M.ClientPc, steps: seq<bool>, fails: bool)
    ensures var (g, at) := SoloClient(env, h, pc, steps);
            SoloClient(env, h, pc, steps + [fails]) == M.ClientStep(env, g, at, fails)
  {
    assert (steps + [fails])[..|steps|] == steps;
  }

  lemma SoloRecoveryStep(h: M.Shared, phase: M.Phase, steps: seq<bool>, fails: bool)
    ensures var (g, at) := SoloRecovery(h, phase, steps);
            at.Recovering? ==> SoloRecovery(h, phase, steps + [fails]) == M.RecoveryStep(g, at.pc, fails)
  {
    assert (steps + [fails])[..|steps|] == steps;
  }

  lemma {:induction false} SoloThen(env: M.Env, h: M.Shared, pc: M.WorkerPc, first: seq<M.Choice>,
                                    second: seq<M.Choice>)
    ensures var (g, at) := Solo(env, h, pc, first); Solo(env, h, pc, first + second) == Solo(env, g, at, second)
    decreases |second|
  {
    hide M.WorkerStep;
    if |second| == 0 {
      assert first + second == first;
    } else {
      var less := second[..|second| - 1];
      SoloThen(env, h, pc, first, less);
      assert (first + second)[..|first + second| - 1] == first + less;
    }
  }

  /** However a worker's calls end, all jobs keep their one place and honest contents. */
  lemma {:induction false} SoloKeepsSafe(env: M.Env, h: M.Shared, pc: M.WorkerPc, steps: seq<M.Choice>)
    requires env.Valid() && RuntimeSafety.SharedOk(env, h) && RuntimeSafety.WorkerOk(env, h, pc)
    ensures var (g, at) := Solo(env, h, pc, steps); RuntimeSafety.SharedOk(env, g) && RuntimeSafety.WorkerOk(env, g, at)
    decreases |steps|
  {
    hide RuntimeSafety.SharedOk, RuntimeSafety.WorkerOk, M.WorkerStep;
    if |steps| > 0 {
      var less := steps[..|steps| - 1];
      SoloKeepsSafe(env, h, pc, less);
      var (g, at) := Solo(env, h, pc, less);
      RuntimeSafety.AnyWorkerStepOk(env, g, at, steps[|steps| - 1]);
    }
  }

  /** So do a client's. */
  lemma {:induction false} SoloClientKeepsSafe(env: M.Env, h: M.Shared, pc: M.ClientPc, steps: seq<bool>)
    requires env.Valid() && RuntimeSafety.SharedOk(env, h) && RuntimeSafety.ClientOk(env, h, pc)
    ensures var (g, at) := SoloClient(env, h, pc, steps);
            RuntimeSafety.SharedOk(env, g) && RuntimeSafety.ClientOk(env, g, at)
    decreases |steps|
  {
    hide RuntimeSafety.SharedOk, RuntimeSafety.ClientOk, M.ClientStep;
    if |steps| > 0 {
      var less := steps[..|steps| - 1];
      SoloClientKeepsSafe(env, h, pc, less);
      var (g, at) := SoloClient(env, h, pc, less);
      RuntimeSafety.AnyClientStepOk(env, g, at, steps[|steps| - 1]);
    }
  }

  /** And recovery's. */
  lemma {:induction false} SoloRecoveryKeepsSafe(env: M.Env, h: M.Shared, phase: M.Phase, steps: seq<bool>)
    requires env.Valid() && RuntimeSafety.SharedOk(env, h) && RuntimeSafety.RecoveryOk(env, h, phase)
    ensures var (g, at) := SoloRecovery(h, phase, steps);
            RuntimeSafety.SharedOk(env, g) && RuntimeSafety.RecoveryOk(env, g, at)
    decreases |steps|
  {
    hide RuntimeSafety.SharedOk, RuntimeSafety.RecoveryOk, M.RecoveryStep;
    if |steps| > 0 {
      var less := steps[..|steps| - 1];
      SoloRecoveryKeepsSafe(env, h, phase, less);
      var (g, at) := SoloRecovery(h, phase, less);
      if at.Recovering? {
        RuntimeSafety.AnyRecoveryStepOk(env, g, at.pc, steps[|steps| - 1]);
      }
    }
  }

  /* ---- Steps taken alone are steps of the interleaved model ---- */

  /** Worker `w` making exactly these steps, with nobody in between. */
  function WorkerActions(w: nat, steps: seq<M.Choice>): (r: seq<M.Action>)
    ensures |r| == |steps|
  {
    seq(|steps|, i requires 0 <= i < |steps| => M.WorkerActs(w, steps[i]))
  }

  function ClientActions(c: nat, steps: seq<bool>): (r: seq<M.Action>)
    ensures |r| == |steps|
  {
    seq(|steps|, i requires 0 <= i < |steps| => M.ClientActs(c, steps[i]))
  }

  function RecoveryActions(steps: seq<bool>): (r: seq<M.Action>)
    ensures |r| == |steps|
  {
    seq(|steps|, i requires 0 <= i < |steps| => M.RecoveryActs(steps[i]))
  }

  /** In any world, a worker that steps alone moves itself and the shared state as `Solo` says, and nothing else. */
  lemma {:induction false} SoloIsPerformed(env: M.Env, s: M.World, w: nat, steps: seq<M.Choice>)
    requires w < |s.workers|
    ensures var (g, at) := Solo(env, s.shared, s.workers[w].pc, steps);
            var t := M.PerformAll(env, s, WorkerActions(w, steps));
            && t.shared == g && |t.workers| == |s.workers| && t.workers[w].pc == at && t.clients == s.clients
                && t.phase == s.phase
            && forall v :: 0 <= v < |s.workers| && v != w ==> t.workers[v] == s.workers[v]
    decreases |steps|
  {
    hide M.WorkerStep, M.ClientStep, M.RecoveryStep;
    if |steps| > 0 {
      var less := steps[..|steps| - 1];
      SoloIsPerformed(env, s, w, less);
      assert WorkerActions(w, steps)[..|steps| - 1] == WorkerActions(w, less);
    }
  }

  /** So does a client. */
  lemma {:induction false} SoloClientIsPerformed(env: M.Env, s: M.World, c: nat, steps: seq<bool>)
    requires c < |s.clients|
    ensures var (g, at) := SoloClient(env, s.shared, s.clients[c], steps);
            M.PerformAll(env, s, ClientActions(c, steps)) == s.(shared := g, clients := s.clients[c := at])
    decreases |steps|
  {
    hide M.WorkerStep, M.ClientStep, M.RecoveryStep;
    if |steps| > 0 {
      var less := steps[..|steps| - 1];
      SoloClientIsPerformed(env, s, c, less);
      assert ClientActions(c, steps)[..|steps| - 1] == ClientActions(c, less);
    }
  }

  /** So does recovery; the pruning that opening ends with is a client of its own. */
  lemma {:induction false} SoloRecoveryIsPerformed(env: M.Env, s: M.World, steps: seq<bool>)
    requires !s.phase.Up?
    ensures var (g, phase) := SoloRecovery(s.shared, s.phase, steps);
            var pruner := if phase.Up? then [M.ListingTerminal] else [];
            M.PerformAll(env, s, RecoveryActions(steps)) == M.World(g, s.workers, s.clients + pruner, phase)
    decreases |steps|
  {
    hide M.WorkerStep, M.ClientStep, M.RecoveryStep;
    if |steps| > 0 {
      var less := steps[..|steps| - 1];
      SoloRecoveryIsPerformed(env, s, less);
      assert RecoveryActions(steps)[..|steps| - 1] == RecoveryActions(less);
    }
  }

  lemma TurnIsSafe(env: M.Env, h: M.Shared, steps: seq<M.Choice>)
    requires env.Valid() && RuntimeSafety.SharedOk(env, h)
    ensures RuntimeSafety.SharedOk(env, Solo(env, h, M.Listing, steps).0)
  {
    hide RuntimeSafety.SharedOk, Solo;
    SoloKeepsSafe(env, h, M.Listing, steps);
  }

  /** A call of a client that begins with nothing but an id, or with nothing. */
  lemma CallIsSafe(env: M.Env, h: M.Shared, pc: M.ClientPc, steps: seq<bool>)
    requires env.Valid() && RuntimeSafety.SharedOk(env, h)
    requires pc.LookingQueued? || pc.ListingTerminal?
    ensures RuntimeSafety.SharedOk(env, SoloClient(env, h, pc, steps).0)
  {
    hide RuntimeSafety.SharedOk, SoloClient;
    SoloClientKeepsSafe(env, h, pc, steps);
  }

  lemma SubmissionIsSafe(env: M.Env, h: M.Shared, id: nat, request: nat, steps: seq<bool>)
    requires env.Valid() && RuntimeSafety.SharedOk(env, h) && id !in h.requests
    ensures var was := h.(requests := h.requests[id := request]);
            RuntimeSafety.SharedOk(env, SoloClient(env, was, M.Counting(id, request), steps).0)
  {
    hide RuntimeSafety.SharedOk, RuntimeSafety.ClientOk, SoloClient;
    RuntimeSafety.RequestOk(env, h, id, request);
    SoloClientKeepsSafe(env, h.(requests := h.requests[id := request]), M.Counting(id, request), steps);
  }

  lemma RecoveryIsSafe(env: M.Env, h: M.Shared, steps: seq<bool>)
    requires env.Valid() && RuntimeSafety.SharedOk(env, h)
    ensures RuntimeSafety.SharedOk(env, SoloRecovery(h, M.Recovering(M.RecoverList), steps).0)
  {
    hide RuntimeSafety.SharedOk, SoloRecovery;
    SoloRecoveryKeepsSafe(env, h, M.Recovering(M.RecoverList), steps);
  }

  lemma OwnNames(env: M.Env, h: M.Shared)
    requires RuntimeSafety.SharedOk(env, h)
    ensures forall id :: id in h.files.running ==> h.files.running[id].id == id
    ensures forall id :: id in h.files.queue ==> h.files.queue[id].id == id
  {
  }

  lemma SoloNothing(env: M.Env, h: M.Shared, pc: M.WorkerPc)
    ensures Solo(env, h, pc, []) == (h, pc)
  {
  }

  /** The steps of `claim_next` before the file is read. */
  lemma ScanSteps(env: M.Env, h: M.Shared, pc: M.WorkerPc)
    requires pc.Listing? || pc.Scanning?
    ensures M.WorkerStep(env, h, pc, M.Fail) == (h, M.Exited(false))
    ensures pc.Listing? ==> M.WorkerStep(env, h, pc, GO) == (h, M.Scanning(Ascending(h.files.queue.Keys)))
    ensures pc.Scanning? && |pc.rest| == 0 ==> M.WorkerStep(env, h, pc, GO) == (h, M.Exited(true))
    ensures pc.Scanning? && |pc.rest| > 0 ==>
              M.WorkerStep(env, h, pc, GO) ==
                if pc.rest[0] in h.files.queue
                then (h.(files := h.files.QueueToRunning(pc.rest[0])), M.Renamed(pc.rest[0], h.files.queue[pc.rest[0]]))
                else (h, M.Scanning(pc.rest[1..]))
  {
  }

  /** The steps of `finish_job`. */
  lemma FinishSteps(env: M.Env, h: M.Shared, job: M.Job, unmark: bool)
    ensures M.WorkerStep(env, h, M.Finishing(job, unmark), M.Fail) == (h, M.Exited(false))
    ensures M.WorkerStep(env, h, M.Finishing(job, unmark), GO)
         == (h.(files := h.files.WriteRunning(job)), M.Retiring(job.id, unmark))
    ensures M.WorkerStep(env, h, M.Retiring(job.id, unmark), M.Fail) == (h, M.Exited(false))
    ensures job.id in h.files.running ==>
              var retired := h.(files := h.files.RunningToTerminal(job.id));
              M.WorkerStep(env, h, M.Retiring(job.id, unmark), GO)
                  == (retired, if unmark then M.Unmarking(job.id) else M.Listing)
  {
  }

  /** The steps that end an execution. */
  lemma DeregisterSteps(env: M.Env, h: M.Shared, job: M.Job, token: nat, outcome: M.Outcome)
    ensures M.WorkerStep(env, h, M.Deregistering(job, token, outcome), M.Fail) == (h, M.Exited(false))
    ensures M.WorkerStep(env, h, M.Deregistering(job, token, outcome), GO)
         == (h.(active := h.active - {job.id}), M.Rechecking(job, token, outcome))
    ensures M.WorkerStep(env, h, M.Rechecking(job, token, outcome), GO)
        == (M.Check(h, job.id, token), M.Deciding(job, token, outcome))
    ensures M.WorkerStep(env, h, M.Deciding(job, token, outcome), GO)
        == (h, M.AfterOutcome(env, job, token in h.cancelled, outcome))
  {
  }

  /** The steps of `requeue_job`. */
  lemma RequeueSteps(env: M.Env, h: M.Shared, job: M.Job)
    ensures M.WorkerStep(env, h, M.Requeueing(job), M.Fail) == (h, M.Exited(false))
    ensures M.WorkerStep(env, h, M.Requeueing(job), GO)
        == (h.(files := h.files.WriteRunning(job)), M.Returning(job.id, job))
    ensures M.WorkerStep(env, h, M.Returning(job.id, job), M.Fail) == (h, M.Exited(false))
    ensures job.id in h.files.running ==>
              var returned := h.(files := h.files.RunningToQueue(job.id));
              M.WorkerStep(env, h, M.Returning(job.id, job), GO) == (returned, M.Listing)
  {
  }

  /** What a submission is about to store: an answer from the cache, or a queued job. */
  function NewJob(env: M.Env, h: M.Shared, id: nat, request: nat): M.Job {
    var key := env.key(request);
    if key in h.files.cache then M.Job(id, request, key, M.Succeeded, 0, true, Some(h.files.cache[key]), None)
    else M.Job(id, request, key, M.Queued, 0, false, None, None)
  }

  /** The steps of `submit` before anything is stored. */
  lemma SubmitSteps(env: M.Env, h: M.Shared, id: nat, request: nat)
    ensures M.ClientStep(env, h, M.Counting(id, request), true) == (h, M.Finished)
    ensures M.ClientStep(env, h, M.Counting(id, request), false)
         == (h, if |h.files.queue| >= env.maxQueued then M.Finished else M.LookingUp(id, request))
    ensures M.ClientStep(env, h, M.LookingUp(id, request), true) == (h, M.Finished)
    ensures M.ClientStep(env, h, M.LookingUp(id, request), false)
         == (h, var job := NewJob(env, h, id, request); if job.status.Succeeded? then M.Shelving(job)
             else M.Enqueueing(job))
  {
  }

  /** The new job's file in the queue, or in the terminal directory if it has already succeeded. */
  function Stored(h: M.Shared, job: M.Job): M.Shared {
    if job.status.Succeeded? then
      h.(files := h.files.(terminal := h.files.terminal[job.id := job]), issued := h.issued + {job.id})
    else h.(files := h.files.(queue := h.files.queue[job.id := job]), issued := h.issued + {job.id})
  }

  /** And the one that stores it. */
  lemma StoreSteps(env: M.Env, h: M.Shared, job: M.Job)
    ensures !job.status.Succeeded? ==> M.ClientStep(env, h, M.Enqueueing(job), false) == (Stored(h, job), M.Finished)
    ensures job.status.Succeeded? ==>
              M.ClientStep(env, h, M.Shelving(job), false) == (Stored(h, job), M.ListingTerminal)
    ensures M.ClientStep(env, h, M.Enqueueing(job), true) == (h, M.Finished)
    ensures M.ClientStep(env, h, M.Shelving(job), true) == (h, M.Finished)
  {
  }

  /** The first steps of `cancel`. */
  lemma CancelSteps(env: M.Env, h: M.Shared, id: nat)
    ensures M.ClientStep(env, h, M.LookingQueued(id), false)
        == (h, if id in h.files.queue then M.MovingQueued(id) else M.Marking(id))
    ensures M.ClientStep(env, h, M.MovingQueued(id), true) == (h, M.Finished)
    ensures id in h.files.queue ==>
              var moved := h.(files := h.files.QueueToTerminal(id), moved := h.moved + {id});
              M.ClientStep(env, h, M.MovingQueued(id), false) == (moved, M.ReadingMoved(id))
  {
  }

  function Rewritten(h: M.Shared, job: M.Job): M.Shared {
    h.(files := h.files.(terminal := h.files.terminal[job.id := job]), rewritten := h.rewritten + {job.id})
  }

  /** The steps of `cancel` after the rename. */
  lemma RewriteSteps(env: M.Env, h: M.Shared, id: nat)
    requires id in h.files.terminal
    ensures M.ClientStep(env, h, M.ReadingMoved(id), true) == (h, M.Finished)
    ensures M.ClientStep(env, h, M.ReadingMoved(id), false) == (h, M.WritingMoved(h.files.terminal[id].Dropped()))
    ensures forall job :: M.ClientStep(env, h, M.WritingMoved(job), true) == (h, M.Finished)
    ensures forall job :: M.ClientStep(env, h, M.WritingMoved(job), false) == (Rewritten(h, job), M.Finished)
  {
  }

  /** The steps of `cancel` for a job that is not queued. */
  lemma MarkSteps(env: M.Env, h: M.Shared, id: nat)
    ensures M.ClientStep(env, h, M.Marking(id), true) == (h, M.Finished)
    ensures M.ClientStep(env, h, M.Marking(id), false)
         == (h.(files := h.files.(marks := h.files.marks + {id})), M.Signalling(id))
    ensures M.ClientStep(env, h, M.Signalling(id), true) == (h, M.Finished)
    ensures M.ClientStep(env, h, M.Signalling(id), false)
         == (h, if id in h.active then M.Flagging(id, h.active[id]) else M.Getting(id, M.InQueue))
    ensures forall token ::
              M.ClientStep(env, h, M.Flagging(id, token), false)
                  == (h.(cancelled := h.cancelled + {token}), M.Getting(id, M.InQueue))
  {
  }

  function AfterReading(files: map<nat, M.Job>, id: nat): M.ClientPc {
    if id in files && files[id].status.IsTerminal() then M.ClearingMark(id) else M.Finished
  }

  /** The steps of `get`. */
  lemma LookUpSteps(env: M.Env, h: M.Shared, id: nat)
    requires id !in h.files.queue
    ensures M.ClientStep(env, h, M.Getting(id, M.InQueue), false) == (h, M.Getting(id, M.InRunning))
    ensures M.ClientStep(env, h, M.Getting(id, M.InRunning), false)
         == (h, if id in h.files.running then M.Reading(id, M.InRunning) else M.Getting(id, M.InTerminal))
    ensures M.ClientStep(env, h, M.Getting(id, M.InTerminal), false)
         == (h, if id in h.files.terminal then M.Reading(id, M.InTerminal) else M.Finished)
    ensures forall place :: M.ClientStep(env, h, M.Reading(id, place), true) == (h, M.Finished)
    ensures forall place ::
              M.ClientStep(env, h, M.Reading(id, place), false) == (h, AfterReading(M.At(h.files, place), id))
  {
  }

  lemma SoloRecoveryNothing(h: M.Shared, phase: M.Phase)
    ensures SoloRecovery(h, phase, []) == (h, phase)
  {
  }

  lemma SoloClientNothing(env: M.Env, h: M.Shared, pc: M.ClientPc)
    ensures SoloClient(env, h, pc, []) == (h, pc)
  {
  }

  /** The file `id` is taken from the queue of `h` and written back as running. */
  ghost predicate Taken(h: M.Shared, g: M.Shared, id: nat)
    requires id in h.files.queue
  {
    var job := h.files.queue[id].Claimed();
    g.files == h.files.QueueToRunning(id).(running := h.files.running[id := h.files.queue[id]][job.id := job])
  }

  /** What a claim without an error finds: nothing, or the first queued job. */
  ghost predicate Claimed(h: M.Shared, g: M.Shared, id: nat, found: Option<M.Job>) {
    if found.None? then h.files.queue == map[] && g == h
    else
      && RuntimeTurns.First(h.files.queue.Keys, id) && Taken(h, g, id)
      && found.value == h.files.queue[id].Claimed()
  }

  lemma FirstPresent(ids: set<nat>, names: seq<nat>, i: nat)
    requires names == Ascending(ids) && i < |names| && forall k :: 0 <= k < i ==> names[k] !in ids
    ensures RuntimeTurns.First(ids, names[i])
  {
    forall k | k in ids
      ensures names[i] <= k
    {
      assert k in names;
    }
    assert names[i] in names;
  }

  lemma NonePresent(files: map<nat, M.Job>, names: seq<nat>)
    requires names == Ascending(files.Keys) && forall k :: 0 <= k < |names| ==> names[k] !in files
    ensures files == map[]
  {
    assert forall id :: id in files.Keys ==> id in names;
  }

  lemma NothingClaimed(h: M.Shared, g: M.Shared, id: nat)
    requires Claimed(h, g, id, None)
    ensures h.files.queue == map[] && g == h
  {
  }

  lemma ClaimedFiles(env: M.Env, h: M.Shared, g: M.Shared, id: nat, job: M.Job)
    requires RuntimeSafety.SharedOk(env, h) && Claimed(h, g, id, Some(job))
    ensures RuntimeTurns.First(h.files.queue.Keys, id) && RuntimeTurns.Claimable(h.files, id)
    ensures job == h.files.queue[id].Claimed() && job.id == id && job.key == h.files.queue[id].key
    ensures g.files == RuntimeTurns.ClaimedFrom(h.files, id)
  {
    RuntimeSafety.QueuedFacts(env, h, id);
    RuntimeTurns.QueuedHasNoResult(env, h, id);
    hide RuntimeSafety.SharedOk;
    RuntimeTurns.UpdatedTwice(h.files.running, id, h.files.queue[id], job);
  }

  /** A job that has ended may lose its mark; no other mark changes. */
  ghost predicate Cleared(marks: set<nat>, before: set<nat>, id: nat, job: M.Job) {
    if job.status.IsTerminal() then marks == before || marks == before - {id} else marks == before
  }

  /** What `get` and the clearing of the mark come to for a job that is not queued. */
  ghost predicate Got(h: M.Shared, id: nat, r: Result<M.Job, RuntimeError>, before: set<nat>) {
    if r.Err? then id !in h.files.running && id !in h.files.terminal && h.files.marks == before
    else
      && Cleared(h.files.marks, before, id, r.value)
      && if id in h.files.running then r.value == h.files.running[id]
         else id in h.files.terminal && r.value == h.files.terminal[id]
  }

  const GO := M.Go(M.Panicked)

  class ProductionRuntime {
    const env: M.Env
    var queue: map<nat, M.Job>
    var running: map<nat, M.Job>
    var terminal: map<nat, M.Job>
    var marks: set<nat>
    var cache: map<nat, nat>
    var active: map<nat, nat>
    var nextToken: nat
    ghost var cancelled: set<nat>
    ghost var requests: map<nat, nat>
    ghost var issued: set<nat>
    ghost var pruned: set<nat>
    ghost var moved: set<nat>
    ghost var rewritten: set<nat>
    ghost var recoveries: map<nat, nat>
    ghost var executed: set<(nat, nat)>

    ghost function View(): M.Shared
      reads this
    {
      M.Shared(M.Files(queue, running, terminal, marks, cache), active, cancelled, nextToken, requests, issued, pruned,
               moved,
               rewritten, recoveries, executed)
    }

    /** Tokens are handed out in order, so a new one has not been cancelled. */
    ghost predicate Tokens()
      reads this
    {
      (forall t :: t in cancelled ==> t < nextToken) && (forall id :: id in active ==> active[id] < nextToken)
    }

    /** Between calls every job is in its one place, with honest contents. */
    ghost predicate Valid()
      reads this
    {
      Tokens() && env.Valid() && RuntimeSafety.SharedOk(env, View())
    }

    constructor (env: M.Env)
      requires env.Valid()
      ensures Valid() && this.env == env && View() == M.Fresh().shared
    {
      this.env := env;
      queue, running, terminal, marks, cache, active, nextToken := map[], map[], map[], {}, map[], map[], 0;
      cancelled, requests, recoveries, executed := {}, map[], map[], {};
      issued, pruned, moved, rewritten := {}, {}, {}, {};
    }

    /** The first queued job, in file order, that is still there when its turn comes. */
    method ClaimNext()
      returns (r: Result<Option<M.Job>, RuntimeError>, ghost steps: seq<M.Choice>, ghost id: nat)
      requires Tokens()
      modifies this`queue, this`running
      ensures Tokens()
      ensures r.Ok? ==> Claimed(old(View()), View(), id, r.value)
      ensures Solo(env, old(View()), M.Listing, steps)
           == (View(), if r.Err? then M.Exited(false) else if r.value.None? then M.Exited(true)
               else M.Probing(r.value.value))
    {
      hide Solo, M.WorkerStep, Ascending;
      ghost var was := View();
      ScanSteps(env, was, M.Listing);
      SoloNothing(env, was, M.Listing);
      if * {
        SoloStep(env, was, M.Listing, [], M.Fail);
        return Err(IoFailed), [] + [M.Fail], 0;
      }
      SoloStep(env, was, M.Listing, [], GO);
      r, steps, id := ScanNames(Ascending(queue.Keys), [] + [GO]);
    }

    method ScanNames(names: seq<nat>, ghost before: seq<M.Choice>)
      returns (r: Result<Option<M.Job>, RuntimeError>, ghost steps: seq<M.Choice>, ghost first: nat)
      requires Tokens() && Solo(env, View(), M.Listing, before) == (View(), M.Scanning(names))
      requires names == Ascending(queue.Keys)
      modifies this`queue, this`running
      ensures Tokens()
      ensures r.Ok? ==> Claimed(old(View()), View(), first, r.value)
      ensures Solo(env, old(View()), M.Listing, steps)
           == (View(), if r.Err? then M.Exited(false) else if r.value.None? then M.Exited(true)
               else M.Probing(r.value.value))
    {
      hide Solo, M.WorkerStep, Ascending;
      ghost var was := View();
      steps, first := before, 0;
      assert names[0..] == names;
      for i := 0 to |names|
        invariant View() == was
        invariant forall k :: 0 <= k < i ==> names[k] !in queue
        invariant Solo(env, was, M.Listing, steps) == (was, M.Scanning(names[i..]))
      {
        var id := names[i];
        ScanSteps(env, was, M.Scanning(names[i..]));
        assert names[i..][0] == id && names[i..][1..] == names[i + 1..];
        if * {
          SoloStep(env, was, M.Listing, steps, M.Fail);
          return Err(IoFailed), steps + [M.Fail], 0;
        }
        SoloStep(env, was, M.Listing, steps, GO);
        steps := steps + [GO];
        if id in queue {
          FirstPresent(queue.Keys, names, i);
          r, steps := TakeFile(was, id, steps);
          return r, steps, id;
        }
      }
      ScanSteps(env, was, M.Scanning([]));
      SoloStep(env, was, M.Listing, steps, GO);
      NonePresent(queue, names);
      r, steps := Ok(None), steps + [GO];
    }

    /** The rename that claims the job. */
    method TakeFile(ghost was: M.Shared, id: nat, ghost before: seq<M.Choice>)
      returns (r: Result<Option<M.Job>, RuntimeError>, ghost steps: seq<M.Choice>)
      requires Tokens() && was == View() && id in queue
      requires Solo(env, was, M.Listing, before)
            == (was.(files := was.files.QueueToRunning(id)), M.Renamed(id, was.files.queue[id]))
      modifies this`queue, this`running
      ensures Tokens()
      ensures r.Ok? ==> r.value == Some(was.files.queue[id].Claimed()) && Taken(was, View(), id)
      ensures Solo(env, was, M.Listing, steps) == (View(), if r.Err? then M.Exited(false) else M.Probing(r.value.value))
    {
      hide Solo, M.WorkerStep;
      queue, running := queue - {id}, running[id := queue[id]];
      r, steps := Announce(was, id, before);
    }

    /** Reads the claimed file and writes it back as running. */
    method Announce(ghost was: M.Shared, id: nat, ghost before: seq<M.Choice>)
      returns (r: Result<Option<M.Job>, RuntimeError>, ghost steps: seq<M.Choice>)
      requires Tokens() && id in running
      requires Solo(env, was, M.Listing, before).0 == View()
      requires Solo(env, was, M.Listing, before).1.Renamed? && Solo(env, was, M.Listing, before).1.id == id
      modifies this`running
      ensures Tokens()
      ensures r.Ok? ==>
                && r.value == Some(old(running)[id].Claimed())
                && running == old(running)[r.value.value.id := r.value.value]
      ensures Solo(env, was, M.Listing, steps) == (View(), if r.Err? then M.Exited(false) else M.Probing(r.value.value))
    {
      steps := before;
      if * {
        SoloStep(env, was, M.Listing, steps, M.Fail);
        return Err(IoFailed), steps + [M.Fail];
      }
      var job := running[id].Claimed();
      SoloStep(env, was, M.Listing, steps, GO);
      steps := steps + [GO];
      if * {
        SoloStep(env, was, M.Listing, steps, M.Fail);
        return Err(IoFailed), steps + [M.Fail];
      }
      running := running[job.id := job];
      SoloStep(env, was, M.Listing, steps, GO);
      r, steps := Ok(Some(job)), steps + [GO];
    }

    /** Writes the job's last form and moves it to the terminal directory. */
    method FinishJob(job: M.Job, ghost unmark: bool) returns (r: Result<(), RuntimeError>, ghost steps: seq<M.Choice>)
      requires Tokens()
      modifies this`running, this`terminal
      ensures Tokens()
      ensures r.Ok? ==> running == old(running) - {job.id} && terminal == old(terminal)[job.id := job]
      ensures Solo(env, old(View()), M.Finishing(job, unmark), steps)
           == (View(), if r.Err? then M.Exited(false) else if unmark then M.Unmarking(job.id) else M.Listing)
    {
      hide Solo, M.WorkerStep;
      ghost var was, pc := View(), M.Finishing(job, unmark);
      SoloNothing(env, was, pc);
      FinishSteps(env, View(), job, unmark);
      steps := [];
      if * {
        SoloStep(env, was, pc, steps, M.Fail);
        return Err(IoFailed), steps + [M.Fail];
      }
      running := running[job.id := job];
      FinishSteps(env, View(), job, unmark);
      SoloStep(env, was, pc, steps, GO);
      steps := steps + [GO];
      if * {
        SoloStep(env, was, pc, steps, M.Fail);
        return Err(IoFailed), steps + [M.Fail];
      }
      running, terminal := running - {job.id}, terminal[job.id := running[job.id]];
      RuntimeTurns.UpdatedTwice(old(running), job.id, job, job);
      SoloStep(env, was, pc, steps, GO);
      r, steps := Ok(()), steps + [GO];
    }

    method RequeueJob(job: M.Job) returns (r: Result<(), RuntimeError>, ghost steps: seq<M.Choice>)
      requires Tokens()
      modifies this`running, this`queue
      ensures Tokens()
      ensures r.Ok? ==> running == old(running) - {job.id} && queue == old(queue)[job.id := job]
      ensures Solo(env, old(View()), M.Requeueing(job), steps)
          == (View(), if r.Err? then M.Exited(false) else M.Listing)
    {
      hide Solo, M.WorkerStep;
      ghost var was, pc := View(), M.Requeueing(job);
      SoloNothing(env, was, pc);
      RequeueSteps(env, View(), job);
      steps := [];
      if * {
        SoloStep(env, was, pc, steps, M.Fail);
        return Err(IoFailed), steps + [M.Fail];
      }
      running := running[job.id := job];
      RequeueSteps(env, View(), job);
      SoloStep(env, was, pc, steps, GO);
      steps := steps + [GO];
      if * {
        SoloStep(env, was, pc, steps, M.Fail);
        return Err(IoFailed), steps + [M.Fail];
      }
      running, queue := running - {job.id}, queue[job.id := running[job.id]];
      RuntimeTurns.UpdatedTwice(old(running), job.id, job, job);
      SoloStep(env, was, pc, steps, GO);
      r, steps := Ok(()), steps + [GO];
    }

    /** Registers a fresh token and looks for a cancellation mark. */
    method Register(job: M.Job) returns (r: Result<(nat, bool), RuntimeError>, ghost steps: seq<M.Choice>)
      requires Tokens()
      modifies this`active, this`nextToken, this`cancelled
      ensures Tokens()
      ensures r.Ok? ==> r.value.0 < nextToken && (r.value.1 <==> r.value.0 in cancelled)
      ensures r.Ok? ==> (r.value.1 <==> job.id in marks) && active == old(active)[job.id := r.value.0]
      ensures Solo(env, old(View()), M.Registering(job), steps)
           == (View(), if r.Err? then M.Exited(false) else M.Executing(job, r.value.0))
    {
      hide Solo;
      ghost var was, pc := View(), M.Registering(job);
      SoloNothing(env, was, pc);
      if * {
        SoloStep(env, was, pc, [], M.Fail);
        return Err(IoFailed), [] + [M.Fail];
      }
      var token := nextToken;
      active, nextToken := active[job.id := token], nextToken + 1;
      SoloStep(env, was, pc, [], GO);
      var isCancelled := job.id in marks;
      cancelled := if isCancelled then cancelled + {token} else cancelled;
      SoloStep(env, was, pc, [] + [GO], GO);
      r, steps := Ok((token, isCancelled)), [] + [GO] + [GO];
    }

    /** Drops the token again and looks a second time; the result says whether the run counts as cancelled. */
    method Deregister(job: M.Job, token: nat, isCancelled: bool, outcome: M.Outcome)
      returns (r: Result<bool, RuntimeError>, ghost steps: seq<M.Choice>)
      requires Tokens() && token < nextToken && (isCancelled <==> token in cancelled)
      modifies this`active, this`cancelled
      ensures Tokens()
      ensures r.Ok? ==> (r.value <==> isCancelled || job.id in marks) && active == old(active) - {job.id}
      ensures Solo(env, old(View()), M.Deregistering(job, token, outcome), steps)
           == (View(), if r.Err? then M.Exited(false) else M.AfterOutcome(env, job, r.value, outcome))
    {
      hide Solo, M.AfterOutcome, M.WorkerStep;
      ghost var was, pc := View(), M.Deregistering(job, token, outcome);
      SoloNothing(env, was, pc);
      DeregisterSteps(env, was, job, token, outcome);
      if * {
        SoloStep(env, was, pc, [], M.Fail);
        return Err(IoFailed), [] + [M.Fail];
      }
      active := active - {job.id};
      SoloStep(env, was, pc, [], GO);
      DeregisterSteps(env, View(), job, token, outcome);
      var marked := job.id in marks;
      cancelled := if marked then cancelled + {token} else cancelled;
      DeregisterSteps(env, View(), job, token, outcome);
      SoloStep(env, was, pc, [] + [GO], GO);
      SoloStep(env, was, pc, [] + [GO] + [GO], GO);
      r, steps := Ok(isCancelled || marked), [] + [GO] + [GO] + [GO];
    }

    /** Registers, lets the executor run, and deregisters. */
    method Execute(job: M.Job) returns (r: Result<(bool, M.Outcome), RuntimeError>, ghost steps: seq<M.Choice>)
      requires Tokens()
      modifies this`active, this`nextToken, this`cancelled, this`executed
      ensures Tokens()
      ensures r.Ok? ==> (r.value.0 <==> job.id in marks) && active == old(active) - {job.id}
      ensures Solo(env, old(View()), M.Registering(job), steps)
           == (View(), if r.Err? then M.Exited(false) else M.AfterOutcome(env, job, r.value.0, r.value.1))
    {
      hide Solo, M.AfterOutcome;
      ghost var was, pc := View(), M.Registering(job);
      var registered;
      registered, steps := Register(job);
      if registered.Err? {
        return Err(registered.error), steps;
      }
      var outcome: M.Outcome := *;
      executed := if outcome.Returned? then executed + {(job.request, outcome.result)} else executed;
      SoloStep(env, was, pc, steps, M.Go(outcome));
      steps := steps + [M.Go(outcome)];
      assert Solo(env, was, pc, steps) == (View(), M.Deregistering(job, registered.value.0, outcome));
      var isCancelled;
      ghost var more;
      isCancelled, more := Deregister(job, registered.value.0, registered.value.1, outcome);
      SoloThen(env, was, pc, steps, more);
      steps := steps + more;
      r := if isCancelled.Err? then Err(isCancelled.error) else Ok((isCancelled.value, outcome));
    }

    /** Cancelled, cached and finished, requeued, or finished with a failure. */
    method Conclude(job: M.Job, isCancelled: bool, outcome: M.Outcome)
      returns (r: Result<(), RuntimeError>, ghost steps: seq<M.Choice>, ghost unmarked: bool)
      requires Tokens()
      modifies this`queue, this`running, this`terminal, this`marks, this`cache
      ensures Tokens()
      ensures r.Ok? ==>
                View().files == RuntimeTurns.Concluded(env, old(View()).files, job, isCancelled, unmarked, outcome)
      ensures Solo(env, old(View()), M.AfterOutcome(env, job, isCancelled, outcome), steps)
           == (View(), if r.Err? then M.Exited(false) else M.Listing)
    {
      hide Solo;
      ghost var was, pc := View(), M.AfterOutcome(env, job, isCancelled, outcome);
      unmarked := true;
      if isCancelled {
        r, steps := FinishJob(job.Dropped(), true);
        if r.Ok? {
          ghost var failing := false;
          if * {
            failing, unmarked := true, false;
          } else {
            marks := marks - {job.id};
          }
          SoloStep(env, was, pc, steps, if failing then M.Fail else GO);
          steps := steps + [if failing then M.Fail else GO];
        }
        return;
      }
      match outcome {
        case Returned(result) =>
          r, steps := CacheAndFinish(job, result);
        case Refused(failure) =>
          if failure.Retryable() && job.attempts < env.maxAttempts {
            r, steps := RequeueJob(job.Retried(failure));
          } else {
            r, steps := FinishJob(job.Ended(failure), false);
          }
        case Panicked =>
          r, steps := FinishJob(job.(status := M.Failed, error := Some(M.Infrastructure)), false);
      }
    }

    method CacheAndFinish(job: M.Job, result: nat) returns (r: Result<(), RuntimeError>, ghost steps: seq<M.Choice>)
      requires Tokens()
      modifies this`running, this`terminal, this`cache
      ensures Tokens()
      ensures r.Ok? ==>
                && running == old(running) - {job.id} && terminal == old(terminal)[job.id := job.Done(result)]
                && cache == old(cache)[job.key := result]
      ensures Solo(env, old(View()), M.Caching(job, result), steps)
          == (View(), if r.Err? then M.Exited(false) else M.Listing)
    {
      ghost var was, pc := View(), M.Caching(job, result);
      SoloNothing(env, was, pc);
      if * {
        SoloStep(env, was, pc, [], M.Fail);
        return Err(IoFailed), [] + [M.Fail];
      }
      cache := cache[job.key := result];
      SoloStep(env, was, pc, [], GO);
      ghost var more;
      r, more := FinishJob(job.Done(result), false);
      steps := ([] + [GO]) + more;
      SoloThen(env, was, pc, [] + [GO], more);
    }

    /** The rest of a turn, from the claimed job on: answered from the cache, or executed and concluded. */
    method RunClaimed(job: M.Job)
      returns (r: Result<(), RuntimeError>, ghost steps: seq<M.Choice>, ghost outcome: M.Outcome, ghost unmarked: bool)
      requires Tokens()
      modifies this
      ensures Tokens()
      ensures Solo(env, old(View()), M.Probing(job), steps)
           == (View(), if r.Err? then M.Exited(false) else M.Listing)
      ensures r.Ok? ==>
                View().files == if job.key in old(cache) then RuntimeTurns.Answered(old(View()).files, job)
                                else RuntimeTurns.Concluded(env, old(View()).files, job, job.id in old(marks), unmarked,
                                                            outcome)
      ensures r.Ok? ==> active == if job.key in old(cache) then old(active) else old(active) - {job.id}
    {
      hide Solo, M.AfterOutcome, RuntimeTurns.Concluded;
      ghost var was, pc := View(), M.Probing(job);
      SoloNothing(env, was, pc);
      outcome, unmarked := M.Panicked, true;
      if * {
        SoloStep(env, was, pc, [], M.Fail);
        return Err(IoFailed), [] + [M.Fail], outcome, unmarked;
      }
      SoloStep(env, was, pc, [], GO);
      steps := [] + [GO];
      ghost var more;
      if job.key in cache {
        r, more := FinishJob(job.Hit(cache[job.key]), false);
      } else {
        var executed;
        executed, more := Execute(job);
        SoloThen(env, was, pc, steps, more);
        steps := steps + more;
        if executed.Err? {
          return Err(executed.error), steps, outcome, unmarked;
        }
        r, more, unmarked := Conclude(job, executed.value.0, executed.value.1);
        outcome := executed.value.1;
      }
      SoloThen(env, was, pc, steps, more);
      steps := steps + more;
    }

    /**
     * One job from claim to conclusion; false when the queue had none. If there is no error, the first queued job
     * `id` is left as `outcome` demands; only its mark may remain, when it could not be removed.
     */
    method RunNext()
      returns (r: Result<bool, RuntimeError>, ghost steps: seq<M.Choice>, ghost id: nat, ghost outcome: M.Outcome,
               ghost unmarked: bool)
      requires Valid()
      modifies this
      ensures Valid()
      ensures Solo(env, old(View()), M.Listing, steps)
           == (View(), if r.Err? then M.Exited(false) else if r.value then M.Listing else M.Exited(true))
      ensures r == Ok(false) ==> old(queue) == map[] && View() == old(View())
      ensures r == Ok(true) ==>
                && RuntimeTurns.First(old(queue).Keys, id)
                && RuntimeTurns.Leaves(env, old(View()).files, View().files, id, outcome, unmarked)
                && RuntimeTurns.Deregisters(old(View()).files, old(active), active, id)
    {
      hide Solo, M.AfterOutcome, RuntimeSafety.SharedOk, RuntimeTurns.Leaves, RuntimeTurns.Concluded, Claimed;
      hide RuntimeTurns.First, Ascending, M.WorkerStep;
      ghost var was := View();
      outcome, unmarked := M.Panicked, true;
      var claimed;
      claimed, steps, id := ClaimNext();
      if claimed.Err? {
        TurnIsSafe(env, was, steps);
        return Err(claimed.error), steps, id, outcome, unmarked;
      }
      if claimed.value.None? {
        NothingClaimed(was, View(), id);
        TurnIsSafe(env, was, steps);
        return Ok(false), steps, id, outcome, unmarked;
      }
      var job := claimed.value.value;
      ClaimedFiles(env, was, View(), id, job);
      var finished;
      ghost var more;
      finished, more, outcome, unmarked := RunClaimed(job);
      SoloThen(env, was, M.Listing, steps, more);
      steps := steps + more;
      TurnIsSafe(env, was, steps);
      if finished.Err? {
        return Err(finished.error), steps, id, outcome, unmarked;
      }
      if job.key in was.files.cache {
        RuntimeTurns.AnsweredLeaves(env, was.files, id, outcome, unmarked);
      } else {
        RuntimeTurns.ConcludedLeaves(env, was.files, id, outcome, unmarked);
      }
      r := Ok(true);
    }

    /** `id` is the new job's id; the caller learns of it only through the returned snapshot. */
    method Submit(ghost was: M.Shared, id: nat, request: nat)
      returns (r: Result<M.Job, RuntimeError>, ghost steps: seq<bool>)
      requires Valid() && id !in requests && was == View().(requests := View().requests[id := request])
      modifies this`queue, this`terminal, this`requests, this`issued, this`pruned
      ensures Valid()
      ensures SoloClient(env, was, M.Counting(id, request), steps) == (View(), M.Finished)
      ensures r.Err? && r.error == QueueFull ==> |old(queue)| >= env.maxQueued
      ensures r.Ok? ==>
                && |old(queue)| < env.maxQueued && id in issued
                && var key := env.key(request);
                   if key in cache then
                     && r.value == M.Job(id, request, key, M.Succeeded, 0, true, Some(cache[key]), None)
                     && queue == old(queue) && Retained(env, old(terminal)[id := r.value], terminal)
                   else
                     && r.value == M.Job(id, request, key, M.Queued, 0, false, None, None)
                     && queue == old(queue)[id := r.value] && terminal == old(terminal)
    {
      hide SoloClient, M.ClientStep, RuntimeSafety.SharedOk;
      ghost var before := View();
      ghost var pc := M.Counting(id, request);
      SoloClientNothing(env, was, pc);
      SubmitSteps(env, was, id, request);
      requests := requests[id := request];
      if * {
        SoloClientStep(env, was, pc, [], true);
        SubmissionIsSafe(env, before, id, request, [] + [true]);
        return Err(IoFailed), [] + [true];
      }
      SoloClientStep(env, was, pc, [], false);
      if |queue| >= env.maxQueued {
        SubmissionIsSafe(env, before, id, request, [] + [false]);
        return Err(QueueFull), [] + [false];
      }
      if * {
        SoloClientStep(env, was, pc, [] + [false], true);
        SubmissionIsSafe(env, before, id, request, [] + [false] + [true]);
        return Err(IoFailed), [] + [false] + [true];
      }
      var key := env.key(request);
      SoloClientStep(env, was, pc, [] + [false], false);
      steps := [] + [false] + [false];
      var job := if key in cache then M.Job(id, request, key, M.Succeeded, 0, true, Some(cache[key]), None)
                 else M.Job(id, request, key, M.Queued, 0, false, None, None);
      r, steps := Store(was, pc, steps, job);
      SubmissionIsSafe(env, before, id, request, steps);
    }

    /** Puts the new job into the queue, or straight into the terminal directory if it was answered from the cache. */
    method Store(ghost was: M.Shared, ghost pc: M.ClientPc, ghost before: seq<bool>, job: M.Job)
      returns (r: Result<M.Job, RuntimeError>, ghost steps: seq<bool>)
      requires Tokens()
      requires SoloClient(env, was, pc, before) == (View(), if job.status.Succeeded? then M.Shelving(job)
                                                    else M.Enqueueing(job))
      modifies this`queue, this`terminal, this`issued, this`pruned
      ensures Tokens()
      ensures SoloClient(env, was, pc, steps) == (View(), M.Finished)
      ensures r.Err? ==> r.error == IoFailed
      ensures r.Ok? ==>
                && r.value == job && job.id in issued
                && if job.status.Succeeded? then
                     queue == old(queue) && Retained(env, old(terminal)[job.id := job], terminal)
                   else queue == old(queue)[job.id := job] && terminal == old(terminal)
    {
      hide SoloClient, M.ClientStep;
      ghost var h := View();
      StoreSteps(env, h, job);
      if * {
        SoloClientStep(env, was, pc, before, true);
        return Err(IoFailed), before + [true];
      }
      SoloClientStep(env, was, pc, before, false);
      steps := before + [false];
      issued := issued + {job.id};
      if job.status.Succeeded? {
        terminal := terminal[job.id := job];
        assert View() == Stored(h, job);
        hide Stored;
        var pruning;
        pruning, steps := PruneFrom(was, pc, steps);
        r := if pruning.Err? then Err(pruning.error) else Ok(job);
      } else {
        queue := queue[job.id := job];
        r := Ok(job);
      }
    }

    /** Queued jobs are cancelled at once; for the others a mark is left and the running worker signalled. */
    method Cancel(id: nat) returns (r: Result<M.Job, RuntimeError>, ghost steps: seq<bool>)
      requires Valid()
      modifies this`queue, this`terminal, this`marks, this`cancelled, this`moved, this`rewritten
      ensures Valid()
      ensures SoloClient(env, old(View()), M.LookingQueued(id), steps) == (View(), M.Finished)
      ensures r.Ok? && id in old(queue) ==>
                var was := old(queue)[id];
                && r.value == M.Job(id, was.request, was.key, M.Cancelled, was.attempts, was.cacheHit, None, None)
                && queue == old(queue) - {id} && terminal == old(terminal)[id := r.value]
                && marks == old(marks) && cancelled == old(cancelled)
      ensures r.Ok? && id !in old(queue) ==>
                && queue == old(queue) && terminal == old(terminal)
                && (if id in running then r.value == running[id] else id in terminal && r.value == terminal[id])
                && (id in active ==> active[id] in cancelled)
                && (!r.value.status.IsTerminal() ==> marks == old(marks) + {id})
                && (r.value.status.IsTerminal() ==> marks - {id} == old(marks) - {id})
      ensures r.Err? && r.error == NotFound ==>
                id !in old(queue) && id !in running && id !in terminal && marks == old(marks) + {id}
    {
      hide SoloClient, M.ClientStep, RuntimeSafety.SharedOk;
      ghost var was, pc := View(), M.LookingQueued(id);
      OwnNames(env, was);
      SoloClientNothing(env, was, pc);
      CancelSteps(env, was, id);
      SoloClientStep(env, was, pc, [], false);
      steps := [] + [false];
      if id in queue {
        r, steps := CancelQueued(was, pc, steps, id);
      } else {
        hide M.Job.Dropped;
        r, steps := MarkAndSignal(was, pc, steps, id);
      }
      CallIsSafe(env, was, pc, steps);
    }

    /** The rename that takes the job out of the queue, and the rewriting of its file. */
    method CancelQueued(ghost was: M.Shared, ghost pc: M.ClientPc, ghost before: seq<bool>, id: nat)
      returns (r: Result<M.Job, RuntimeError>, ghost steps: seq<bool>)
      requires Tokens() && id in queue && queue[id].id == id
      requires SoloClient(env, was, pc, before) == (View(), M.MovingQueued(id))
      modifies this`queue, this`terminal, this`moved, this`rewritten
      ensures Tokens()
      ensures SoloClient(env, was, pc, steps) == (View(), M.Finished)
      ensures r.Err? ==> r.error == IoFailed
      ensures r.Ok? ==>
                && r.value == old(queue)[id].Dropped()
                && queue == old(queue) - {id} && terminal == old(terminal)[id := r.value]
    {
      hide SoloClient, M.ClientStep;
      CancelSteps(env, View(), id);
      SoloClientStep(env, was, pc, before, true);
      SoloClientStep(env, was, pc, before, false);
      if * {
        return Err(IoFailed), before + [true];
      }
      queue, terminal, moved := queue - {id}, terminal[id := queue[id]], moved + {id};
      r, steps := RewriteMoved(was, pc, before + [false], id);
    }

    method RewriteMoved(ghost was: M.Shared, ghost pc: M.ClientPc, ghost before: seq<bool>, id: nat)
      returns (r: Result<M.Job, RuntimeError>, ghost steps: seq<bool>)
      requires id in terminal && SoloClient(env, was, pc, before) == (View(), M.ReadingMoved(id))
      modifies this`terminal, this`rewritten
      ensures SoloClient(env, was, pc, steps) == (View(), M.Finished)
      ensures r.Ok? ==> terminal == old(terminal)[r.value.id := r.value] && r.value == old(terminal)[id].Dropped()
      ensures r.Err? ==> r.error == IoFailed
    {
      hide SoloClient, M.ClientStep;
      ghost var h := View();
      RewriteSteps(env, h, id);
      SoloClientStep(env, was, pc, before, true);
      SoloClientStep(env, was, pc, before, false);
      if * {
        return Err(IoFailed), before + [true];
      }
      var job := terminal[id].Dropped();
      steps := before + [false];
      SoloClientStep(env, was, pc, steps, true);
      SoloClientStep(env, was, pc, steps, false);
      if * {
        return Err(IoFailed), steps + [true];
      }
      terminal := terminal[job.id := job];
      rewritten := rewritten + {job.id};
      assert View() == Rewritten(h, job);
      r, steps := Ok(job), steps + [false];
    }

    method MarkAndSignal(ghost was: M.Shared, ghost pc: M.ClientPc, ghost before: seq<bool>, id: nat)
      returns (r: Result<M.Job, RuntimeError>, ghost steps: seq<bool>)
      requires Tokens() && id !in queue && SoloClient(env, was, pc, before) == (View(), M.Marking(id))
      modifies this`marks, this`cancelled
      ensures Tokens()
      ensures SoloClient(env, was, pc, steps) == (View(), M.Finished)
      ensures r.Ok? || r.error == NotFound ==>
                Got(View(), id, r, old(marks) + {id}) && (id in active ==> active[id] in cancelled)
    {
      hide SoloClient, M.ClientStep;
      MarkSteps(env, View(), id);
      SoloClientStep(env, was, pc, before, true);
      SoloClientStep(env, was, pc, before, false);
      if * {
        return Err(IoFailed), before + [true];
      }
      marks := marks + {id};
      steps := before + [false];
      MarkSteps(env, View(), id);
      SoloClientStep(env, was, pc, steps, true);
      SoloClientStep(env, was, pc, steps, false);
      if * {
        return Err(IoFailed), steps + [true];
      }
      steps := steps + [false];
      if id in active {
        cancelled := cancelled + {active[id]};
        SoloClientStep(env, was, pc, steps, false);
        steps := steps + [false];
      }
      r, steps := LookUp(was, pc, steps, id);
    }

    /** `get` on a job that is not queued, and the mark cleared if the job has already ended. */
    method LookUp(ghost was: M.Shared, ghost pc: M.ClientPc, ghost before: seq<bool>, id: nat)
      returns (r: Result<M.Job, RuntimeError>, ghost steps: seq<bool>)
      requires id !in queue && SoloClient(env, was, pc, before) == (View(), M.Getting(id, M.InQueue))
      modifies this`marks
      ensures SoloClient(env, was, pc, steps) == (View(), M.Finished)
      ensures r.Ok? || r.error == NotFound ==> Got(View(), id, r, old(marks))
    {
      hide SoloClient, M.ClientStep;
      LookUpSteps(env, View(), id);
      SoloClientStep(env, was, pc, before, false);
      steps := before + [false];
      SoloClientStep(env, was, pc, steps, false);
      steps := steps + [false];
      if id in running {
        SoloClientStep(env, was, pc, steps, true);
        SoloClientStep(env, was, pc, steps, false);
        if * {
          return Err(IoFailed), steps + [true];
        }
        r, steps := Unmark(was, pc, steps + [false], id, running[id]);
        return;
      }
      SoloClientStep(env, was, pc, steps, false);
      steps := steps + [false];
      if id !in terminal {
        return Err(NotFound), steps;
      }
      SoloClientStep(env, was, pc, steps, true);
      SoloClientStep(env, was, pc, steps, false);
      if * {
        return Err(IoFailed), steps + [true];
      }
      r, steps := Unmark(was, pc, steps + [false], id, terminal[id]);
    }

    method Unmark(ghost was: M.Shared, ghost pc: M.ClientPc, ghost before: seq<bool>, id: nat, job: M.Job)
      returns (r: Result<M.Job, RuntimeError>, ghost steps: seq<bool>)
      requires SoloClient(env, was, pc, before) == (View(), if job.status.IsTerminal() then M.ClearingMark(id)
                                                    else M.Finished)
      modifies this`marks
      ensures SoloClient(env, was, pc, steps) == (View(), M.Finished)
      ensures r == Ok(job) && Cleared(marks, old(marks), id, job)
    {
      hide SoloClient;
      r, steps := Ok(job), before;
      if job.status.IsTerminal() {
        SoloClientStep(env, was, pc, steps, true);
        SoloClientStep(env, was, pc, steps, false);
        if * {
          return Ok(job), steps + [true];
        }
        marks := marks - {id};
        steps := steps + [false];
      }
    }

    /** Puts every running job back into the queue; `r` counts them. */
    method RecoverIncomplete() returns (r: Result<nat, RuntimeError>, ghost steps: seq<bool>)
      requires Valid()
      modifies this`queue, this`running, this`recoveries
      ensures Valid()
      ensures SoloRecovery(old(View()), M.Recovering(M.RecoverList), steps) == (View(), if r.Ok? then M.Up else M.Down)
      ensures r.Ok? ==>
                running == map[] && r.value == |old(running)| && Recovered(old(queue), old(running), queue, running)
    {
      hide SoloRecovery, Ascending, M.RecoveryStep, RuntimeSafety.SharedOk;
      ghost var was, phase := View(), M.Recovering(M.RecoverList);
      OwnNames(env, was);
      RecoveryEnds(was);
      SoloRecoveryNothing(was, phase);
      SoloRecoveryStep(was, phase, [], true);
      SoloRecoveryStep(was, phase, [], false);
      if * {
        RecoveryIsSafe(env, was, [] + [true]);
        return Err(IoFailed), [] + [true];
      }
      var names := Ascending(running.Keys);
      AllUnrecovered(running, names);
      r, steps := RecoverListed(was, phase, [] + [false], names);
      RecoveryIsSafe(env, was, steps);
    }

    /** Requeues the files listed, one by one. */
    method RecoverListed(ghost was: M.Shared, ghost phase: M.Phase, ghost before: seq<bool>, names: seq<nat>)
      returns (r: Result<nat, RuntimeError>, ghost steps: seq<bool>)
      requires Unrecovered(running, names, 0)
      requires SoloRecovery(was, phase, before) == (View(), M.Recovering(M.RecoverNext(names)))
      modifies this`queue, this`running, this`recoveries
      ensures SoloRecovery(was, phase, steps) == (View(), if r.Ok? then M.Up else M.Down)
      ensures r.Ok? ==>
                running == map[] && r.value == |names| && Recovered(old(queue), old(running), queue, running)
    {
      hide SoloRecovery, Unrecovered, M.RecoveryStep, Recovered;
      steps := before;
      var recovered := 0;
      NoneRecovered(queue, running);
      assert names[0..] == names;
      for i := 0 to |names|
        invariant SoloRecovery(was, phase, steps) == (View(), M.Recovering(M.RecoverNext(names[i..])))
        invariant Unrecovered(running, names, i) && recovered == i
        invariant Recovered(old(queue), old(running), queue, running)
      {
        NextUnrecovered(running, names, i);
        ghost var queued, left := queue, running;
        var one;
        one, steps := RecoverOne(was, phase, steps, names, i);
        if one.Err? {
          return Err(one.error), steps;
        }
        OneRecovered(old(queue), old(running), queued, left, names[i]);
        recovered := recovered + 1;
      }
      NoneUnrecovered(running, names);
      RecoveryEnds(View());
      SoloRecoveryStep(was, phase, steps, false);
      r, steps := Ok(recovered), steps + [false];
    }

    method RecoverOne(ghost was: M.Shared, ghost phase: M.Phase, ghost before: seq<bool>, names: seq<nat>, i: nat)
      returns (r: Result<(), RuntimeError>, ghost steps: seq<bool>)
      requires i < |names| && names[i] in running && running[names[i]].id == names[i]
      requires SoloRecovery(was, phase, before) == (View(), M.Recovering(M.RecoverNext(names[i..])))
      modifies this`queue, this`running, this`recoveries
      ensures SoloRecovery(was, phase, steps)
           == (View(), if r.Ok? then M.Recovering(M.RecoverNext(names[i + 1..])) else M.Down)
      ensures r.Ok? ==>
                && names[i] !in old(queue) && running == old(running) - {names[i]}
                && queue == old(queue)[names[i] := Requeued(old(running)[names[i]])]
    {
      hide SoloRecovery;
      var id := names[i];
      assert names[i..][0] == id && names[i..][1..] == names[i + 1..];
      SoloRecoveryStep(was, phase, before, true);
      SoloRecoveryStep(was, phase, before, false);
      if * {
        return Err(IoFailed), before + [true];
      }
      var job := running[id].Recovered();
      steps := before + [false];
      SoloRecoveryStep(was, phase, steps, true);
      SoloRecoveryStep(was, phase, steps, false);
      if * {
        return Err(IoFailed), steps + [true];
      }
      running := running[id := job];
      steps := steps + [false];
      SoloRecoveryStep(was, phase, steps, false);
      steps := steps + [false];
      if id in queue {
        return Err(RecoveryConflict), steps;
      }
      SoloRecoveryStep(was, phase, steps, true);
      SoloRecoveryStep(was, phase, steps, false);
      if * {
        return Err(IoFailed), steps + [true];
      }
      recoveries := recoveries[id := (if id in recoveries then recoveries[id] else 0) + 1];
      running, queue := running - {id}, queue[id := running[id]];
      r, steps := Ok(()), steps + [false];
    }

    method PruneTerminal() returns (r: Result<(), RuntimeError>, ghost steps: seq<bool>)
      requires Valid()
      modifies this`terminal, this`pruned
      ensures Valid()
      ensures SoloClient(env, old(View()), M.ListingTerminal, steps) == (View(), M.Finished)
      ensures r.Ok? ==> Retained(env, old(terminal), terminal)
    {
      hide SoloClient, RuntimeSafety.SharedOk;
      ghost var was := View();
      SoloClientNothing(env, was, M.ListingTerminal);
      r, steps := PruneFrom(was, M.ListingTerminal, []);
      CallIsSafe(env, was, M.ListingTerminal, steps);
    }

    /** Removes the first files in name order until few enough are left. */
    method PruneFrom(ghost was: M.Shared, ghost pc: M.ClientPc, ghost before: seq<bool>)
      returns (r: Result<(), RuntimeError>, ghost steps: seq<bool>)
      requires Tokens() && SoloClient(env, was, pc, before) == (View(), M.ListingTerminal)
      modifies this`terminal, this`pruned
      ensures Tokens()
      ensures SoloClient(env, was, pc, steps) == (View(), M.Finished)
      ensures r.Err? ==> r.error == IoFailed
      ensures r.Ok? ==> Retained(env, old(terminal), terminal)
    {
      hide SoloClient, Ascending, OldestGone;
      SoloClientStep(env, was, pc, before, true);
      SoloClientStep(env, was, pc, before, false);
      if * {
        return Err(IoFailed), before + [true];
      }
      steps := before + [false];
      var names := Ascending(terminal.Keys);
      assert |terminal.Keys| == |terminal|;
      if |names| <= env.maxRetained {
        NoneGone(terminal);
        r := Ok(());
      } else {
        AllRemain(terminal, names);
        r, steps := RemoveFirst(was, pc, steps, names, |names| - env.maxRetained);
      }
    }

    method RemoveFirst(ghost was: M.Shared, ghost pc: M.ClientPc, ghost before: seq<bool>, names: seq<nat>, excess: nat)
      returns (r: Result<(), RuntimeError>, ghost steps: seq<bool>)
      requires Tokens() && excess <= |names| && Remaining(terminal, terminal, names, 0)
      requires SoloClient(env, was, pc, before) == (View(), M.Pruning(names[..excess]))
      modifies this`terminal, this`pruned
      ensures Tokens()
      ensures SoloClient(env, was, pc, steps) == (View(), M.Finished)
      ensures r.Err? ==> r.error == IoFailed
      ensures r.Ok? ==> |terminal| == |names| - excess && OldestGone(old(terminal), terminal)
    {
      hide SoloClient, Remaining, OldestGone;
      steps := before;
      assert names[..excess][0..] == names[..excess];
      for i := 0 to excess
        invariant SoloClient(env, was, pc, steps) == (View(), M.Pruning(names[..excess][i..]))
        invariant Remaining(old(terminal), terminal, names, i)
      {
        assert names[..excess][i..][0] == names[i] && names[..excess][i..][1..] == names[..excess][i + 1..];
        SoloClientStep(env, was, pc, steps, true);
        SoloClientStep(env, was, pc, steps, false);
        if * {
          return Err(IoFailed), steps + [true];
        }
        RemoveNext(old(terminal), terminal, names, i);
        terminal := terminal - {names[i]};
        pruned := pruned + {names[i]};
        steps := steps + [false];
      }
      RemainingCount(old(terminal), terminal, names, excess);
      SoloClientStep(env, was, pc, steps, false);
      r, steps := Ok(()), steps + [false];
    }
  }

  /** A running job as recovery puts it back: queued, without a result, its attempts and last error kept. */
  function Requeued(job: M.Job): M.Job {
    M.Job(job.id, job.request, job.key, M.Queued, job.attempts, job.cacheHit, None, job.error)
  }

  /** Of the files `running` before, those no longer `left` are back in the queue; the queued ones are untouched. */
  ghost predicate Recovered(queue: map<nat, M.Job>, running: map<nat, M.Job>, now: map<nat, M.Job>,
                            left: map<nat, M.Job>) {
    && Submap(left, running) && now.Keys == queue.Keys + (running.Keys - left.Keys)
    && forall id :: id in now ==> now[id] == if id in queue then queue[id] else Requeued(running[id])
  }

  lemma NoneRecovered(queue: map<nat, M.Job>, running: map<nat, M.Job>)
    ensures Recovered(queue, running, queue, running)
  {
  }

  lemma OneRecovered(queue: map<nat, M.Job>, running: map<nat, M.Job>, now: map<nat, M.Job>, left: map<nat, M.Job>,
                     id: nat)
    requires Recovered(queue, running, now, left) && id in left && id !in now
    ensures Recovered(queue, running, now[id := Requeued(left[id])], left - {id})
  {
  }

  /** Exactly the files from number `i` on are still running, under their own names. */
  ghost predicate Unrecovered(running: map<nat, M.Job>, names: seq<nat>, i: nat) {
    && i <= |names| && Increasing(names) && KeysAre(running, names[i..])
    && forall id :: id in running ==> running[id].id == id
  }

  lemma AllUnrecovered(running: map<nat, M.Job>, names: seq<nat>)
    requires names == Ascending(running.Keys) && forall id :: id in running ==> running[id].id == id
    ensures Unrecovered(running, names, 0) && |names| == |running|
  {
    assert names[0..] == names;
    assert |running.Keys| == |running|;
  }

  lemma NextUnrecovered(running: map<nat, M.Job>, names: seq<nat>, i: nat)
    requires i < |names| && Unrecovered(running, names, i)
    ensures names[i] in running && running[names[i]].id == names[i] && Unrecovered(running - {names[i]}, names, i + 1)
  {
    TailMembers(names, i);
  }

  lemma NoneUnrecovered(running: map<nat, M.Job>, names: seq<nat>)
    requires Unrecovered(running, names, |names|)
    ensures running == map[] && names[|names|..] == []
  {
  }

  /** The first and the last step of recovery. */
  lemma RecoveryEnds(h: M.Shared)
    ensures M.RecoveryStep(h, M.RecoverList, true) == (h, M.Down)
    ensures M.RecoveryStep(h, M.RecoverList, false) == (h, M.Recovering(M.RecoverNext(Ascending(h.files.running.Keys))))
    ensures M.RecoveryStep(h, M.RecoverNext([]), false) == (h, M.Up)
  {
  }

  lemma NoneGone(files: map<nat, M.Job>)
    ensures OldestGone(files, files)
  {
  }

  lemma AllRemain(files: map<nat, M.Job>, names: seq<nat>)
    requires names == Ascending(files.Keys)
    ensures Remaining(files, files, names, 0)
  {
    assert names[0..] == names;
    assert |files.Keys| == |files|;
  }

  /** No more files are gone than are too many, and those are the first in name order. */
  ghost predicate Retained(env: M.Env, before: map<nat, M.Job>, after: map<nat, M.Job>) {
    && OldestGone(before, after)
    && |after| == if |before| <= env.maxRetained then |before| else env.maxRetained
  }

  /** Every file that is gone came before every file that is left. */
  ghost predicate OldestGone(before: map<nat, M.Job>, after: map<nat, M.Job>) {
    && (forall id :: id in after ==> id in before && after[id] == before[id])
    && (forall gone, left :: gone in before && gone !in after && left in after ==> gone < left)
  }

  ghost predicate KeysAre(files: map<nat, M.Job>, names: seq<nat>) {
    forall id :: id in files <==> id in names
  }

  ghost predicate Submap(now: map<nat, M.Job>, before: map<nat, M.Job>) {
    forall id :: id in now ==> id in before && now[id] == before[id]
  }

  ghost predicate Increasing(names: seq<nat>) {
    forall j, k :: 0 <= j < k < |names| ==> names[j] < names[k]
  }

  /** The files from number `i` on. */
  ghost predicate Remaining(before: map<nat, M.Job>, now: map<nat, M.Job>, names: seq<nat>, i: nat) {
    && i <= |names| && Increasing(names) && KeysAre(before, names)
    && KeysAre(now, names[i..]) && Submap(now, before) && |now| == |names| - i
  }

  lemma RemoveNext(before: map<nat, M.Job>, now: map<nat, M.Job>, names: seq<nat>, i: nat)
    requires i < |names| && Remaining(before, now, names, i)
    ensures names[i] in now && Remaining(before, now - {names[i]}, names, i + 1)
  {
    RemoveKey(now, names, i);
    OneLess(now, names[i]);
    assert Submap(now - {names[i]}, before);
    hide KeysAre, Submap, Increasing;
  }

  lemma RemoveKey(now: map<nat, M.Job>, names: seq<nat>, i: nat)
    requires i < |names| && Increasing(names) && KeysAre(now, names[i..])
    ensures names[i] in now && KeysAre(now - {names[i]}, names[i + 1..])
  {
    TailMembers(names, i);
  }

  lemma TailMembers(names: seq<nat>, i: nat)
    requires i < |names| && Increasing(names)
    ensures names[i] in names[i..] && forall id :: id in names[i + 1..] <==> id in names[i..] && id != names[i]
  {
    var rest, tail := names[i..], names[i + 1..];
    assert rest == [names[i]] + tail;
    assert forall k :: 0 <= k < |tail| ==> tail[k] == names[i + 1 + k];
  }

  lemma OneLess(files: map<nat, M.Job>, id: nat)
    requires id in files
    ensures |files - {id}| == |files| - 1
  {
    assert (files - {id}).Keys == files.Keys - {id};
    assert |(files - {id}).Keys| == |files - {id}| && |files.Keys| == |files|;
  }

  lemma RemainingCount(before: map<nat, M.Job>, now: map<nat, M.Job>, names: seq<nat>, i: nat)
    requires Remaining(before, now, names, i)
    ensures |now| == |names| - i && OldestGone(before, now)
  {
    forall gone, left | gone in before && gone !in now && left in now
      ensures gone < left
    {
      EarlierIsSmaller(names, i, gone, left);
    }
    hide Increasing;
  }

  lemma EarlierIsSmaller(names: seq<nat>, i: nat, gone: nat, left: nat)
    requires i <= |names| && Increasing(names) && gone in names && gone !in names[i..] && left in names[i..]
    ensures gone < left
  {
    var j :| 0 <= j < |names| && names[j] == gone;
    var k :| i <= k < |names| && names[k] == left;
    assert forall m :: i <= m < |names| ==> names[m] == names[i..][m - i];
  }
}
