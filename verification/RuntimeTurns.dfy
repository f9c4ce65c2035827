/**
 * One undisturbed turn of a worker, in terms of the files: which job it takes, and where and how each outcome of
 * the executor leaves it.
 */
module RuntimeTurns {
  import opened Wrappers
  import opened Ordering
  import opened Runtime
  import opened RuntimeSafety

  /* ---- What a turn leaves ---- */

  /** The first id in file order. */
  ghost predicate First(ids: set<nat>, id: nat) {
    id in ids && forall k :: k in ids ==> id <= k
  }

  /** The attempts after one more, which never pass 32 bits. */
  function OneMore(attempts: nat): nat {
    if attempts < U32_MAX then attempts + 1 else U32_MAX
  }

  /** The job leaves the queue for the terminal directory. */
  ghost predicate Retires(f: Files, g: Files, id: nat, job: Job) {
    g.queue == f.queue - {id} && g.terminal == f.terminal[id := job]
  }

  /** The job is back in the queue. */
  ghost predicate Requeues(f: Files, g: Files, id: nat, job: Job) {
    g.queue == f.queue[id := job] && g.terminal == f.terminal
  }

  /** A result for the job's cache key answers the job without running it. */
  ghost predicate LeavesAnswered(f: Files, g: Files, id: nat)
    requires id in f.queue && f.queue[id].key in f.cache
  {
    var was := f.queue[id];
    && Retires(f, g, id, Job(id, was.request, was.key, Succeeded, OneMore(was.attempts), true,
                             Some(f.cache[was.key]), None))
    && g.cache == f.cache && g.marks == f.marks
  }

  /** A marked job ends without a result, whatever the executor said; its mark goes, if nothing goes wrong. */
  ghost predicate LeavesCancelled(f: Files, g: Files, id: nat, unmarked: bool)
    requires id in f.queue
  {
    var was := f.queue[id];
    && Retires(f, g, id, Job(id, was.request, was.key, Cancelled, OneMore(was.attempts), was.cacheHit, None, None))
    && g.cache == f.cache && g.marks == if unmarked then f.marks - {id} else f.marks
  }

  /** Otherwise the outcome decides. */
  ghost predicate LeavesConcluded(env: Env, f: Files, g: Files, id: nat, outcome: Outcome)
    requires id in f.queue
  {
    var was := f.queue[id];
    var attempts := OneMore(was.attempts);
    && g.marks == f.marks
    && match outcome
       case Returned(result) =>
         && g.cache == f.cache[was.key := result]
         && Retires(f, g, id, Job(id, was.request, was.key, Succeeded, attempts, was.cacheHit, Some(result), None))
       case Panicked =>
         && g.cache == f.cache
         && Retires(f, g, id, Job(id, was.request, was.key, Failed, attempts, was.cacheHit, None, Some(Infrastructure)))
       case Refused(failure) =>
         && g.cache == f.cache
         && if failure.Simulation? && failure.isRetryable && attempts < env.maxAttempts then
              Requeues(f, g, id, Job(id, was.request, was.key, Queued, attempts, was.cacheHit, None, Some(failure)))
            else if failure.Simulation? && failure.isCancelled then
              Retires(f, g, id, Job(id, was.request, was.key, Cancelled, attempts, was.cacheHit, None, None))
            else
              Retires(f, g, id, Job(id, was.request, was.key, Failed, attempts, was.cacheHit, None, Some(failure)))
  }

  /** From the files `f` to `g`: the job `id` was taken, its executor, if it was run, ended with `outcome`. */
  ghost predicate Leaves(env: Env, f: Files, g: Files, id: nat, outcome: Outcome, unmarked: bool)
    requires id in f.queue
  {
    && g.running == f.running
    && if f.queue[id].key in f.cache then LeavesAnswered(f, g, id)
       else if id in f.marks then LeavesCancelled(f, g, id, unmarked)
       else LeavesConcluded(env, f, g, id, outcome)
  }

  /** A run leaves no token registered for its job, and the others as they were. */
  ghost predicate Deregisters(f: Files, before: map<nat, nat>, after: map<nat, nat>, id: nat)
    requires id in f.queue
  {
    after == if f.queue[id].key in f.cache then before else before - {id}
  }

  /* ---- Undisturbed turns ---- */

  /** `n` steps in a row, none of which fails, under an executor that ends with `outcome`. */
  function Undisturbed(env: Env, h: Shared, pc: WorkerPc, outcome: Outcome, n: nat): (Shared, WorkerPc)
    decreases n
  {
    if n == 0 then (h, pc)
    else
      var (g, at) := WorkerStep(env, h, pc, Go(outcome));
      Undisturbed(env, g, at, outcome, n - 1)
  }

  /** No token still to be handed out has been cancelled. */
  ghost predicate FreshTokens(h: Shared) {
    forall t :: t in h.cancelled ==> t < h.nextToken
  }

  /** The steps before the cache is looked at. */
  lemma ClaimsFirst(env: Env, h: Shared, id: nat, outcome: Outcome)
    requires env.Valid() && SharedOk(env, h) && First(h.files.queue.Keys, id)
    ensures var was := h.files.queue[id];
            && Claimable(h.files, id)
            && Undisturbed(env, h, Listing, outcome, 4)
            == (h.(files := ClaimedFrom(h.files, id)), Probing(was.Claimed()))
  {
    hide SharedOk, WorkerOk, WorkerStep, Honest;
    QueuedFacts(env, h, id);
    QueuedHasNoResult(env, h, id);
    var names := Ascending(h.files.queue.Keys);
    FirstIsHead(h.files.queue.Keys, id);
    var claimed := h.(files := h.files.QueueToRunning(id));
    ClaimSteps(env, h, claimed, id, outcome);
    Four(env, h, Listing, outcome);
    UpdatedTwice(h.files.running, id, h.files.queue[id], h.files.queue[id].Claimed());
  }

  lemma UpdatedTwice(files: map<nat, Job>, id: nat, a: Job, b: Job)
    ensures files[id := a][id := b] == files[id := b]
    ensures files[id := b] - {id} == files - {id}
    ensures id !in files ==> files - {id} == files
  {
  }

  lemma QueuedHasNoResult(env: Env, h: Shared, id: nat)
    requires SharedOk(env, h) && id in h.files.queue
    ensures h.files.queue[id].result.None?
  {
    QueuedFacts(env, h, id);
  }

  lemma FirstIsHead(ids: set<nat>, id: nat)
    requires First(ids, id)
    ensures var names := Ascending(ids); |names| > 0 && names[0] == id
  {
    var names := Ascending(ids);
    assert id in names;
    assert names[0] in names;
  }

  lemma ClaimSteps(env: Env, h: Shared, claimed: Shared, id: nat, outcome: Outcome)
    requires id in h.files.queue && claimed == h.(files := h.files.QueueToRunning(id))
    requires var names := Ascending(h.files.queue.Keys); |names| > 0 && names[0] == id
    ensures var was := h.files.queue[id];
            var names := Ascending(h.files.queue.Keys);
            && WorkerStep(env, h, Listing, Go(outcome)) == (h, Scanning(names))
            && WorkerStep(env, h, Scanning(names), Go(outcome)) == (claimed, Renamed(id, was))
            && WorkerStep(env, claimed, Renamed(id, was), Go(outcome)) == (claimed, Announcing(was.Claimed()))
            && WorkerStep(env, claimed, Announcing(was.Claimed()), Go(outcome))
            == (claimed.(files := claimed.files.WriteRunning(was.Claimed())), Probing(was.Claimed()))
  {
    hide WorkerStep, Ascending;
    ListStep(env, h, outcome);
    TakeStep(env, h, Ascending(h.files.queue.Keys), outcome);
    ReadStep(env, claimed, id, h.files.queue[id], outcome);
    WriteStep(env, claimed, h.files.queue[id].Claimed(), outcome);
  }

  lemma ListStep(env: Env, h: Shared, outcome: Outcome)
    ensures WorkerStep(env, h, Listing, Go(outcome)) == (h, Scanning(Ascending(h.files.queue.Keys)))
  {
  }

  lemma TakeStep(env: Env, h: Shared, names: seq<nat>, outcome: Outcome)
    requires |names| > 0 && names[0] in h.files.queue
    ensures WorkerStep(env, h, Scanning(names), Go(outcome))
         == (h.(files := h.files.QueueToRunning(names[0])), Renamed(names[0], h.files.queue[names[0]]))
  {
  }

  lemma ReadStep(env: Env, h: Shared, id: nat, was: Job, outcome: Outcome)
    requires id in h.files.running
    ensures WorkerStep(env, h, Renamed(id, was), Go(outcome)) == (h, Announcing(h.files.running[id].Claimed()))
  {
  }

  lemma WriteStep(env: Env, h: Shared, job: Job, outcome: Outcome)
    ensures WorkerStep(env, h, Announcing(job), Go(outcome))
         == (h.(files := h.files.WriteRunning(job)), Probing(job))
  {
  }

  lemma Four(env: Env, h: Shared, pc: WorkerPc, outcome: Outcome)
    ensures var (h1, p1) := WorkerStep(env, h, pc, Go(outcome));
            var (h2, p2) := WorkerStep(env, h1, p1, Go(outcome));
            var (h3, p3) := WorkerStep(env, h2, p2, Go(outcome));
            Undisturbed(env, h, pc, outcome, 4) == WorkerStep(env, h3, p3, Go(outcome))
  {
    hide WorkerStep;
    var (h1, p1) := WorkerStep(env, h, pc, Go(outcome));
    var (h2, p2) := WorkerStep(env, h1, p1, Go(outcome));
    var (h3, p3) := WorkerStep(env, h2, p2, Go(outcome));
    var (h4, p4) := WorkerStep(env, h3, p3, Go(outcome));
    assert Undisturbed(env, h4, p4, outcome, 0) == (h4, p4);
    assert Undisturbed(env, h3, p3, outcome, 1) == (h4, p4);
    assert Undisturbed(env, h2, p2, outcome, 2) == (h4, p4);
    assert Undisturbed(env, h1, p1, outcome, 3) == (h4, p4);
  }

  lemma {:induction false} UndisturbedThen(env: Env, h: Shared, pc: WorkerPc, outcome: Outcome, m: nat, n: nat)
    ensures var (g, at) := Undisturbed(env, h, pc, outcome, m);
            Undisturbed(env, h, pc, outcome, m + n) == Undisturbed(env, g, at, outcome, n)
    decreases m
  {
    hide WorkerStep;
    if m > 0 {
      var (g, at) := WorkerStep(env, h, pc, Go(outcome));
      UndisturbedThen(env, g, at, outcome, m - 1, n);
    }
  }

  lemma Two(env: Env, h: Shared, pc: WorkerPc, outcome: Outcome)
    ensures var (h1, p1) := WorkerStep(env, h, pc, Go(outcome));
            Undisturbed(env, h, pc, outcome, 2) == WorkerStep(env, h1, p1, Go(outcome))
  {
    hide WorkerStep;
    var (h1, p1) := WorkerStep(env, h, pc, Go(outcome));
    var (h2, p2) := WorkerStep(env, h1, p1, Go(outcome));
    assert Undisturbed(env, h2, p2, outcome, 0) == (h2, p2);
    assert Undisturbed(env, h1, p1, outcome, 1) == (h2, p2);
  }

  /** Writing the job's last form and moving it. */
  lemma Finishes(env: Env, h: Shared, job: Job, unmark: bool, outcome: Outcome)
    ensures Undisturbed(env, h, Finishing(job, unmark), outcome, 2)
         == (h.(files := h.files.(running := h.files.running - {job.id},
                                  terminal := h.files.terminal[job.id := job])),
             if unmark then Unmarking(job.id) else Listing)
  {
    Two(env, h, Finishing(job, unmark), outcome);
    UpdatedTwice(h.files.running, job.id, job, job);
  }

  lemma GoesBack(env: Env, h: Shared, job: Job, outcome: Outcome)
    ensures Undisturbed(env, h, Requeueing(job), outcome, 2)
         == (h.(files := h.files.(running := h.files.running - {job.id}, queue := h.files.queue[job.id := job])),
             Listing)
  {
    Two(env, h, Requeueing(job), outcome);
    UpdatedTwice(h.files.running, job.id, job, job);
  }

  /** Registering, the first look for a mark, and the run. */
  lemma RunSteps(env: Env, h: Shared, job: Job, token: nat, outcome: Outcome)
    ensures WorkerStep(env, h, Registering(job), Go(outcome))
         == (h.(active := h.active[job.id := h.nextToken], nextToken := h.nextToken + 1),
             CheckingMark(job, h.nextToken))
    ensures WorkerStep(env, h, CheckingMark(job, token), Go(outcome))
         == (Check(h, job.id, token), Executing(job, token))
    ensures WorkerStep(env, h, Executing(job, token), Go(outcome))
         == (Executed(h, job.request, outcome), Deregistering(job, token, outcome))
  {
  }

  /** Deregistering, the second look, and the decision. */
  lemma DecideSteps(env: Env, h: Shared, job: Job, token: nat, outcome: Outcome)
    ensures WorkerStep(env, h, Deregistering(job, token, outcome), Go(outcome))
         == (h.(active := h.active - {job.id}), Rechecking(job, token, outcome))
    ensures WorkerStep(env, h, Rechecking(job, token, outcome), Go(outcome))
         == (Check(h, job.id, token), Deciding(job, token, outcome))
    ensures WorkerStep(env, h, Deciding(job, token, outcome), Go(outcome))
         == (h, AfterOutcome(env, job, token in h.cancelled, outcome))
  {
  }

  /** Once the run is over and its token dropped. */
  function Ran(h: Shared, job: Job, outcome: Outcome): Shared {
    var registered := h.(active := h.active[job.id := h.nextToken], nextToken := h.nextToken + 1);
    var executed := Executed(Check(registered, job.id, h.nextToken), job.request, outcome);
    executed.(active := executed.active - {job.id})
  }

  lemma RunsOnce(env: Env, h: Shared, job: Job, outcome: Outcome)
    ensures Undisturbed(env, h, Registering(job), outcome, 4)
         == (Ran(h, job, outcome), Rechecking(job, h.nextToken, outcome))
  {
    hide WorkerStep, Undisturbed;
    var token := h.nextToken;
    var registered := h.(active := h.active[job.id := token], nextToken := token + 1);
    var checked := Check(registered, job.id, token);
    RunSteps(env, h, job, token, outcome);
    RunSteps(env, registered, job, token, outcome);
    RunSteps(env, checked, job, token, outcome);
    DecideSteps(env, Executed(checked, job.request, outcome), job, token, outcome);
    hide Check, Executed;
    Four(env, h, Registering(job), outcome);
  }

  /** When the executor starts, its fresh token is registered, and cancelled exactly if the job is marked. */
  lemma ExecutorIsTold(env: Env, h: Shared, job: Job, outcome: Outcome)
    requires FreshTokens(h)
    ensures var (g, at) := Undisturbed(env, h, Registering(job), outcome, 2);
            && at == Executing(job, h.nextToken) && g.files == h.files && g.active == h.active[job.id := h.nextToken]
            && (h.nextToken in g.cancelled <==> job.id in h.files.marks)
  {
    hide WorkerStep, Undisturbed;
    var registered := h.(active := h.active[job.id := h.nextToken], nextToken := h.nextToken + 1);
    RunSteps(env, h, job, h.nextToken, outcome);
    RunSteps(env, registered, job, h.nextToken, outcome);
    Two(env, h, Registering(job), outcome);
  }

  lemma RanFacts(h: Shared, job: Job, outcome: Outcome)
    requires FreshTokens(h)
    ensures var rechecked := Check(Ran(h, job, outcome), job.id, h.nextToken);
            && rechecked.files == h.files && FreshTokens(rechecked) && rechecked.active == h.active - {job.id}
            && (h.nextToken in rechecked.cancelled <==> job.id in h.files.marks)
  {
  }

  /** The steps around an execution: only the history and the tokens change. */
  lemma Executes(env: Env, h: Shared, job: Job, outcome: Outcome)
    requires FreshTokens(h)
    ensures var (g, at) := Undisturbed(env, h, Registering(job), outcome, 6);
            && g.files == h.files && FreshTokens(g) && g.active == h.active - {job.id}
            && at == AfterOutcome(env, job, job.id in h.files.marks, outcome)
  {
    hide AfterOutcome, WorkerStep, Undisturbed, Ran, Check, FreshTokens;
    var token, ran := h.nextToken, Ran(h, job, outcome);
    RunsOnce(env, h, job, outcome);
    DecideSteps(env, ran, job, token, outcome);
    DecideSteps(env, Check(ran, job.id, token), job, token, outcome);
    Two(env, ran, Rechecking(job, token, outcome), outcome);
    UndisturbedThen(env, h, Registering(job), outcome, 4, 2);
    RanFacts(h, job, outcome);
  }

  /** The files once the running `job` has been concluded; `marked` jobs count as cancelled, and lose their mark. */
  function Concluded(env: Env, f: Files, job: Job, marked: bool, unmarked: bool, outcome: Outcome): Files {
    var g := f.(running := f.running - {job.id});
    if marked then
      g.(terminal := f.terminal[job.id := job.Dropped()], marks := if unmarked then f.marks - {job.id} else f.marks)
    else
      match outcome
      case Returned(result) =>
        g.(terminal := f.terminal[job.id := job.Done(result)], cache := f.cache[job.key := result])
      case Refused(failure) =>
        if failure.Retryable() && job.attempts < env.maxAttempts then
          g.(queue := f.queue[job.id := job.Retried(failure)])
        else g.(terminal := f.terminal[job.id := job.Ended(failure)])
      case Panicked =>
        g.(terminal := f.terminal[job.id := job.(status := Failed, error := Some(Infrastructure))])
  }

  lemma Concludes(env: Env, h: Shared, job: Job, marked: bool, outcome: Outcome) returns (n: nat)
    ensures n > 0
    ensures var (g, at) := Undisturbed(env, h, AfterOutcome(env, job, marked, outcome), outcome, n);
            at == Listing && g.files == Concluded(env, h.files, job, marked, true, outcome) && g == h.(files := g.files)
  {
    hide Undisturbed, WorkerStep;
    var pc := AfterOutcome(env, job, marked, outcome);
    if pc.Requeueing? {
      n := 2;
      GoesBack(env, h, pc.job, outcome);
    } else if pc.Finishing? {
      n := 2;
      Finishes(env, h, pc.job, pc.unmark, outcome);
      if marked {
        n := 3;
        var (g, at) := Undisturbed(env, h, pc, outcome, 2);
        Unmarks(env, g, job.id, outcome);
        UndisturbedThen(env, h, pc, outcome, 2, 1);
      }
    } else {
      n := 3;
      var g := h.(files := h.files.(cache := h.files.cache[job.key := pc.result]));
      Caches(env, h, job, pc.result, outcome);
      Finishes(env, g, job.Done(pc.result), false, outcome);
      UndisturbedThen(env, h, pc, outcome, 1, 2);
    }
  }

  lemma Unmarks(env: Env, h: Shared, id: nat, outcome: Outcome)
    ensures Undisturbed(env, h, Unmarking(id), outcome, 1)
         == (h.(files := h.files.(marks := h.files.marks - {id})), Listing)
  {
    var (g, at) := WorkerStep(env, h, Unmarking(id), Go(outcome));
    assert Undisturbed(env, g, at, outcome, 0) == (g, at);
  }

  lemma Caches(env: Env, h: Shared, job: Job, result: nat, outcome: Outcome)
    ensures Undisturbed(env, h, Caching(job, result), outcome, 1)
         == (h.(files := h.files.(cache := h.files.cache[job.key := result])), Finishing(job.Done(result), false))
  {
    var (g, at) := WorkerStep(env, h, Caching(job, result), Go(outcome));
    assert Undisturbed(env, g, at, outcome, 0) == (g, at);
  }

  lemma Probes(env: Env, h: Shared, job: Job, outcome: Outcome)
    ensures Undisturbed(env, h, Probing(job), outcome, 1)
         == (h, if job.key in h.files.cache then Finishing(job.Hit(h.files.cache[job.key]), false)
             else Registering(job))
  {
    var (g, at) := WorkerStep(env, h, Probing(job), Go(outcome));
    assert Undisturbed(env, g, at, outcome, 0) == (g, at);
  }

  /** The files when the first queued job has been claimed. */
  function ClaimedFrom(f: Files, id: nat): Files
    requires id in f.queue
  {
    f.(queue := f.queue - {id}, running := f.running[id := f.queue[id].Claimed()])
  }

  predicate Claimable(f: Files, id: nat) {
    id in f.queue && id !in f.running && f.queue[id].id == id && f.queue[id].result.None?
  }

  /** The files once the running `job` has been answered from the cache. */
  function Answered(f: Files, job: Job): Files
    requires job.key in f.cache
  {
    f.(running := f.running - {job.id}, terminal := f.terminal[job.id := job.Hit(f.cache[job.key])])
  }

  lemma AnsweredLeaves(env: Env, f: Files, id: nat, outcome: Outcome, unmarked: bool)
    requires Claimable(f, id) && f.queue[id].key in f.cache
    ensures Leaves(env, f, Answered(ClaimedFrom(f, id), f.queue[id].Claimed()), id, outcome, unmarked)
  {
    UpdatedTwice(f.running, id, f.queue[id], f.queue[id].Claimed());
  }

  lemma ConcludedLeaves(env: Env, f: Files, id: nat, outcome: Outcome, unmarked: bool)
    requires Claimable(f, id) && f.queue[id].key !in f.cache
    ensures Leaves(env, f, Concluded(env, ClaimedFrom(f, id), f.queue[id].Claimed(), id in f.marks, unmarked, outcome),
                   id, outcome, unmarked)
  {
    UpdatedTwice(f.running, id, f.queue[id], f.queue[id].Claimed());
    if outcome.Refused? {
      Reinserted(f.queue, id, f.queue[id].Claimed().Retried(outcome.failure));
    }
  }

  lemma Reinserted(files: map<nat, Job>, id: nat, job: Job)
    ensures (files - {id})[id := job] == files[id := job]
  {
  }

  /** The turn after the claim, when the cache has an answer. */
  lemma AnsweredTurn(env: Env, h: Shared, id: nat, outcome: Outcome)
    requires Claimable(h.files, id) && h.files.queue[id].key in h.files.cache
    ensures var claimed := h.(files := ClaimedFrom(h.files, id));
            var (g, at) := Undisturbed(env, claimed, Probing(h.files.queue[id].Claimed()), outcome, 3);
            at == Listing && Leaves(env, h.files, g.files, id, outcome, true) && g == h.(files := g.files)
  {
    hide Undisturbed, WorkerStep, Leaves;
    var claimed, job := h.(files := ClaimedFrom(h.files, id)), h.files.queue[id].Claimed();
    Probes(env, claimed, job, outcome);
    Finishes(env, claimed, job.Hit(claimed.files.cache[job.key]), false, outcome);
    UndisturbedThen(env, claimed, Probing(job), outcome, 1, 2);
    AnsweredLeaves(env, h.files, id, outcome, true);
  }

  /** And when it has not. */
  lemma ExecutedTurn(env: Env, h: Shared, id: nat, outcome: Outcome) returns (n: nat)
    requires Claimable(h.files, id) && h.files.queue[id].key !in h.files.cache && FreshTokens(h)
    ensures var claimed := h.(files := ClaimedFrom(h.files, id));
            var (g, at) := Undisturbed(env, claimed, Probing(h.files.queue[id].Claimed()), outcome, n);
            && at == Listing && Leaves(env, h.files, g.files, id, outcome, true) && FreshTokens(g)
            && g.active == h.active - {id}
  {
    hide Undisturbed, WorkerStep, Leaves, Concluded, AfterOutcome;
    var claimed, job := h.(files := ClaimedFrom(h.files, id)), h.files.queue[id].Claimed();
    Probes(env, claimed, job, outcome);
    Executes(env, claimed, job, outcome);
    UndisturbedThen(env, claimed, Probing(job), outcome, 1, 6);
    var (executed, after) := Undisturbed(env, claimed, Registering(job), outcome, 6);
    var m := Concludes(env, executed, job, id in h.files.marks, outcome);
    UndisturbedThen(env, claimed, Probing(job), outcome, 7, m);
    ConcludedLeaves(env, h.files, id, outcome, true);
    n := 7 + m;
  }

  /**
   * From any safe state, an undisturbed turn takes the first queued job and leaves it as the outcome of its run
   * demands; an empty queue lets the worker stop.
   */
  lemma TurnLeaves(env: Env, h: Shared, outcome: Outcome) returns (n: nat)
    requires env.Valid() && SharedOk(env, h) && FreshTokens(h)
    ensures n > 0
    ensures var (g, at) := Undisturbed(env, h, Listing, outcome, n);
            if h.files.queue == map[] then g == h && at == Exited(true)
            else
              && at == Listing && SharedOk(env, g) && FreshTokens(g)
              && exists id :: First(h.files.queue.Keys, id) && Leaves(env, h.files, g.files, id, outcome, true)
                              && Deregisters(h.files, h.active, g.active, id)
  {
    hide Undisturbed, WorkerStep, SharedOk, Leaves, Claimable, WorkerOk;
    if h.files.queue == map[] {
      n := 2;
      EmptyTurn(env, h, outcome);
    } else {
      var id := FirstOf(h.files.queue.Keys);
      ClaimsFirst(env, h, id, outcome);
      var m := 3;
      if h.files.queue[id].key in h.files.cache {
        AnsweredTurn(env, h, id, outcome);
      } else {
        m := ExecutedTurn(env, h, id, outcome);
      }
      UndisturbedThen(env, h, Listing, outcome, 4, m);
      n := 4 + m;
      IdleIsSafe(env, h);
      UndisturbedIsSafe(env, h, Listing, outcome, n);
    }
  }

  lemma IdleIsSafe(env: Env, h: Shared)
    ensures WorkerOk(env, h, Listing)
  {
  }

  lemma EmptyTurn(env: Env, h: Shared, outcome: Outcome)
    requires h.files.queue == map[]
    ensures Undisturbed(env, h, Listing, outcome, 2) == (h, Exited(true))
  {
    Two(env, h, Listing, outcome);
    assert h.files.queue.Keys == {};
  }

  lemma FirstOf(ids: set<nat>) returns (id: nat)
    requires ids != {}
    ensures First(ids, id)
  {
    var names := Ascending(ids);
    var some :| some in ids;
    assert some in names;
    id := names[0];
    assert id in names;
    forall k | k in ids
      ensures id <= k
    {
      assert k in names;
    }
  }

  lemma {:induction false} UndisturbedIsSafe(env: Env, h: Shared, pc: WorkerPc, outcome: Outcome, n: nat)
    requires env.Valid() && SharedOk(env, h) && WorkerOk(env, h, pc)
    ensures var (g, at) := Undisturbed(env, h, pc, outcome, n); SharedOk(env, g) && WorkerOk(env, g, at)
    decreases n
  {
    hide SharedOk, WorkerOk, WorkerStep;
    if n > 0 {
      AnyWorkerStepOk(env, h, pc, Go(outcome));
      var (g, at) := WorkerStep(env, h, pc, Go(outcome));
      UndisturbedIsSafe(env, g, at, outcome, n - 1);
    }
  }

  /* ---- In every reachable world ---- */

  /** A token still to be used in a mark check, or to be flagged, has been handed out. */
  predicate HandedOut(h: Shared, pc: WorkerPc) {
    match pc
    case CheckingMark(_, token) => token < h.nextToken
    case Executing(_, token) => token < h.nextToken
    case Deregistering(_, token, _) => token < h.nextToken
    case Rechecking(_, token, _) => token < h.nextToken
    case _ => true
  }

  ghost predicate TokensOk(s: World) {
    && FreshTokens(s.shared)
    && (forall id :: id in s.shared.active ==> s.shared.active[id] < s.shared.nextToken)
    && (forall w :: 0 <= w < |s.workers| ==> HandedOut(s.shared, s.workers[w].pc))
    && (forall c :: 0 <= c < |s.clients| && s.clients[c].Flagging? ==> s.clients[c].token < s.shared.nextToken)
  }

  lemma WorkerKeepsTokens(env: Env, h: Shared, pc: WorkerPc, choice: Choice)
    requires FreshTokens(h) && HandedOut(h, pc) && forall id :: id in h.active ==> h.active[id] < h.nextToken
    ensures var (g, at) := WorkerStep(env, h, pc, choice);
            && FreshTokens(g) && HandedOut(g, at) && h.nextToken <= g.nextToken
            && forall id :: id in g.active ==> g.active[id] < g.nextToken
  {
    hide Ascending;
  }

  lemma ClientKeepsTokens(env: Env, h: Shared, pc: ClientPc, fails: bool)
    requires FreshTokens(h) && (pc.Flagging? ==> pc.token < h.nextToken)
    requires forall id :: id in h.active ==> h.active[id] < h.nextToken
    ensures var (g, at) := ClientStep(env, h, pc, fails);
            FreshTokens(g) && g.nextToken == h.nextToken && g.active == h.active
            && (at.Flagging? ==> at.token < g.nextToken)
  {
    hide Ascending;
  }

  lemma PerformKeepsTokens(env: Env, s: World, a: Action)
    requires TokensOk(s)
    ensures TokensOk(Perform(env, s, a))
  {
    hide WorkerStep, ClientStep;
    match a {
      case WorkerActs(w, choice) =>
        if w < |s.workers| {
          WorkerKeepsTokens(env, s.shared, s.workers[w].pc, choice);
        }
      case ClientActs(c, fails) =>
        if c < |s.clients| {
          ClientKeepsTokens(env, s.shared, s.clients[c], fails);
        }
      case _ =>
    }
  }

  lemma {:induction false} AlwaysTokens(env: Env, actions: seq<Action>)
    ensures TokensOk(PerformAll(env, Fresh(), actions))
    decreases |actions|
  {
    hide Perform, TokensOk;
    if |actions| == 0 {
      FreshTokensOk();
    } else {
      AlwaysTokens(env, actions[..|actions| - 1]);
      PerformKeepsTokens(env, PerformAll(env, Fresh(), actions[..|actions| - 1]), actions[|actions| - 1]);
    }
  }

  lemma FreshTokensOk()
    ensures TokensOk(Fresh())
  {
  }

  /** Worker `w` taking `n` steps with nobody in between. */
  function Turn(w: nat, outcome: Outcome, n: nat): (r: seq<Action>)
    ensures |r| == n
  {
    seq(n, _ => WorkerActs(w, Go(outcome)))
  }

  lemma {:induction false} TurnIsPerformed(env: Env, s: World, w: nat, outcome: Outcome, n: nat)
    requires w < |s.workers|
    ensures var (t, u) := (PerformAll(env, s, Turn(w, outcome, n)),
                           Undisturbed(env, s.shared, s.workers[w].pc, outcome, n));
            |t.workers| == |s.workers| && t.shared == u.0 && t.workers[w].pc == u.1
    decreases n
  {
    hide WorkerStep;
    if n > 0 {
      TurnIsPerformed(env, s, w, outcome, n - 1);
      assert Turn(w, outcome, n)[..n - 1] == Turn(w, outcome, n - 1);
      UndisturbedThen(env, s.shared, s.workers[w].pc, outcome, n - 1, 1);
      var (g, at) := Undisturbed(env, s.shared, s.workers[w].pc, outcome, n - 1);
      UndisturbedOnce(env, g, at, outcome);
    }
  }

  lemma UndisturbedOnce(env: Env, h: Shared, pc: WorkerPc, outcome: Outcome)
    ensures Undisturbed(env, h, pc, outcome, 1) == WorkerStep(env, h, pc, Go(outcome))
  {
    hide WorkerStep;
    var (g, at) := WorkerStep(env, h, pc, Go(outcome));
    assert Undisturbed(env, g, at, outcome, 0) == (g, at);
  }

  /**
   * In every world that any interleaving reaches, a worker about to look for a job, left alone, takes the first one
   * queued and leaves it as the outcome demands; with none queued it stops, changing nothing.
   */
  lemma EveryTurnLeaves(env: Env, actions: seq<Action>, w: nat, outcome: Outcome) returns (n: nat)
    requires env.Valid() && w < |PerformAll(env, Fresh(), actions).workers|
    requires PerformAll(env, Fresh(), actions).workers[w].pc.Listing?
    ensures n > 0
    ensures var s := PerformAll(env, Fresh(), actions);
            var t := PerformAll(env, s, Turn(w, outcome, n));
            && |t.workers| == |s.workers|
            && if s.shared.files.queue == map[] then t.shared == s.shared && t.workers[w].pc == Exited(true)
               else
                 && t.workers[w].pc == Listing
                 && exists id :: First(s.shared.files.queue.Keys, id)
                                 && Leaves(env, s.shared.files, t.shared.files, id, outcome, true)
                                 && Deregisters(s.shared.files, s.shared.active, t.shared.active, id)
  {
    hide PerformAll, Undisturbed, Leaves, SharedOk;
    AlwaysInv(env, actions);
    AlwaysTokens(env, actions);
    var s := PerformAll(env, Fresh(), actions);
    n := TurnLeaves(env, s.shared, outcome);
    TurnIsPerformed(env, s, w, outcome, n);
  }

  /* ---- Cancellations reach running executors ---- */

  /** The token under which a worker's job is registered, from its registration to its deregistration. */
  function TokenOf(pc: WorkerPc): Option<(nat, nat)> {
    match pc
    case CheckingMark(job, token) => Some((job.id, token))
    case Executing(job, token) => Some((job.id, token))
    case Deregistering(job, token, _) => Some((job.id, token))
    case _ => None
  }

  ghost predicate Registered(h: Shared, pc: WorkerPc) {
    TokenOf(pc).Some? ==> TokenOf(pc).value.0 in h.active && h.active[TokenOf(pc).value.0] == TokenOf(pc).value.1
  }

  ghost predicate AllRegistered(s: World) {
    forall w :: 0 <= w < |s.workers| ==> Registered(s.shared, s.workers[w].pc)
  }

  /** A worker's step changes the registration of no job but its own. */
  lemma StepRegisters(env: Env, h: Shared, pc: WorkerPc, choice: Choice)
    requires Registered(h, pc)
    ensures var (g, at) := WorkerStep(env, h, pc, choice);
            && Registered(g, at)
            && forall id :: Some(id) != Held(pc) ==>
                 (id in g.active <==> id in h.active) && (id in h.active ==> g.active[id] == h.active[id])
  {
    hide Ascending;
  }

  lemma StillRegistered(h: Shared, g: Shared, mine: Option<nat>, pc: WorkerPc)
    requires Registered(h, pc) && (Held(pc).Some? ==> Held(pc) != mine)
    requires forall id :: Some(id) != mine ==>
               (id in g.active <==> id in h.active) && (id in h.active ==> g.active[id] == h.active[id])
    ensures Registered(g, pc)
  {
  }

  lemma WorkerActsRegisters(env: Env, s: World, w: nat, choice: Choice)
    requires Inv(env, s) && AllRegistered(s) && w < |s.workers|
    ensures AllRegistered(Perform(env, s, WorkerActs(w, choice)))
  {
    hide WorkerStep, Registered, SharedOk, ClientsOk, RecoveryOk, WorkerOk;
    var (g, at) := WorkerStep(env, s.shared, s.workers[w].pc, choice);
    StepRegisters(env, s.shared, s.workers[w].pc, choice);
    forall v | 0 <= v < |s.workers| && v != w
      ensures Registered(g, s.workers[v].pc)
    {
      StillRegistered(s.shared, g, Held(s.workers[w].pc), s.workers[v].pc);
    }
  }

  lemma ClientRegisters(env: Env, h: Shared, pc: ClientPc, fails: bool)
    ensures ClientStep(env, h, pc, fails).0.active == h.active
  {
    hide Ascending;
  }

  lemma PerformRegisters(env: Env, s: World, a: Action)
    requires Inv(env, s) && AllRegistered(s)
    ensures AllRegistered(Perform(env, s, a))
  {
    hide WorkerStep, ClientStep, Held, SharedOk, ClientsOk, WorkersOk;
    match a {
      case WorkerActs(w, choice) =>
        if w < |s.workers| {
          WorkerActsRegisters(env, s, w, choice);
        }
      case ClientActs(c, fails) =>
        if c < |s.clients| {
          ClientRegisters(env, s.shared, s.clients[c], fails);
        }
      case _ =>
    }
  }

  /** In every interleaving an executor runs under the token registered for its job, which is what `cancel` signals. */
  lemma {:induction false} AlwaysRegistered(env: Env, actions: seq<Action>)
    requires env.Valid()
    ensures AllRegistered(PerformAll(env, Fresh(), actions))
    decreases |actions|
  {
    hide Perform, AllRegistered, Inv;
    if |actions| == 0 {
      FreshRegistered();
    } else {
      AlwaysInv(env, actions[..|actions| - 1]);
      AlwaysRegistered(env, actions[..|actions| - 1]);
      PerformRegisters(env, PerformAll(env, Fresh(), actions[..|actions| - 1]), actions[|actions| - 1]);
    }
  }

  lemma FreshRegistered()
    ensures AllRegistered(Fresh())
  {
  }
}
