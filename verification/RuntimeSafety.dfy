/** What holds in every interleaving: one place per job, one holder, bounded attempts, honest results. */
module RuntimeSafety {
  import opened Wrappers
  import opened Ordering
  import opened Runtime

  /* ---- The invariant ---- */

  /** Queue, running and the retired jobs are disjoint and together are all issued jobs. */
  ghost predicate Placed(h: Shared) {
    && h.files.queue.Keys !! h.files.running.Keys
    && h.files.queue.Keys !! h.files.terminal.Keys && h.files.queue.Keys !! h.pruned
    && h.files.running.Keys !! h.files.terminal.Keys && h.files.running.Keys !! h.pruned
    && h.files.queue.Keys + h.files.running.Keys + h.files.terminal.Keys + h.pruned == h.issued
    && h.issued <= h.requests.Keys
  }

  /** The job is the submitted request's, and any result it shows was returned for a request with the same key. */
  ghost predicate Honest(env: Env, h: Shared, job: Job) {
    && job.id in h.requests && h.requests[job.id] == job.request && job.key == env.key(job.request)
    && (job.result.Some? ==> Witnessed(env, h.executed, job.key, job.result.value))
    && (job.status.Succeeded? <==> job.result.Some?)
    && job.attempts <= env.maxAttempts + Recoveries(h, job.id) && EndedFairly(env, job)
  }

  /**
   * A job fails with an error, and with a retryable one only when its attempts are used up. One that ended
   * otherwise, or is running, shows none.
   */
  predicate EndedFairly(env: Env, job: Job) {
    && (job.status.Failed? ==>
          && job.error.Some? && !(job.error.value.Simulation? && job.error.value.isCancelled)
          && (job.error.value.Retryable() ==> job.attempts >= env.maxAttempts))
    && (job.status.Succeeded? || job.status.Cancelled? || job.status.Running? ==> job.error.None?)
  }

  ghost predicate QueuedOk(env: Env, h: Shared) {
    forall id :: id in h.files.queue ==>
      && h.files.queue[id].id == id && Honest(env, h, h.files.queue[id]) && h.files.queue[id].status.Queued?
      && h.files.queue[id].attempts < env.maxAttempts + Recoveries(h, id)
  }

  ghost predicate RunningOk(env: Env, h: Shared) {
    forall id :: id in h.files.running ==> h.files.running[id].id == id && Honest(env, h, h.files.running[id])
  }

  ghost predicate TerminalOk(env: Env, h: Shared) {
    forall id :: id in h.files.terminal ==>
      && h.files.terminal[id].id == id && Honest(env, h, h.files.terminal[id])
      && (if id in h.rewritten then h.files.terminal[id].status.Cancelled?
          else if id in h.moved then h.files.terminal[id].status.Queued?
          else h.files.terminal[id].status.IsTerminal())
  }

  /** What a cancellation takes out of the queue is retired for good. */
  ghost predicate MovedOk(h: Shared) {
    h.rewritten <= h.moved <= h.files.terminal.Keys + h.pruned
  }

  ghost predicate Witnessed(env: Env, executed: set<(nat, nat)>, key: nat, result: nat) {
    exists request :: (request, result) in executed && env.key(request) == key
  }

  ghost predicate CacheOk(env: Env, h: Shared) {
    forall key :: key in h.files.cache ==> Witnessed(env, h.executed, key, h.files.cache[key])
  }

  ghost predicate SharedOk(env: Env, h: Shared) {
    Placed(h) && QueuedOk(env, h) && RunningOk(env, h) && TerminalOk(env, h) && MovedOk(h) && CacheOk(env, h)
  }

  ghost predicate OutcomeOk(h: Shared, job: Job, outcome: Outcome) {
    outcome.Returned? ==> (job.request, outcome.result) in h.executed
  }

  ghost predicate WorkerOk(env: Env, h: Shared, pc: WorkerPc) {
    && (Held(pc).Some? ==> Held(pc).value in h.files.running)
    && match pc
       case Renamed(id, was) =>
         was == h.files.running[id] && was.attempts < env.maxAttempts + Recoveries(h, id) && was.status.Queued?
       case Retiring(id, _) => h.files.running[id].status.IsTerminal()
       case Returning(id, was) => was == h.files.running[id] && was.attempts < env.maxAttempts && was.status.Queued?
       case Listing => true
       case Scanning(_) => true
       case Unmarking(_) => true
       case Exited(_) => true
       case Deregistering(job, _, outcome) => InProgress(env, h, job) && OutcomeOk(h, job, outcome)
       case Rechecking(job, _, outcome) => InProgress(env, h, job) && OutcomeOk(h, job, outcome)
       case Deciding(job, _, outcome) => InProgress(env, h, job) && OutcomeOk(h, job, outcome)
       case Caching(job, result) => InProgress(env, h, job) && (job.request, result) in h.executed
       case Finishing(job, _) => Honest(env, h, job) && job.status.IsTerminal()
       case Requeueing(job) => Honest(env, h, job) && job.status.Queued? && job.attempts < env.maxAttempts
       case _ => InProgress(env, h, pc.job)
  }

  ghost predicate InProgress(env: Env, h: Shared, job: Job) {
    Honest(env, h, job) && job.status.Running?
  }

  /** The id a submission will use. */
  function Reserved(pc: ClientPc): Option<nat> {
    match pc
    case Counting(id, _) => Some(id)
    case LookingUp(id, _) => Some(id)
    case Enqueueing(job) => Some(job.id)
    case Shelving(job) => Some(job.id)
    case _ => None
  }

  ghost predicate ClientOk(env: Env, h: Shared, pc: ClientPc) {
    && (Reserved(pc).Some? ==> Reserved(pc).value in h.requests && Reserved(pc).value !in h.issued)
    && match pc
       case Counting(id, request) => h.requests[id] == request
       case LookingUp(id, request) => h.requests[id] == request
       case Enqueueing(job) => Honest(env, h, job) && job.attempts == 0 && job.status.Queued?
       case Shelving(job) => Honest(env, h, job) && job.status.IsTerminal()
       case ReadingMoved(id) => id in h.moved
       case WritingMoved(job) => Honest(env, h, job) && job.status.Cancelled? && job.id in h.moved
       case _ => true
  }

  ghost predicate RecoveryOk(env: Env, h: Shared, phase: Phase) {
    phase.Recovering? ==>
      match phase.pc
      case RecoverWrite(job, _) => job.id in h.files.running && Honest(env, h, job) && job.status.Queued?
      case RecoverCheck(id, _) => id in h.files.running && h.files.running[id].status.Queued?
      case RecoverMove(id, _) => id in h.files.running && h.files.running[id].status.Queued?
      case _ => true
  }

  ghost predicate WorkersOk(env: Env, h: Shared, workers: seq<Worker>) {
    && (forall w :: 0 <= w < |workers| ==> WorkerOk(env, h, workers[w].pc))
    && (forall v, w :: 0 <= v < w < |workers| && Held(workers[v].pc).Some? ==>
          Held(workers[v].pc) != Held(workers[w].pc))
  }

  ghost predicate ClientsOk(env: Env, h: Shared, clients: seq<ClientPc>) {
    && (forall c :: 0 <= c < |clients| ==> ClientOk(env, h, clients[c]))
    && (forall c, d :: 0 <= c < d < |clients| && Reserved(clients[c]).Some? ==>
          Reserved(clients[c]) != Reserved(clients[d]))
  }

  ghost predicate Inv(env: Env, s: World) {
    && SharedOk(env, s.shared) && WorkersOk(env, s.shared, s.workers) && ClientsOk(env, s.shared, s.clients)
    && RecoveryOk(env, s.shared, s.phase) && (!s.phase.Up? ==> s.workers == [] && s.clients == [])
  }

  /** The digest is free of collisions. */
  ghost predicate Injective(env: Env) {
    forall a, b :: env.key(a) == env.key(b) ==> a == b
  }

  /* ---- What a step may do to what others rely on ---- */

  /** Histories grow; running files other than `mine` are left alone. */
  ghost predicate Spares(h: Shared, h': Shared, mine: Option<nat>) {
    && h.executed <= h'.executed && h'.recoveries == h.recoveries && h'.requests == h.requests && h'.moved >= h.moved
    && forall id :: id in h.files.running && Some(id) != mine ==>
         id in h'.files.running && h'.files.running[id] == h.files.running[id]
  }

  /** What was witnessed stays so, and with it honesty. */
  lemma HonestGrows(env: Env, h: Shared, h': Shared)
    requires h.executed <= h'.executed && h'.recoveries == h.recoveries && h'.requests == h.requests
    ensures forall key: nat, result: nat :: Witnessed(env, h.executed, key, result) ==>
      Witnessed(env, h'.executed, key, result)
    ensures forall job :: Honest(env, h, job) ==> Honest(env, h', job)
  {
    forall key: nat, result: nat | Witnessed(env, h.executed, key, result)
      ensures Witnessed(env, h'.executed, key, result)
    {
      var r :| (r, result) in h.executed && env.key(r) == key;
      assert (r, result) in h'.executed;
    }
    hide Witnessed;
  }

  lemma OtherWorkerOk(env: Env, h: Shared, h': Shared, mine: Option<nat>, pc: WorkerPc)
    requires WorkerOk(env, h, pc) && Spares(h, h', mine) && (Held(pc).Some? ==> Held(pc) != mine)
    ensures WorkerOk(env, h', pc)
  {
    HonestGrows(env, h, h');
    hide Honest;
  }

  lemma OtherClientOk(env: Env, h: Shared, h': Shared, mine: Option<nat>, pc: ClientPc)
    requires ClientOk(env, h, pc) && h.executed <= h'.executed && h'.recoveries == h.recoveries
    requires h'.requests == h.requests
    requires h.moved <= h'.moved && forall id :: id in h'.issued && id !in h.issued ==> Some(id) == mine
    requires Reserved(pc).Some? ==> Reserved(pc) != mine
    ensures ClientOk(env, h', pc)
  {
    HonestGrows(env, h, h');
    hide Honest;
  }

  /* ---- Job updates ---- */

  lemma ClaimedIsHonest(env: Env, h: Shared, job: Job)
    requires Honest(env, h, job) && job.status.Queued? && job.attempts < env.maxAttempts + Recoveries(h, job.id)
    ensures Honest(env, h, job.Claimed())
  {
  }

  lemma HitIsHonest(env: Env, h: Shared, job: Job)
    requires Honest(env, h, job) && CacheOk(env, h) && job.key in h.files.cache
    ensures Honest(env, h, job.Hit(h.files.cache[job.key]))
  {
    assert Witnessed(env, h.executed, job.key, h.files.cache[job.key]);
  }

  lemma DoneIsHonest(env: Env, h: Shared, job: Job, result: nat)
    requires Honest(env, h, job) && (job.request, result) in h.executed
    ensures Honest(env, h, job.Done(result))
  {
    assert Witnessed(env, h.executed, job.key, result);
  }

  lemma DroppedIsHonest(env: Env, h: Shared, job: Job)
    requires Honest(env, h, job)
    ensures Honest(env, h, job.Dropped()) && Honest(env, h, job.Recovered())
  {
  }

  lemma FailedIsHonest(env: Env, h: Shared, job: Job, failure: Failure)
    requires InProgress(env, h, job)
    ensures Honest(env, h, job.Retried(failure))
    ensures (failure.Retryable() ==> job.attempts >= env.maxAttempts) ==> Honest(env, h, job.Ended(failure))
    ensures Honest(env, h, job.(status := Failed, error := Some(Infrastructure)))
  {
  }

  /* ---- File operations ---- */

  lemma UntouchedOk(env: Env, h: Shared, h': Shared)
    requires SharedOk(env, h) && h' == h.(active := h'.active, cancelled := h'.cancelled, nextToken := h'.nextToken)
    ensures SharedOk(env, h')
    ensures forall job :: Honest(env, h, job) ==> Honest(env, h', job)
  {
  }

  lemma MarksOk(env: Env, h: Shared, marks: set<nat>)
    requires SharedOk(env, h)
    ensures SharedOk(env, h.(files := h.files.(marks := marks)))
  {
  }

  lemma ExecutedOk(env: Env, h: Shared, request: nat, outcome: Outcome)
    requires SharedOk(env, h)
    ensures SharedOk(env, Executed(h, request, outcome))
    ensures forall job :: Honest(env, h, job) ==> Honest(env, Executed(h, request, outcome), job)
  {
    hide Placed;
    var h' := Executed(h, request, outcome);
    HonestGrows(env, h, h');
    hide Honest, Witnessed;
    assert Placed(h') by {
      SamePlaces(h, h');
    }
  }

  lemma SamePlaces(h: Shared, h': Shared)
    requires Placed(h) && h'.files == h.files && h'.pruned == h.pruned && h'.issued == h.issued
    requires h'.requests == h.requests
    ensures Placed(h')
  {
  }

  lemma CachingOk(env: Env, h: Shared, job: Job, result: nat)
    requires SharedOk(env, h) && Honest(env, h, job) && (job.request, result) in h.executed
    ensures SharedOk(env, h.(files := h.files.(cache := h.files.cache[job.key := result])))
  {
    assert Witnessed(env, h.executed, job.key, result);
  }

  lemma PresentIsNotMoved(h: Shared, id: nat)
    requires Placed(h) && MovedOk(h) && (id in h.files.queue || id in h.files.running)
    ensures id !in h.moved && id !in h.rewritten
  {
  }

  lemma UnissuedIsNotMoved(h: Shared, id: nat)
    requires Placed(h) && MovedOk(h) && id !in h.issued
    ensures id !in h.moved && id !in h.rewritten
  {
    assert id !in h.files.queue.Keys + h.files.running.Keys + h.files.terminal.Keys + h.pruned;
  }

  lemma ClaimPlaced(env: Env, h: Shared, id: nat)
    requires SharedOk(env, h) && id in h.files.queue
    ensures Placed(h.(files := h.files.QueueToRunning(id)))
  {
    hide QueuedOk, RunningOk, TerminalOk, MovedOk, CacheOk;
  }

  lemma ClaimOk(env: Env, h: Shared, id: nat)
    requires SharedOk(env, h) && id in h.files.queue
    ensures SharedOk(env, h.(files := h.files.QueueToRunning(id)))
  {
    ClaimPlaced(env, h, id);
    FilesHonest(env, h, h.(files := h.files.QueueToRunning(id)));
    hide Placed, Honest, CacheOk;
  }

  lemma WriteRunningOk(env: Env, h: Shared, job: Job)
    requires SharedOk(env, h) && Honest(env, h, job) && job.id in h.files.running
    ensures SharedOk(env, h.(files := h.files.WriteRunning(job)))
  {
    hide Honest;
    FilesHonest(env, h, h.(files := h.files.WriteRunning(job)));
  }

  lemma RetirePlaced(env: Env, h: Shared, id: nat)
    requires SharedOk(env, h) && id in h.files.running && h.files.running[id].status.IsTerminal()
    ensures Placed(h.(files := h.files.RunningToTerminal(id)))
  {
    hide QueuedOk, RunningOk, TerminalOk, MovedOk, CacheOk;
  }

  lemma RetireOk(env: Env, h: Shared, id: nat)
    requires SharedOk(env, h) && id in h.files.running && h.files.running[id].status.IsTerminal()
    ensures SharedOk(env, h.(files := h.files.RunningToTerminal(id)))
  {
    RetirePlaced(env, h, id);
    RetireTerminal(env, h, id);
    FilesHonest(env, h, h.(files := h.files.RunningToTerminal(id)));
    hide Placed, Honest, CacheOk, TerminalOk, MovedOk;
  }

  lemma RetireTerminal(env: Env, h: Shared, id: nat)
    requires SharedOk(env, h) && id in h.files.running && h.files.running[id].status.IsTerminal()
    ensures var h' := h.(files := h.files.RunningToTerminal(id)); TerminalOk(env, h') && MovedOk(h')
  {
    PresentIsNotMoved(h, id);
    FilesHonest(env, h, h.(files := h.files.RunningToTerminal(id)));
    hide Placed, Honest, CacheOk, QueuedOk;
  }

  lemma ReturnPlaced(env: Env, h: Shared, id: nat)
    requires SharedOk(env, h) && id in h.files.running && h.files.running[id].status.Queued?
    requires h.files.running[id].attempts < env.maxAttempts + Recoveries(h, id)
    ensures Placed(h.(files := h.files.RunningToQueue(id)))
  {
    hide QueuedOk, RunningOk, TerminalOk, MovedOk, CacheOk;
  }

  lemma ReturnOk(env: Env, h: Shared, id: nat)
    requires SharedOk(env, h) && id in h.files.running && h.files.running[id].status.Queued?
    requires h.files.running[id].attempts < env.maxAttempts + Recoveries(h, id)
    ensures SharedOk(env, h.(files := h.files.RunningToQueue(id)))
  {
    ReturnPlaced(env, h, id);
    FilesHonest(env, h, h.(files := h.files.RunningToQueue(id)));
    hide Placed, Honest, CacheOk;
  }

  lemma CancelPlaced(env: Env, h: Shared, id: nat)
    requires SharedOk(env, h) && id in h.files.queue
    ensures Placed(h.(files := h.files.QueueToTerminal(id), moved := h.moved + {id}))
  {
    hide QueuedOk, RunningOk, TerminalOk, MovedOk, CacheOk;
  }

  lemma CancelOk(env: Env, h: Shared, id: nat)
    requires SharedOk(env, h) && id in h.files.queue
    ensures SharedOk(env, h.(files := h.files.QueueToTerminal(id), moved := h.moved + {id}))
  {
    CancelPlaced(env, h, id);
    CancelRetires(env, h, id);
    FilesHonest(env, h, h.(files := h.files.QueueToTerminal(id), moved := h.moved + {id}));
    hide Placed, Honest, CacheOk, TerminalOk, MovedOk;
  }

  lemma CancelRetires(env: Env, h: Shared, id: nat)
    requires SharedOk(env, h) && id in h.files.queue
    ensures var h' := h.(files := h.files.QueueToTerminal(id), moved := h.moved + {id});
            TerminalOk(env, h') && MovedOk(h')
  {
    PresentIsNotMoved(h, id);
    FilesHonest(env, h, h.(files := h.files.QueueToTerminal(id), moved := h.moved + {id}));
    hide Placed, Honest, CacheOk, RunningOk;
  }

  /** Honesty does not depend on the files. */
  lemma FilesHonest(env: Env, h: Shared, h': Shared)
    requires h'.requests == h.requests && h'.executed == h.executed && h'.recoveries == h.recoveries
    ensures forall job :: Honest(env, h, job) <==> Honest(env, h', job)
    ensures forall id :: Recoveries(h, id) == Recoveries(h', id)
  {
  }

  /* ---- Workers ---- */

  /** What one worker step guarantees. */
  ghost predicate WorkerStepOk(env: Env, h: Shared, pc: WorkerPc, h': Shared, pc': WorkerPc) {
    && SharedOk(env, h') && WorkerOk(env, h', pc') && h'.issued == h.issued
    && (Held(pc').Some? ==> Held(pc') == Held(pc) || (Held(pc).None? && Held(pc').value !in h.files.running))
    && Spares(h, h', if Held(pc).Some? then Held(pc) else Held(pc'))
  }

  /** A step that ends in an error ends the worker, and nothing else. */
  lemma FailedStepOk(env: Env, h: Shared, pc: WorkerPc, choice: Choice)
    requires env.Valid() && SharedOk(env, h) && WorkerOk(env, h, pc) && choice.Fail? && !Infallible(pc)
    ensures var (h', pc') := WorkerStep(env, h, pc, choice); WorkerStepOk(env, h, pc, h', pc')
  {
    hide Honest, SharedOk, Ascending;
  }

  /** Steps that hold no job. */
  lemma IdleStepOk(env: Env, h: Shared, pc: WorkerPc, choice: Choice)
    requires env.Valid() && SharedOk(env, h) && WorkerOk(env, h, pc) && (pc.Listing? || pc.Exited?)
    ensures var (h', pc') := WorkerStep(env, h, pc, choice); WorkerStepOk(env, h, pc, h', pc')
  {
    hide Honest, SharedOk, Ascending;
  }

  /** Reading the claimed file. */
  lemma RenamedStepOk(env: Env, h: Shared, pc: WorkerPc, choice: Choice)
    requires env.Valid() && SharedOk(env, h) && WorkerOk(env, h, pc) && pc.Renamed? && choice.Go?
    ensures var (h', pc') := WorkerStep(env, h, pc, choice); WorkerStepOk(env, h, pc, h', pc')
  {
    hide Honest, SharedOk, Ascending;
    RunningFacts(env, h, pc.id);
    ClaimedIsHonest(env, h, pc.was);
  }

  /** Looking into the cache. */
  lemma ProbingStepOk(env: Env, h: Shared, pc: WorkerPc, choice: Choice)
    requires env.Valid() && SharedOk(env, h) && WorkerOk(env, h, pc) && pc.Probing? && choice.Go?
    ensures var (h', pc') := WorkerStep(env, h, pc, choice); WorkerStepOk(env, h, pc, h', pc')
  {
    hide Honest, SharedOk, Ascending;
    if pc.job.key in h.files.cache {
      CachedIsHonest(env, h, pc.job);
    }
  }

  lemma CachedIsHonest(env: Env, h: Shared, job: Job)
    requires SharedOk(env, h) && Honest(env, h, job) && job.key in h.files.cache
    ensures Honest(env, h, job.Hit(h.files.cache[job.key]))
  {
    HitIsHonest(env, h, job);
  }

  lemma DecideStepOk(env: Env, h: Shared, pc: WorkerPc, choice: Choice)
    requires SharedOk(env, h) && WorkerOk(env, h, pc) && pc.Deciding?
    ensures var (h', pc') := WorkerStep(env, h, pc, choice); WorkerStepOk(env, h, pc, h', pc')
  {
    hide SharedOk, Honest;
    DroppedIsHonest(env, h, pc.job);
    FailedIsHonest(env, h, pc.job, if pc.outcome.Refused? then pc.outcome.failure else Infrastructure);
  }

  /** Steps on locks and tokens. */
  lemma LockStepOk(env: Env, h: Shared, pc: WorkerPc, choice: Choice)
    requires env.Valid() && SharedOk(env, h) && WorkerOk(env, h, pc)
    requires pc.Registering? || pc.CheckingMark? || pc.Deregistering? || pc.Rechecking?
    ensures var (h', pc') := WorkerStep(env, h, pc, choice); WorkerStepOk(env, h, pc, h', pc')
  {
    hide Honest, SharedOk;
    UntouchedOk(env, h, WorkerStep(env, h, pc, choice).0);
  }

  /** Running the executor. */
  lemma ExecutingStepOk(env: Env, h: Shared, pc: WorkerPc, choice: Choice)
    requires env.Valid() && SharedOk(env, h) && WorkerOk(env, h, pc) && pc.Executing?
    ensures var (h', pc') := WorkerStep(env, h, pc, choice); WorkerStepOk(env, h, pc, h', pc')
  {
    hide Honest, SharedOk, Ascending;
    ExecutedOk(env, h, pc.job.request, if choice.Go? then choice.outcome else Panicked);
  }

  /** Storing the result. */
  lemma CachingStepOk(env: Env, h: Shared, pc: WorkerPc, choice: Choice)
    requires env.Valid() && SharedOk(env, h) && WorkerOk(env, h, pc) && pc.Caching? && choice.Go?
    ensures var (h', pc') := WorkerStep(env, h, pc, choice); WorkerStepOk(env, h, pc, h', pc')
  {
    hide Honest, SharedOk, Ascending;
    CachingOk(env, h, pc.job, pc.result);
    DoneIsHonest(env, h, pc.job, pc.result);
    FilesHonest(env, h, h.(files := h.files.(cache := h.files.cache[pc.job.key := pc.result])));
  }

  /** Removing the mark. */
  lemma UnmarkingStepOk(env: Env, h: Shared, pc: WorkerPc, choice: Choice)
    requires env.Valid() && SharedOk(env, h) && WorkerOk(env, h, pc) && pc.Unmarking?
    ensures var (h', pc') := WorkerStep(env, h, pc, choice); WorkerStepOk(env, h, pc, h', pc')
  {
    hide Honest, SharedOk, Ascending;
    MarksOk(env, h, h.files.marks - {pc.id});
  }

  lemma ScanStepOk(env: Env, h: Shared, pc: WorkerPc, choice: Choice)
    requires env.Valid() && SharedOk(env, h) && WorkerOk(env, h, pc) && pc.Scanning?
    ensures var (h', pc') := WorkerStep(env, h, pc, choice); WorkerStepOk(env, h, pc, h', pc')
  {
    hide SharedOk, Honest;
    if choice.Go? && |pc.rest| > 0 && pc.rest[0] in h.files.queue {
      ClaimOk(env, h, pc.rest[0]);
      QueuedFacts(env, h, pc.rest[0]);
    }
  }

  lemma QueuedFacts(env: Env, h: Shared, id: nat)
    requires SharedOk(env, h) && id in h.files.queue
    ensures id !in h.files.running && h.files.queue[id].attempts < env.maxAttempts + Recoveries(h, id)
    ensures h.files.queue[id].id == id && Honest(env, h, h.files.queue[id]) && h.files.queue[id].status.Queued?
  {
  }

  /** Writing the job as running. */
  lemma AnnouncingStepOk(env: Env, h: Shared, pc: WorkerPc, choice: Choice)
    requires env.Valid() && SharedOk(env, h) && WorkerOk(env, h, pc) && pc.Announcing? && choice.Go?
    ensures var (h', pc') := WorkerStep(env, h, pc, choice); WorkerStepOk(env, h, pc, h', pc')
  {
    hide Honest, SharedOk, Ascending;
    WriteRunningOk(env, h, pc.job);
    FilesHonest(env, h, h.(files := h.files.WriteRunning(pc.job)));
  }

  /** Writing the job as ended. */
  lemma FinishingStepOk(env: Env, h: Shared, pc: WorkerPc, choice: Choice)
    requires env.Valid() && SharedOk(env, h) && WorkerOk(env, h, pc) && pc.Finishing? && choice.Go?
    ensures var (h', pc') := WorkerStep(env, h, pc, choice); WorkerStepOk(env, h, pc, h', pc')
  {
    hide Honest, SharedOk, Ascending;
    WriteRunningOk(env, h, pc.job);
    FilesHonest(env, h, h.(files := h.files.WriteRunning(pc.job)));
  }

  /** Writing the job as queued again. */
  lemma RequeueingStepOk(env: Env, h: Shared, pc: WorkerPc, choice: Choice)
    requires env.Valid() && SharedOk(env, h) && WorkerOk(env, h, pc) && pc.Requeueing? && choice.Go?
    ensures var (h', pc') := WorkerStep(env, h, pc, choice); WorkerStepOk(env, h, pc, h', pc')
  {
    hide Honest, SharedOk, Ascending;
    WriteRunningOk(env, h, pc.job);
    FilesHonest(env, h, h.(files := h.files.WriteRunning(pc.job)));
  }

  /** The rename into the terminal directory. */
  lemma RetiringStepOk(env: Env, h: Shared, pc: WorkerPc, choice: Choice)
    requires env.Valid() && SharedOk(env, h) && WorkerOk(env, h, pc) && pc.Retiring? && choice.Go?
    ensures var (h', pc') := WorkerStep(env, h, pc, choice); WorkerStepOk(env, h, pc, h', pc')
  {
    hide Honest, SharedOk, Ascending;
    RetireOk(env, h, pc.id);
  }

  /** The rename back into the queue. */
  lemma ReturningStepOk(env: Env, h: Shared, pc: WorkerPc, choice: Choice)
    requires env.Valid() && SharedOk(env, h) && WorkerOk(env, h, pc) && pc.Returning? && choice.Go?
    ensures var (h', pc') := WorkerStep(env, h, pc, choice); WorkerStepOk(env, h, pc, h', pc')
  {
    hide Honest, SharedOk, Ascending;
    ReturnOk(env, h, pc.id);
  }

  lemma AnyWorkerStepOk(env: Env, h: Shared, pc: WorkerPc, choice: Choice)
    requires env.Valid() && SharedOk(env, h) && WorkerOk(env, h, pc)
    ensures var (h', pc') := WorkerStep(env, h, pc, choice); WorkerStepOk(env, h, pc, h', pc')
  {
    hide SharedOk, WorkerOk, WorkerStepOk, WorkerStep;
    if choice.Fail? && !Infallible(pc) {
      FailedStepOk(env, h, pc, choice);
    } else {
      match pc {
        case Listing => IdleStepOk(env, h, pc, choice);
        case Scanning(_) => ScanStepOk(env, h, pc, choice);
        case Renamed(_, _) => RenamedStepOk(env, h, pc, choice);
        case Announcing(_) => AnnouncingStepOk(env, h, pc, choice);
        case Probing(_) => ProbingStepOk(env, h, pc, choice);
        case Executing(_, _) => ExecutingStepOk(env, h, pc, choice);
        case Deciding(_, _, _) => DecideStepOk(env, h, pc, choice);
        case Caching(_, _) => CachingStepOk(env, h, pc, choice);
        case Finishing(_, _) => FinishingStepOk(env, h, pc, choice);
        case Retiring(_, _) => RetiringStepOk(env, h, pc, choice);
        case Unmarking(_) => UnmarkingStepOk(env, h, pc, choice);
        case Requeueing(_) => RequeueingStepOk(env, h, pc, choice);
        case Returning(_, _) => ReturningStepOk(env, h, pc, choice);
        case Exited(_) => IdleStepOk(env, h, pc, choice);
        case _ => LockStepOk(env, h, pc, choice);
      }
    }
  }

  lemma WorkerActsKeepsInv(env: Env, s: World, w: nat, choice: Choice)
    requires env.Valid() && Inv(env, s) && w < |s.workers|
    ensures Inv(env, Perform(env, s, WorkerActs(w, choice)))
  {
    hide SharedOk, WorkerOk, ClientOk;
    var pc := s.workers[w].pc;
    AnyWorkerStepOk(env, s.shared, pc, choice);
    var (h', pc') := WorkerStep(env, s.shared, pc, choice);
    var mine := if Held(pc).Some? then Held(pc) else Held(pc');
    forall v | 0 <= v < |s.workers| && v != w
      ensures WorkerOk(env, h', s.workers[v].pc) && (Held(pc').Some? ==> Held(s.workers[v].pc) != Held(pc'))
    {
      HeldIsRunning(env, s.shared, s.workers[v].pc);
      OtherWorkerOk(env, s.shared, h', mine, s.workers[v].pc);
    }
    forall c | 0 <= c < |s.clients|
      ensures ClientOk(env, h', s.clients[c])
    {
      OtherClientOk(env, s.shared, h', None, s.clients[c]);
    }
  }

  lemma HeldIsRunning(env: Env, h: Shared, pc: WorkerPc)
    requires WorkerOk(env, h, pc)
    ensures Held(pc).Some? ==> Held(pc).value in h.files.running
  {
  }

  /* ---- Clients ---- */

  /** What one client step guarantees. */
  ghost predicate ClientStepOk(env: Env, h: Shared, pc: ClientPc, h': Shared, pc': ClientPc) {
    && SharedOk(env, h') && ClientOk(env, h', pc') && Spares(h, h', None) && h'.executed == h.executed
    && (Reserved(pc').Some? ==> Reserved(pc') == Reserved(pc))
    && (forall id :: id in h'.issued && id !in h.issued ==> Some(id) == Reserved(pc))
  }

  lemma SubmittedIsHonest(env: Env, h: Shared, id: nat, request: nat)
    requires SharedOk(env, h) && id in h.requests && h.requests[id] == request
    ensures Honest(env, h, Job(id, request, env.key(request), Queued, 0, false, None, None))
    ensures env.key(request) in h.files.cache ==>
              Honest(env, h, Job(id, request, env.key(request), Succeeded, 0, true,
                                 Some(h.files.cache[env.key(request)]), None))
  {
    if env.key(request) in h.files.cache {
      assert Witnessed(env, h.executed, env.key(request), h.files.cache[env.key(request)]);
    }
  }

  lemma EnqueuePlaced(env: Env, h: Shared, job: Job)
    requires env.Valid() && SharedOk(env, h) && Honest(env, h, job) && job.status.Queued? && job.attempts == 0
    requires job.id !in h.issued
    ensures Placed(h.(files := h.files.(queue := h.files.queue[job.id := job]), issued := h.issued + {job.id}))
  {
    hide QueuedOk, RunningOk, TerminalOk, MovedOk, CacheOk;
    assert h.files.queue[job.id := job].Keys == h.files.queue.Keys + {job.id};
  }

  lemma EnqueueOk(env: Env, h: Shared, job: Job)
    requires env.Valid() && SharedOk(env, h) && Honest(env, h, job) && job.status.Queued? && job.attempts == 0
    requires job.id !in h.issued
    ensures SharedOk(env, h.(files := h.files.(queue := h.files.queue[job.id := job]), issued := h.issued + {job.id}))
  {
    EnqueuePlaced(env, h, job);
    FilesHonest(env, h, h.(files := h.files.(queue := h.files.queue[job.id := job]), issued := h.issued + {job.id}));
    hide Placed, Honest, CacheOk;
  }

  lemma ShelvePlaced(env: Env, h: Shared, job: Job)
    requires SharedOk(env, h) && Honest(env, h, job) && job.status.IsTerminal() && job.id !in h.issued
    ensures Placed(h.(files := h.files.(terminal := h.files.terminal[job.id := job]), issued := h.issued + {job.id}))
  {
    hide QueuedOk, RunningOk, TerminalOk, MovedOk, CacheOk;
    assert h.files.terminal[job.id := job].Keys == h.files.terminal.Keys + {job.id};
  }

  lemma ShelveOk(env: Env, h: Shared, job: Job)
    requires SharedOk(env, h) && Honest(env, h, job) && job.status.IsTerminal() && job.id !in h.issued
    ensures SharedOk(env, h.(files := h.files.(terminal := h.files.terminal[job.id := job]),
                             issued := h.issued + {job.id}))
  {
    ShelvePlaced(env, h, job);
    UnissuedIsNotMoved(h, job.id);
    FilesHonest(env, h, h.(files := h.files.(terminal := h.files.terminal[job.id := job]),
                           issued := h.issued + {job.id}));
    hide Placed, Honest, CacheOk;
  }

  lemma RewriteTerminalPlaced(env: Env, h: Shared, job: Job)
    requires SharedOk(env, h) && job.id in h.moved
    ensures Placed(h.(files := h.files.(terminal := h.files.terminal[job.id := job]),
                      rewritten := h.rewritten + {job.id}))
  {
    hide QueuedOk, RunningOk, TerminalOk, CacheOk;
    assert h.files.terminal[job.id := job].Keys == h.files.terminal.Keys + {job.id};
  }

  lemma RewriteTerminalOk(env: Env, h: Shared, job: Job)
    requires SharedOk(env, h) && Honest(env, h, job) && job.status.Cancelled? && job.id in h.moved
    ensures SharedOk(env, h.(files := h.files.(terminal := h.files.terminal[job.id := job]),
                             rewritten := h.rewritten + {job.id}))
  {
    RewriteTerminalPlaced(env, h, job);
    RewriteRetires(env, h, job);
    FilesHonest(env, h, h.(files := h.files.(terminal := h.files.terminal[job.id := job]),
                           rewritten := h.rewritten + {job.id}));
    hide Placed, Honest, CacheOk, TerminalOk, MovedOk;
  }

  lemma RewriteRetires(env: Env, h: Shared, job: Job)
    requires SharedOk(env, h) && Honest(env, h, job) && job.status.Cancelled? && job.id in h.moved
    ensures var h' := h.(files := h.files.(terminal := h.files.terminal[job.id := job]),
                         rewritten := h.rewritten + {job.id});
            TerminalOk(env, h') && MovedOk(h')
  {
    FilesHonest(env, h, h.(files := h.files.(terminal := h.files.terminal[job.id := job]),
                           rewritten := h.rewritten + {job.id}));
    hide Placed, Honest, CacheOk, QueuedOk, RunningOk;
  }

  lemma PrunePlaced(env: Env, h: Shared, id: nat)
    requires SharedOk(env, h) && id in h.files.terminal
    ensures Placed(h.(files := h.files.(terminal := h.files.terminal - {id}), pruned := h.pruned + {id}))
  {
    hide QueuedOk, RunningOk, TerminalOk, MovedOk, CacheOk;
    assert (h.files.terminal - {id}).Keys == h.files.terminal.Keys - {id};
  }

  lemma PruneOk(env: Env, h: Shared, id: nat)
    requires SharedOk(env, h) && id in h.files.terminal
    ensures SharedOk(env, h.(files := h.files.(terminal := h.files.terminal - {id}), pruned := h.pruned + {id}))
  {
    PrunePlaced(env, h, id);
    FilesHonest(env, h, h.(files := h.files.(terminal := h.files.terminal - {id}), pruned := h.pruned + {id}));
    hide Placed, Honest, CacheOk;
  }

  lemma TerminalFacts(env: Env, h: Shared, id: nat)
    requires SharedOk(env, h) && id in h.files.terminal
    ensures h.files.terminal[id].id == id && Honest(env, h, h.files.terminal[id].Dropped())
  {
    DroppedIsHonest(env, h, h.files.terminal[id]);
  }

  lemma SubmitStepOk(env: Env, h: Shared, pc: ClientPc)
    requires env.Valid() && SharedOk(env, h) && ClientOk(env, h, pc)
    requires pc.Counting? || pc.LookingUp? || pc.Enqueueing? || pc.Shelving?
    ensures var (h', pc') := ClientStep(env, h, pc, false); ClientStepOk(env, h, pc, h', pc')
  {
    hide SharedOk, Honest;
    match pc {
      case LookingUp(id, request) => SubmittedIsHonest(env, h, id, request);
      case Enqueueing(job) => EnqueueOk(env, h, job);
      case Shelving(job) => ShelveOk(env, h, job);
      case _ =>
    }
  }

  lemma PruneStepOk(env: Env, h: Shared, pc: ClientPc)
    requires env.Valid() && SharedOk(env, h) && ClientOk(env, h, pc) && (pc.ListingTerminal? || pc.Pruning?)
    ensures var (h', pc') := ClientStep(env, h, pc, false); ClientStepOk(env, h, pc, h', pc')
  {
    hide SharedOk, Honest, Ascending;
    if pc.Pruning? && |pc.rest| > 0 && pc.rest[0] in h.files.terminal {
      PruneOk(env, h, pc.rest[0]);
    }
  }

  lemma CancelStepOk(env: Env, h: Shared, pc: ClientPc)
    requires env.Valid() && SharedOk(env, h) && ClientOk(env, h, pc)
    requires (pc.MovingQueued? || pc.ReadingMoved? || pc.WritingMoved?)
    ensures var (h', pc') := ClientStep(env, h, pc, false); ClientStepOk(env, h, pc, h', pc')
  {
    hide SharedOk, Honest;
    match pc {
      case MovingQueued(id) =>
        if id in h.files.queue {
          CancelOk(env, h, id);
        }
      case ReadingMoved(id) =>
        if id in h.files.terminal {
          TerminalFacts(env, h, id);
        }
      case WritingMoved(job) => RewriteTerminalOk(env, h, job);
    }
  }

  /** Steps on marks and tokens. */
  lemma MarkStepOk(env: Env, h: Shared, pc: ClientPc)
    requires env.Valid() && SharedOk(env, h) && ClientOk(env, h, pc)
    requires (pc.Marking? || pc.ClearingMark? || pc.Flagging?)
    ensures var (h', pc') := ClientStep(env, h, pc, false); ClientStepOk(env, h, pc, h', pc')
  {
    hide SharedOk, Honest;
    match pc {
      case Marking(id) => MarksOk(env, h, h.files.marks + {id});
      case ClearingMark(id) => MarksOk(env, h, h.files.marks - {id});
      case Flagging(id, token) => UntouchedOk(env, h, h.(cancelled := h.cancelled + {token}));
    }
  }

  /** Steps that only look. */
  lemma LookStepOk(env: Env, h: Shared, pc: ClientPc)
    requires env.Valid() && SharedOk(env, h) && ClientOk(env, h, pc)
    requires pc.LookingQueued? || pc.Signalling? || pc.Getting? || pc.Reading? || pc.Finished?
    ensures var (h', pc') := ClientStep(env, h, pc, false); ClientStepOk(env, h, pc, h', pc')
  {
    hide SharedOk, Honest;
  }

  lemma AnyClientStepOk(env: Env, h: Shared, pc: ClientPc, fails: bool)
    requires env.Valid() && SharedOk(env, h) && ClientOk(env, h, pc)
    ensures var (h', pc') := ClientStep(env, h, pc, fails); ClientStepOk(env, h, pc, h', pc')
  {
    hide SharedOk;
    if !fails {
      hide ClientOk, ClientStepOk;
      match pc {
        case Counting(_, _) => SubmitStepOk(env, h, pc);
        case LookingUp(_, _) => SubmitStepOk(env, h, pc);
        case Enqueueing(_) => SubmitStepOk(env, h, pc);
        case Shelving(_) => SubmitStepOk(env, h, pc);
        case ListingTerminal => PruneStepOk(env, h, pc);
        case Pruning(_) => PruneStepOk(env, h, pc);
        case MovingQueued(_) => CancelStepOk(env, h, pc);
        case ReadingMoved(_) => CancelStepOk(env, h, pc);
        case WritingMoved(_) => CancelStepOk(env, h, pc);
        case Marking(_) => MarkStepOk(env, h, pc);
        case ClearingMark(_) => MarkStepOk(env, h, pc);
        case Flagging(_, _) => MarkStepOk(env, h, pc);
        case _ => LookStepOk(env, h, pc);
      }
    }
  }

  lemma ClientActsKeepsInv(env: Env, s: World, c: nat, fails: bool)
    requires env.Valid() && Inv(env, s) && c < |s.clients|
    ensures Inv(env, Perform(env, s, ClientActs(c, fails)))
  {
    hide SharedOk, WorkerOk, ClientOk;
    AnyClientStepOk(env, s.shared, s.clients[c], fails);
    var (h', pc') := ClientStep(env, s.shared, s.clients[c], fails);
    forall w | 0 <= w < |s.workers|
      ensures WorkerOk(env, h', s.workers[w].pc)
    {
      OtherWorkerOk(env, s.shared, h', None, s.workers[w].pc);
    }
    forall d | 0 <= d < |s.clients| && d != c
      ensures ClientOk(env, h', s.clients[d])
    {
      OtherClientOk(env, s.shared, h', Reserved(s.clients[c]), s.clients[d]);
    }
  }

  /* ---- Recovery ---- */

  lemma RecoverMoveOk(env: Env, h: Shared, id: nat)
    requires SharedOk(env, h) && id in h.files.running && h.files.running[id].status.Queued?
    ensures SharedOk(env, h.(files := h.files.RunningToQueue(id),
                             recoveries := h.recoveries[id := Recoveries(h, id) + 1]))
  {
    var h1 := h.(recoveries := h.recoveries[id := Recoveries(h, id) + 1]);
    MoreRecoveriesOk(env, h, id);
    RunningFacts(env, h, id);
    ReturnOk(env, h1, id);
  }

  lemma RunningFacts(env: Env, h: Shared, id: nat)
    requires SharedOk(env, h) && id in h.files.running
    ensures h.files.running[id].id == id && h.files.running[id].attempts <= env.maxAttempts + Recoveries(h, id)
    ensures id !in h.files.queue && Honest(env, h, h.files.running[id])
        && Honest(env, h, h.files.running[id].Recovered())
  {
  }

  lemma MoreRecoveriesOk(env: Env, h: Shared, id: nat)
    requires SharedOk(env, h)
    ensures SharedOk(env, h.(recoveries := h.recoveries[id := Recoveries(h, id) + 1]))
  {
    var h' := h.(recoveries := h.recoveries[id := Recoveries(h, id) + 1]);
    assert forall other :: Recoveries(h, other) <= Recoveries(h', other);
    assert forall job :: Honest(env, h, job) ==> Honest(env, h', job);
    hide Honest, Recoveries;
  }

  lemma AnyRecoveryStepOk(env: Env, h: Shared, pc: RecoveryPc, fails: bool)
    requires env.Valid() && SharedOk(env, h) && RecoveryOk(env, h, Recovering(pc))
    ensures var (h', phase) := RecoveryStep(h, pc, fails);
            && SharedOk(env, h') && RecoveryOk(env, h', phase)
            && (!fails && pc.RecoverCheck? ==> phase.Recovering?)
  {
    hide SharedOk, Honest;
    if !fails {
      match pc {
        case RecoverNext(rest) =>
          if |rest| > 0 && rest[0] in h.files.running {
            RunningFacts(env, h, rest[0]);
          }
        case RecoverWrite(job, rest) => WriteRunningOk(env, h, job);
        case RecoverCheck(id, rest) => RunningFacts(env, h, id);
        case RecoverMove(id, rest) => RecoverMoveOk(env, h, id);
        case _ =>
      }
    }
  }

  /** The `runtime_recovery_conflict` branch is dead: recovery fails only on input/output errors. */
  lemma RecoveryStepKeepsInv(env: Env, s: World, fails: bool)
    requires env.Valid() && Inv(env, s) && s.phase.Recovering?
    ensures Inv(env, Perform(env, s, RecoveryActs(fails)))
    ensures !fails && s.phase.pc.RecoverCheck? ==> Perform(env, s, RecoveryActs(fails)).phase.Recovering?
  {
    hide SharedOk, RecoveryOk, RecoveryStep;
    AnyRecoveryStepOk(env, s.shared, s.phase.pc, fails);
  }

  /* ---- The rest, and all interleavings ---- */

  lemma RequestOk(env: Env, h: Shared, id: nat, request: nat)
    requires SharedOk(env, h) && id !in h.requests
    ensures var h' := h.(requests := h.requests[id := request]);
            SharedOk(env, h') && ClientOk(env, h', Counting(id, request))
  {
    var h' := h.(requests := h.requests[id := request]);
    assert forall job :: Honest(env, h, job) ==> Honest(env, h', job);
    hide Honest;
  }

  lemma SubmitKeepsInv(env: Env, s: World, id: nat, request: nat)
    requires env.Valid() && Inv(env, s) && s.phase.Up? && id !in s.shared.requests
    ensures Inv(env, Perform(env, s, Submit(id, request)))
  {
    RequestOk(env, s.shared, id, request);
    SubmitterOk(env, s, id, request);
  }

  /** A new request disturbs neither workers nor clients. */
  lemma OthersUnderRequest(env: Env, h: Shared, id: nat, request: nat)
    requires Placed(h) && id !in h.requests
    ensures var h' := h.(requests := h.requests[id := request]);
            && (forall pc :: WorkerOk(env, h, pc) ==> WorkerOk(env, h', pc))
            && (forall pc :: ClientOk(env, h, pc) ==> ClientOk(env, h', pc) && Reserved(pc) != Some(id))
  {
    var h' := h.(requests := h.requests[id := request]);
    assert forall job :: Honest(env, h, job) ==> Honest(env, h', job);
    hide Honest, Placed;
  }

  lemma SubmitterOk(env: Env, s: World, id: nat, request: nat)
    requires Inv(env, s) && id !in s.shared.requests
    ensures var h' := s.shared.(requests := s.shared.requests[id := request]);
            WorkersOk(env, h', s.workers) && ClientsOk(env, h', s.clients + [Counting(id, request)])
  {
    OthersUnderRequest(env, s.shared, id, request);
    RequestOk(env, s.shared, id, request);
    hide WorkerOk, ClientOk, SharedOk;
  }

  lemma CrashKeepsInv(env: Env, s: World)
    requires Inv(env, s)
    ensures Inv(env, Perform(env, s, Crash))
  {
    UntouchedOk(env, s.shared, s.shared.(active := map[]));
  }

  lemma PerformKeepsInv(env: Env, s: World, a: Action)
    requires env.Valid() && Inv(env, s)
    ensures Inv(env, Perform(env, s, a))
  {
    hide WorkerStep, ClientStep, RecoveryStep, SharedOk, WorkersOk, ClientsOk, RecoveryOk;
    match a {
      case WorkerActs(w, choice) =>
        if w < |s.workers| {
          WorkerActsKeepsInv(env, s, w, choice);
        }
      case ClientActs(c, fails) =>
        if c < |s.clients| {
          ClientActsKeepsInv(env, s, c, fails);
        }
      case RecoveryActs(fails) =>
        if s.phase.Recovering? {
          RecoveryStepKeepsInv(env, s, fails);
        }
      case Submit(id, request) =>
        if s.phase.Up? && id !in s.shared.requests {
          SubmitKeepsInv(env, s, id, request);
        }
      case Crash => CrashKeepsInv(env, s);
      case _ => StartKeepsInv(env, s, a);
    }
  }

  lemma StartKeepsInv(env: Env, s: World, a: Action)
    requires Inv(env, s) && (a.Spawn? || a.Cancel? || a.Prune? || a.Open?)
    ensures Inv(env, Perform(env, s, a))
  {
    hide SharedOk;
  }

  /** Every reachable state satisfies the invariant, whatever the interleaving. */
  lemma {:induction false} AlwaysInv(env: Env, actions: seq<Action>)
    requires env.Valid()
    ensures Inv(env, PerformAll(env, Fresh(), actions))
    decreases |actions|
  {
    hide Inv, Perform;
    if |actions| == 0 {
      FreshInv(env);
    } else {
      AlwaysInv(env, actions[..|actions| - 1]);
      PerformKeepsInv(env, PerformAll(env, Fresh(), actions[..|actions| - 1]), actions[|actions| - 1]);
    }
  }

  lemma FreshInv(env: Env)
    ensures Inv(env, Fresh())
  {
  }

  /* ---- What it means ---- */

  function InPlace(m: map<nat, Job>, id: nat): nat {
    if id in m then 1 else 0
  }

  /** How many of the three directories hold a file for the job. */
  function Places(h: Shared, id: nat): nat {
    InPlace(h.files.queue, id) + InPlace(h.files.running, id) + InPlace(h.files.terminal, id)
  }

  /**
   * In every interleaving of submissions, workers, cancellations, pruning, crashes and recoveries: each job is
   * in at most one directory, in exactly one from its first file on until it is pruned, and never in the
   * hands of two workers.
   */
  lemma OnePlacePerJob(env: Env, actions: seq<Action>)
    requires env.Valid()
    ensures var s := PerformAll(env, Fresh(), actions);
            && (forall id :: Places(s.shared, id) <= 1)
            && (forall id :: id in s.shared.issued && id !in s.shared.pruned ==> Places(s.shared, id) == 1)
            && (forall id :: Places(s.shared, id) == 1 ==> id in s.shared.issued)
            && (forall v, w :: 0 <= v < w < |s.workers| && Held(s.workers[v].pc).Some? ==>
                  Held(s.workers[v].pc) != Held(s.workers[w].pc))
            && (forall w :: 0 <= w < |s.workers| && Held(s.workers[w].pc).Some? ==>
                  Held(s.workers[w].pc).value in s.shared.files.running)
  {
    hide PerformAll;
    AlwaysInv(env, actions);
    var s := PerformAll(env, Fresh(), actions);
    forall w | 0 <= w < |s.workers|
      ensures Held(s.workers[w].pc).Some? ==> Held(s.workers[w].pc).value in s.shared.files.running
    {
      HeldIsRunning(env, s.shared, s.workers[w].pc);
    }
    PlacesFacts(s.shared);
  }

  lemma PlacesFacts(h: Shared)
    requires Placed(h)
    ensures forall id :: Places(h, id) <= 1 && (id in h.issued && id !in h.pruned ==> Places(h, id) == 1)
    ensures forall id :: Places(h, id) == 1 ==> id in h.issued
  {
    forall id
      ensures Places(h, id) <= 1 && (id in h.issued && id !in h.pruned ==> Places(h, id) == 1)
      ensures Places(h, id) == 1 ==> id in h.issued
    {
      assert id in h.issued <==> id in h.files.queue.Keys + h.files.running.Keys + h.files.terminal.Keys + h.pruned;
    }
  }

  /** The job file with this id, wherever it is. */
  ghost predicate Stored(h: Shared, id: nat, job: Job) {
    || (id in h.files.queue && h.files.queue[id] == job)
    || (id in h.files.running && h.files.running[id] == job)
    || (id in h.files.terminal && h.files.terminal[id] == job)
  }

  /**
   * No job is ever attempted more than `max_attempts` times, plus once for each time a crash returned it to
   * the queue.
   */
  lemma AttemptsAreBounded(env: Env, actions: seq<Action>, id: nat, job: Job)
    requires env.Valid()
    requires Stored(PerformAll(env, Fresh(), actions).shared, id, job)
    ensures job.attempts <= env.maxAttempts + Recoveries(PerformAll(env, Fresh(), actions).shared, id)
  {
    hide PerformAll;
    AlwaysInv(env, actions);
  }

  /**
   * Retries are used up: a job says Failed with a retryable failure only after `max_attempts` attempts, and never
   * because its executor reported a cancellation. Whatever ends otherwise, or runs, shows no error.
   */
  lemma RetriesAreUsedUp(env: Env, actions: seq<Action>, id: nat, job: Job)
    requires env.Valid() && Stored(PerformAll(env, Fresh(), actions).shared, id, job)
    ensures job.status.Failed? ==>
              && job.error.Some? && !(job.error.value.Simulation? && job.error.value.isCancelled)
              && (job.error.value.Simulation? && job.error.value.isRetryable ==> job.attempts >= env.maxAttempts)
    ensures job.status.Succeeded? || job.status.Cancelled? || job.status.Running? ==> job.error.None?
  {
    hide PerformAll;
    AlwaysInv(env, actions);
  }

  /**
   * Whatever was cached, retried, recovered or cancelled on the way: a job marked Succeeded shows a result that
   * the executor returned for a request with its cache key - with a collision-free digest, for its own request.
   */
  lemma ResultsAreHonest(env: Env, actions: seq<Action>, id: nat, job: Job)
    requires env.Valid()
    requires Stored(PerformAll(env, Fresh(), actions).shared, id, job) && job.status.Succeeded?
    ensures var h := PerformAll(env, Fresh(), actions).shared;
            && job.result.Some? && id in h.requests
            && Witnessed(env, h.executed, env.key(h.requests[id]), job.result.value)
            && (Injective(env) ==> (h.requests[id], job.result.value) in h.executed)
  {
    hide PerformAll;
    AlwaysInv(env, actions);
  }

  /**
   * A queued file says Queued. A retired file shows an end - with a result exactly if it is Succeeded - except
   * between the rename and the rewrite of a cancellation, when it says Queued; once rewritten it says Cancelled.
   */
  lemma StatusMatchesPlace(env: Env, actions: seq<Action>, id: nat)
    requires env.Valid()
    ensures var h := PerformAll(env, Fresh(), actions).shared;
            && (id in h.files.queue ==> h.files.queue[id].status.Queued? && h.files.queue[id].result.None?)
            && (id in h.files.terminal ==>
                  && (h.files.terminal[id].status.IsTerminal() <==> id !in h.moved - h.rewritten)
                  && (id in h.moved - h.rewritten ==> h.files.terminal[id].status.Queued?)
                  && (id in h.rewritten ==> h.files.terminal[id].status.Cancelled?)
                  && (h.files.terminal[id].status.Succeeded? <==> h.files.terminal[id].result.Some?))
  {
    hide PerformAll;
    AlwaysInv(env, actions);
  }

  lemma StepsKeepRewritten(env: Env, h: Shared)
    ensures forall pc, choice :: WorkerStep(env, h, pc, choice).0.rewritten == h.rewritten
    ensures forall pc, fails :: ClientStep(env, h, pc, fails).0.rewritten >= h.rewritten
    ensures forall pc, fails :: RecoveryStep(h, pc, fails).0.rewritten == h.rewritten
  {
  }

  lemma PerformKeepsRewritten(env: Env, s: World, a: Action)
    ensures s.shared.rewritten <= Perform(env, s, a).shared.rewritten
  {
    StepsKeepRewritten(env, s.shared);
    hide WorkerStep, ClientStep, RecoveryStep;
  }

  lemma {:induction false} RewrittenGrows(env: Env, s: World, actions: seq<Action>, more: seq<Action>)
    ensures PerformAll(env, s, actions).shared.rewritten <= PerformAll(env, s, actions + more).shared.rewritten
    decreases |more|
  {
    hide Perform;
    if |more| == 0 {
      assert actions + more == actions;
    } else {
      var less := more[..|more| - 1];
      assert (actions + more)[..|actions + more| - 1] == actions + less;
      RewrittenGrows(env, s, actions, less);
      PerformKeepsRewritten(env, PerformAll(env, s, actions + less), more[|more| - 1]);
    }
  }

  /**
   * Whatever happens afterwards, a job whose cancellation was written stays retired, and any file of it says
   * Cancelled.
   */
  lemma RewrittenStaysCancelled(env: Env, actions: seq<Action>, more: seq<Action>, id: nat)
    requires env.Valid() && id in PerformAll(env, Fresh(), actions).shared.rewritten
    ensures var h := PerformAll(env, Fresh(), actions + more).shared;
            && id !in h.files.queue && id !in h.files.running
            && (id in h.files.terminal ==> h.files.terminal[id].status.Cancelled?)
  {
    hide PerformAll;
    RewrittenGrows(env, Fresh(), actions, more);
    AlwaysInv(env, actions + more);
    var h := PerformAll(env, Fresh(), actions + more).shared;
    if id in h.files.queue || id in h.files.running {
      PresentIsNotMoved(h, id);
    }
  }
}
