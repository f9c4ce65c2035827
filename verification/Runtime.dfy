/**
 * The durable job runtime as interleaved atomic steps. A job is one file in exactly one of three
 * directories; every rename, file write, directory listing and lock-protected look-up is one step, and
 * workers, submitters, cancellers, crashes and recovery may take their steps in any order.
 * Job ids, requests, results and cache keys are numbers.
 */
module Runtime {
  import opened Wrappers
  import opened Ordering

  const U32_MAX: nat := 0xFFFF_FFFF

  datatype Status = Queued | Running | Succeeded | Failed | Cancelled {
    predicate IsTerminal() {
      Succeeded? || Failed? || Cancelled?
    }
  }

  datatype Failure = Simulation(isRetryable: bool, isCancelled: bool) | Infrastructure {
    predicate Retryable() {
      Simulation? && isRetryable
    }
  }

  datatype Job = Job(id: nat, request: nat, key: nat, status: Status, attempts: nat, cacheHit: bool,
                     result: Option<nat>,
                     error: Option<Failure>)
  {
    /** The running form of a claimed job. */
    function Claimed(): Job {
      this.(status := Running, attempts := if attempts + 1 > U32_MAX then U32_MAX else attempts + 1, error := None)
    }

    function Hit(cached: nat): Job {
      this.(status := Succeeded, cacheHit := true, result := Some(cached), error := None)
    }

    function Done(value: nat): Job {
      this.(status := Succeeded, result := Some(value), error := None)
    }

    function Dropped(): Job {
      this.(status := Cancelled, result := None, error := None)
    }

    function Retried(failure: Failure): Job {
      this.(status := Queued, error := Some(failure))
    }

    /** A failure that will not be retried; the executor's own report of cancellation leaves no error. */
    function Ended(failure: Failure): Job {
      if failure.Simulation? && failure.isCancelled then this.(status := Cancelled, error := None)
      else this.(status := Failed, error := Some(failure))
    }

    function Recovered(): Job {
      this.(status := Queued, result := None)
    }
  }

  datatype Outcome = Returned(result: nat) | Refused(failure: Failure) | Panicked

  /** The limits, and the cache key of a request under the fixed executor and policy. */
  datatype Env = Env(maxAttempts: nat, maxQueued: nat, maxRetained: nat, key: nat -> nat) {
    predicate Valid() {
      0 < maxAttempts <= U32_MAX && maxQueued > 0 && maxRetained > 0
    }
  }

  /* ---- The file system ---- */

  datatype Files = Files(queue: map<nat, Job>, running: map<nat, Job>, terminal: map<nat, Job>, marks: set<nat>,
                         cache: map<nat, nat>)
  {
    function QueueToRunning(id: nat): Files
      requires id in queue
    {
      this.(queue := queue - {id}, running := running[id := queue[id]])
    }

    function QueueToTerminal(id: nat): Files
      requires id in queue
    {
      this.(queue := queue - {id}, terminal := terminal[id := queue[id]])
    }

    function RunningToQueue(id: nat): Files
      requires id in running
    {
      this.(running := running - {id}, queue := queue[id := running[id]])
    }

    function RunningToTerminal(id: nat): Files
      requires id in running
    {
      this.(running := running - {id}, terminal := terminal[id := running[id]])
    }

    function WriteRunning(job: Job): Files {
      this.(running := running[job.id := job])
    }
  }

  /**
   * Everything shared. `requests` (id to submitted request), `issued`, `pruned`, `moved` (retired by a
   * cancellation's rename), `rewritten` (and then written as Cancelled), `recoveries` and `executed` (what the
   * executor returned for which request) are history variables.
   */
  datatype Shared = Shared(
    files: Files,
    active: map<nat, nat>,
    cancelled: set<nat>,
    nextToken: nat,
    requests: map<nat, nat>,
    issued: set<nat>,
    pruned: set<nat>,
    moved: set<nat>,
    rewritten: set<nat>,
    recoveries: map<nat, nat>,
    executed: set<(nat, nat)>)

  /* ---- Workers: the loop over `run_next` ---- */

  datatype WorkerPc =
    | Listing
    | Scanning(rest: seq<nat>)
    | Renamed(id: nat, was: Job)     // `was` is a history variable: the file as it was moved
    | Announcing(job: Job)
    | Probing(job: Job)
    | Registering(job: Job)
    | CheckingMark(job: Job, token: nat)
    | Executing(job: Job, token: nat)
    | Deregistering(job: Job, token: nat, outcome: Outcome)
    | Rechecking(job: Job, token: nat, outcome: Outcome)
    | Deciding(job: Job, token: nat, outcome: Outcome)
    | Caching(job: Job, result: nat)
    | Finishing(job: Job, unmark: bool)
    | Retiring(id: nat, unmark: bool)
    | Unmarking(id: nat)
    | Requeueing(job: Job)
    | Returning(id: nat, was: Job)   // `was` again the file as it stands
    | Exited(ok: bool)

  /** The job a worker holds: from the rename that claims it to the rename that gives it up. */
  function Held(pc: WorkerPc): Option<nat> {
    match pc
    case Renamed(id, _) => Some(id)
    case Retiring(id, _) => Some(id)
    case Returning(id, _) => Some(id)
    case Listing => None
    case Scanning(_) => None
    case Unmarking(_) => None
    case Exited(_) => None
    case _ => Some(pc.job.id)
  }

  /** An input/output error, or not; the outcome matters to a worker that is executing. */
  datatype Choice = Go(outcome: Outcome) | Fail

  /** Steps that cannot end in an error: their failures are ignored or recorded in the job. */
  predicate Infallible(pc: WorkerPc) {
    pc.CheckingMark? || pc.Executing? || pc.Rechecking? || pc.Deciding? || pc.Unmarking? || pc.Exited?
  }

  function AfterOutcome(env: Env, job: Job, cancelled: bool, outcome: Outcome): WorkerPc {
    if cancelled then Finishing(job.Dropped(), true)
    else
      match outcome
      case Returned(result) => Caching(job, result)
      case Refused(failure) =>
        if failure.Retryable() && job.attempts < env.maxAttempts then Requeueing(job.Retried(failure))
        else Finishing(job.Ended(failure), false)
      case Panicked => Finishing(job.(status := Failed, error := Some(Infrastructure)), false)
  }

  function Check(h: Shared, id: nat, token: nat): Shared {
    if id in h.files.marks then h.(cancelled := h.cancelled + {token}) else h
  }

  function Executed(h: Shared, request: nat, outcome: Outcome): Shared {
    if outcome.Returned? then h.(executed := h.executed + {(request, outcome.result)}) else h
  }

  function WorkerStep(env: Env, h: Shared, pc: WorkerPc, choice: Choice): (Shared, WorkerPc) {
    if choice.Fail? && !Infallible(pc) then (h, Exited(false))
    else
      match pc
      case Listing => (h, Scanning(Ascending(h.files.queue.Keys)))
      case Scanning(rest) =>
        if |rest| == 0 then (h, Exited(true))
        else if rest[0] in h.files.queue then
          (h.(files := h.files.QueueToRunning(rest[0])), Renamed(rest[0], h.files.queue[rest[0]]))
        else (h, Scanning(rest[1..]))
      case Renamed(id, _) => (h, if id in h.files.running then Announcing(h.files.running[id].Claimed())
                              else Exited(false))
      case Announcing(job) => (h.(files := h.files.WriteRunning(job)), Probing(job))
      case Probing(job) =>
        (h, if job.key in h.files.cache then Finishing(job.Hit(h.files.cache[job.key]), false) else Registering(job))
      case Registering(job) =>
        (h.(active := h.active[job.id := h.nextToken], nextToken := h.nextToken + 1), CheckingMark(job, h.nextToken))
      case CheckingMark(job, token) => (Check(h, job.id, token), Executing(job, token))
      case Executing(job, token) =>
        var outcome := if choice.Go? then choice.outcome else Panicked;
        (Executed(h, job.request, outcome), Deregistering(job, token, outcome))
      case Deregistering(job, token, outcome) => (h.(active := h.active - {job.id}), Rechecking(job, token, outcome))
      case Rechecking(job, token, outcome) => (Check(h, job.id, token), Deciding(job, token, outcome))
      case Deciding(job, token, outcome) => (h, AfterOutcome(env, job, token in h.cancelled, outcome))
      case Caching(job, result) =>
        (h.(files := h.files.(cache := h.files.cache[job.key := result])), Finishing(job.Done(result), false))
      case Finishing(job, unmark) => (h.(files := h.files.WriteRunning(job)), Retiring(job.id, unmark))
      case Retiring(id, unmark) =>
        if id in h.files.running then
          (h.(files := h.files.RunningToTerminal(id)), if unmark then Unmarking(id) else Listing)
        else (h, Exited(false))
      case Unmarking(id) =>
        (if choice.Fail? then h else h.(files := h.files.(marks := h.files.marks - {id})), Listing)
      case Requeueing(job) => (h.(files := h.files.WriteRunning(job)), Returning(job.id, job))
      case Returning(id, _) =>
        if id in h.files.running then (h.(files := h.files.RunningToQueue(id)), Listing) else (h, Exited(false))
      case Exited(_) => (h, pc)
  }

  /* ---- Clients: one call of `submit`, `cancel` or `prune_terminal` ---- */

  datatype Place = InQueue | InRunning | InTerminal

  datatype ClientPc =
    | Counting(id: nat, request: nat)
    | LookingUp(id: nat, request: nat)
    | Enqueueing(job: Job)
    | Shelving(job: Job)
    | ListingTerminal
    | Pruning(rest: seq<nat>)
    | LookingQueued(id: nat)
    | MovingQueued(id: nat)
    | ReadingMoved(id: nat)
    | WritingMoved(job: Job)
    | Marking(id: nat)
    | Signalling(id: nat)
    | Flagging(id: nat, token: nat)
    | Getting(id: nat, place: Place)
    | Reading(id: nat, place: Place)
    | ClearingMark(id: nat)
    | Finished

  function At(f: Files, place: Place): map<nat, Job> {
    match place
    case InQueue => f.queue
    case InRunning => f.running
    case InTerminal => f.terminal
  }

  function ClientStep(env: Env, h: Shared, pc: ClientPc, fails: bool): (Shared, ClientPc) {
    if fails then (h, Finished)
    else
      match pc
      case Counting(id, request) => (h, if |h.files.queue| >= env.maxQueued then Finished else LookingUp(id, request))
      case LookingUp(id, request) =>
        var key := env.key(request);
        (h, if key in h.files.cache then Shelving(Job(id, request, key, Succeeded, 0, true, Some(h.files.cache[key]),
                                                      None))
            else Enqueueing(Job(id, request, key, Queued, 0, false, None, None)))
      case Enqueueing(job) =>
        (h.(files := h.files.(queue := h.files.queue[job.id := job]), issued := h.issued + {job.id}), Finished)
      case Shelving(job) =>
        (h.(files := h.files.(terminal := h.files.terminal[job.id := job]), issued := h.issued + {job.id}),
         ListingTerminal)
      case ListingTerminal =>
        var ids := Ascending(h.files.terminal.Keys);
        (h, if |ids| <= env.maxRetained then Finished else Pruning(ids[..|ids| - env.maxRetained]))
      case Pruning(rest) =>
        if |rest| == 0 || rest[0] !in h.files.terminal then (h, Finished)
        else
          (h.(files := h.files.(terminal := h.files.terminal - {rest[0]}), pruned := h.pruned + {rest[0]}),
           Pruning(rest[1..]))
      case LookingQueued(id) => (h, if id in h.files.queue then MovingQueued(id) else Marking(id))
      case MovingQueued(id) =>
        if id in h.files.queue then (h.(files := h.files.QueueToTerminal(id), moved := h.moved + {id}),
                                     ReadingMoved(id))
        else (h, Marking(id))
      case ReadingMoved(id) => (h, if id in h.files.terminal then WritingMoved(h.files.terminal[id].Dropped())
                                else Finished)
      case WritingMoved(job) =>
        (h.(files := h.files.(terminal := h.files.terminal[job.id := job]), rewritten := h.rewritten + {job.id}),
         Finished)
      case Marking(id) => (h.(files := h.files.(marks := h.files.marks + {id})), Signalling(id))
      case Signalling(id) => (h, if id in h.active then Flagging(id, h.active[id]) else Getting(id, InQueue))
      case Flagging(id, token) => (h.(cancelled := h.cancelled + {token}), Getting(id, InQueue))
      case Getting(id, place) =>
        (h, if id in At(h.files, place) then Reading(id, place)
            else
              match place
              case InQueue => Getting(id, InRunning)
              case InRunning => Getting(id, InTerminal)
              case InTerminal => Finished)
      case Reading(id, place) =>
        (h, if id in At(h.files, place) && At(h.files, place)[id].status.IsTerminal() then ClearingMark(id)
         else Finished)
      case ClearingMark(id) => (h.(files := h.files.(marks := h.files.marks - {id})), Finished)
      case Finished => (h, pc)
  }

  /* ---- Opening: recovery, with no worker or client about ---- */

  datatype RecoveryPc =
    | RecoverList
    | RecoverNext(rest: seq<nat>)
    | RecoverWrite(job: Job, rest: seq<nat>)
    | RecoverCheck(id: nat, rest: seq<nat>)
    | RecoverMove(id: nat, rest: seq<nat>)

  datatype Phase = Down | Recovering(pc: RecoveryPc) | Up

  function Recoveries(h: Shared, id: nat): nat {
    if id in h.recoveries then h.recoveries[id] else 0
  }

  function RecoveryStep(h: Shared, pc: RecoveryPc, fails: bool): (Shared, Phase) {
    if fails then (h, Down)
    else
      match pc
      case RecoverList => (h, Recovering(RecoverNext(Ascending(h.files.running.Keys))))
      case RecoverNext(rest) =>
        (h, if |rest| == 0 then Up
            else if rest[0] in h.files.running then Recovering(RecoverWrite(h.files.running[rest[0]].Recovered(),
                                                                      rest[1..]))
            else Down)
      case RecoverWrite(job, rest) => (h.(files := h.files.WriteRunning(job)), Recovering(RecoverCheck(job.id, rest)))
      case RecoverCheck(id, rest) => (h, if id in h.files.queue then Down else Recovering(RecoverMove(id, rest)))
      case RecoverMove(id, rest) =>
        if id in h.files.running then
          (h.(files := h.files.RunningToQueue(id), recoveries := h.recoveries[id := Recoveries(h, id) + 1]),
           Recovering(RecoverNext(rest)))
        else (h, Down)
  }

  /* ---- All interleavings ---- */

  datatype Worker = Worker(pc: WorkerPc, completed: nat)

  datatype World = World(shared: Shared, workers: seq<Worker>, clients: seq<ClientPc>, phase: Phase)

  datatype Action =
    | WorkerActs(w: nat, choice: Choice)
    | ClientActs(c: nat, fails: bool)
    | RecoveryActs(fails: bool)
    | Spawn
    | Submit(id: nat, request: nat)
    | Cancel(id: nat)
    | Prune
    | Crash
    | Open

  /** A worker back at the listing has completed one `run_next` with a job. */
  function Completes(before: WorkerPc, after: WorkerPc): nat {
    if after.Listing? && !before.Listing? then 1 else 0
  }

  /** One step of the whole system; an action that is not possible changes nothing. Submitted ids are new. */
  function Perform(env: Env, s: World, a: Action): World {
    match a
    case WorkerActs(w, choice) =>
      if w >= |s.workers| then s
      else
        var (h, pc) := WorkerStep(env, s.shared, s.workers[w].pc, choice);
        s.(shared := h, workers := s.workers[w := Worker(pc, s.workers[w].completed + Completes(s.workers[w].pc, pc))])
    case ClientActs(c, fails) =>
      if c >= |s.clients| then s
      else
        var (h, pc) := ClientStep(env, s.shared, s.clients[c], fails);
        s.(shared := h, clients := s.clients[c := pc])
    case RecoveryActs(fails) =>
      if !s.phase.Recovering? then s
      else
        var (h, phase) := RecoveryStep(s.shared, s.phase.pc, fails);
        World(h, s.workers, s.clients + (if phase.Up? then [ListingTerminal] else []), phase)
    case Spawn => if s.phase.Up? then s.(workers := s.workers + [Worker(Listing, 0)]) else s
    case Submit(id, request) =>
      if s.phase.Up? && id !in s.shared.requests then
        s.(shared := s.shared.(requests := s.shared.requests[id := request]),
           clients := s.clients + [Counting(id, request)])
      else s
    case Cancel(id) => if s.phase.Up? then s.(clients := s.clients + [LookingQueued(id)]) else s
    case Prune => if s.phase.Up? then s.(clients := s.clients + [ListingTerminal]) else s
    case Crash => World(s.shared.(active := map[]), [], [], Down)
    case Open => if s.phase.Down? then s.(phase := Recovering(RecoverList)) else s
  }

  function PerformAll(env: Env, s: World, actions: seq<Action>): World {
    if |actions| == 0 then s
    else Perform(env, PerformAll(env, s, actions[..|actions| - 1]), actions[|actions| - 1])
  }

  /** An empty root. */
  function Fresh(): World {
    World(Shared(Files(map[], map[], map[], {}, map[]), map[], {}, 0, map[], {}, {}, {}, {}, map[], {}), [], [], Down)
  }

  /* ---- Cache keys ---- */

  /** What the digest is taken of: the request alone, or the whole identity of a cache entry. */
  datatype Identity = OfRequest(request: nat) | OfEntry(requestDigest: nat, fingerprint: nat, descriptors: seq<nat>,
                                                        policy: nat)

  datatype Manifest = Manifest(requestDigest: nat, cacheKey: nat, fingerprint: nat, descriptors: seq<nat>, policy: nat)

  function BuildManifest(digest: Identity -> nat, request: nat, fingerprint: nat, descriptors: seq<nat>, policy: nat)
    : Option<Manifest>
  {
    if fingerprint == 0 then None
    else
      var requestDigest := digest(OfRequest(request));
      Some(Manifest(requestDigest, digest(OfEntry(requestDigest, fingerprint, descriptors, policy)), fingerprint,
                    descriptors, policy))
  }

  /** With a collision-free digest, equal cache keys mean equal requests, executors and policies. */
  lemma SameKeySameRun(digest: Identity -> nat, r: nat, f: nat, d: seq<nat>, p: nat, r': nat, f': nat, d': seq<nat>,
                       p': nat)
    requires forall a, b :: digest(a) == digest(b) ==> a == b
    requires f != 0 && f' != 0
    ensures BuildManifest(digest, r, f, d, p).value.cacheKey == BuildManifest(digest, r', f', d', p').value.cacheKey
       <==> r == r' && f == f' && d == d' && p == p'
  {
    var m, m' := BuildManifest(digest, r, f, d, p).value, BuildManifest(digest, r', f', d', p').value;
    if m.cacheKey == m'.cacheKey {
      assert OfEntry(m.requestDigest, f, d, p) == OfEntry(m'.requestDigest, f', d', p');
      assert OfRequest(r) == OfRequest(r');
    }
  }
}
