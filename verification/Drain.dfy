/** `drain` without crashes or concurrent submissions: how much it returns, that it ends, and what it leaves. */
module Drain {
  import opened Wrappers
  import opened Ordering
  import opened Runtime
  import opened RuntimeSafety

  /* ---- How many runs a job can still cost ---- */

  function Max(a: int, b: int): int {
    if a < b then b else a
  }

  /** Runs that a queued job can still cost. */
  function QueuedCost(env: Env, job: Job): nat {
    Max(1, env.maxAttempts - job.attempts)
  }

  /** Runs that a claimed job can still cost: the present one and those after a retry. */
  function HeldCost(env: Env, job: Job): nat {
    1 + Max(0, env.maxAttempts - job.attempts)
  }

  function PcCost(env: Env, pc: WorkerPc): nat {
    match pc
    case Listing => 0
    case Scanning(_) => 0
    case Exited(_) => 0
    case Renamed(_, was) => QueuedCost(env, was)
    case Returning(_, was) => HeldCost(env, was)
    case Caching(_, _) => 1
    case Finishing(_, _) => 1
    case Retiring(_, _) => 1
    case Unmarking(_) => 1
    case _ => HeldCost(env, pc.job)
  }

  /** The sum over all queued jobs. */
  function QueueCost(env: Env, queue: map<nat, Job>): nat
    decreases |queue|
  {
    if queue == map[] then 0
    else
      var id := Minimum(queue.Keys);
      Smaller(queue, id);
      QueuedCost(env, queue[id]) + QueueCost(env, queue - {id})
  }

  lemma Smaller(queue: map<nat, Job>, id: nat)
    requires id in queue
    ensures |queue - {id}| < |queue|
  {
    assert (queue - {id}).Keys == queue.Keys - {id};
    assert |queue - {id}| == |(queue - {id}).Keys| && |queue| == |queue.Keys|;
  }

  lemma {:induction false} TakeOne(env: Env, queue: map<nat, Job>, id: nat)
    requires id in queue
    ensures QueueCost(env, queue) == QueuedCost(env, queue[id]) + QueueCost(env, queue - {id})
    decreases |queue|
  {
    var m := Minimum(queue.Keys);
    if m != id {
      var rest, less := queue - {m}, queue - {id};
      Smaller(queue, m);
      TakeOne(env, rest, id);
      assert m in less && Minimum(less.Keys) == m;
      assert less - {m} == rest - {id};
    }
  }

  lemma PutOne(env: Env, queue: map<nat, Job>, job: Job)
    requires job.id !in queue
    ensures QueueCost(env, queue[job.id := job]) == QueuedCost(env, job) + QueueCost(env, queue)
  {
    TakeOne(env, queue[job.id := job], job.id);
    assert queue[job.id := job] - {job.id} == queue;
  }

  /** Every queued job costs at least one run. */
  lemma {:induction false} QueueIsBounded(env: Env, queue: map<nat, Job>)
    ensures |queue| <= QueueCost(env, queue)
    decreases |queue|
  {
    if queue != map[] {
      var id := Minimum(queue.Keys);
      Smaller(queue, id);
      QueueIsBounded(env, queue - {id});
      assert (queue - {id}).Keys == queue.Keys - {id};
      assert |queue - {id}| == |(queue - {id}).Keys| && |queue| == |queue.Keys|;
    }
  }

  /* ---- Sums over the workers ---- */

  function Costs(env: Env, workers: seq<Worker>): nat {
    if |workers| == 0 then 0 else Costs(env, workers[..|workers| - 1]) + PcCost(env, workers[|workers| - 1].pc)
  }

  function Completed(workers: seq<Worker>): nat {
    if |workers| == 0 then 0 else Completed(workers[..|workers| - 1]) + workers[|workers| - 1].completed
  }

  /** Steps a worker can take before it completes another run. */
  function Rank(bound: nat, pc: WorkerPc): nat {
    match pc
    case Listing => bound + 30
    case Scanning(rest) => 20 + |rest|
    case Renamed(_, _) => 19
    case Announcing(_) => 18
    case Probing(_) => 17
    case Registering(_) => 16
    case CheckingMark(_, _) => 15
    case Executing(_, _) => 14
    case Deregistering(_, _, _) => 13
    case Rechecking(_, _, _) => 12
    case Deciding(_, _, _) => 11
    case Caching(_, _) => 10
    case Finishing(_, _) => 9
    case Requeueing(_) => 9
    case Retiring(_, _) => 8
    case Returning(_, _) => 8
    case Unmarking(_) => 7
    case Exited(_) => 0
  }

  function Ranks(bound: nat, workers: seq<Worker>): nat {
    if |workers| == 0 then 0 else Ranks(bound, workers[..|workers| - 1]) + Rank(bound, workers[|workers| - 1].pc)
  }

  lemma {:induction false} SumsUpdate(env: Env, bound: nat, workers: seq<Worker>, w: nat, x: Worker)
    requires w < |workers|
    ensures Costs(env, workers[w := x]) == Costs(env, workers) - PcCost(env, workers[w].pc) + PcCost(env, x.pc)
    ensures Completed(workers[w := x]) == Completed(workers) - workers[w].completed + x.completed
    ensures Ranks(bound, workers[w := x]) == Ranks(bound, workers) - Rank(bound, workers[w].pc) + Rank(bound, x.pc)
    decreases |workers|
  {
    var n := |workers| - 1;
    if w < n {
      SumsUpdate(env, bound, workers[..n], w, x);
      assert workers[w := x][..n] == workers[..n][w := x];
    } else {
      assert workers[w := x][..n] == workers[..n];
    }
  }

  /* ---- One step ---- */

  lemma ClaimedCost(env: Env, job: Job)
    requires env.Valid()
    ensures HeldCost(env, job.Claimed()) == QueuedCost(env, job)
  {
  }

  lemma OutcomeCost(env: Env, job: Job, cancelled: bool, outcome: Outcome)
    ensures var pc := AfterOutcome(env, job, cancelled, outcome);
            (pc.Finishing? || pc.Caching? || pc.Requeueing?) && PcCost(env, pc) <= HeldCost(env, job)
  {
  }

  lemma ListCosts(env: Env, bound: nat, h: Shared, choice: Choice)
    requires |h.files.queue| <= bound
    ensures var (h', pc') := WorkerStep(env, h, Listing, choice);
            h' == h && PcCost(env, pc') == 0 && !pc'.Listing? && Rank(bound, pc') < Rank(bound, Listing)
  {
    assert |h.files.queue.Keys| == |h.files.queue|;
  }

  lemma DecisionCosts(env: Env, bound: nat, h: Shared, pc: WorkerPc, choice: Choice)
    requires env.Valid()
    requires (pc.Deciding? || (pc.Renamed? && (pc.id in h.files.running ==> h.files.running[pc.id] == pc.was)))
    ensures var (h', pc') := WorkerStep(env, h, pc, choice);
            h' == h && PcCost(env, pc') <= PcCost(env, pc) && !pc'.Listing? && Rank(bound, pc') < Rank(bound, pc)
  {
    hide HeldCost, QueuedCost, AfterOutcome;
    if pc.Renamed? {
      ClaimedCost(env, pc.was);
    } else {
      OutcomeCost(env, pc.job, pc.token in h.cancelled, pc.outcome);
    }
  }

  /** A step that ends in an error. */
  lemma FailedCosts(env: Env, bound: nat, h: Shared, pc: WorkerPc, choice: Choice)
    requires choice.Fail? && !Infallible(pc)
    ensures var (h', pc') := WorkerStep(env, h, pc, choice);
            h' == h && PcCost(env, pc') + Completes(pc, pc') <= PcCost(env, pc) && Rank(bound, pc') < Rank(bound, pc)
  {
    hide QueuedCost;
  }

  /** Steps that touch no queued job and decide nothing. */
  lemma QuietCosts(env: Env, bound: nat, h: Shared, pc: WorkerPc, choice: Choice)
    requires !pc.Listing? && !pc.Renamed? && !pc.Deciding? && !pc.Scanning? && !pc.Returning?
    requires (choice.Go? || Infallible(pc))
    ensures var (h', pc') := WorkerStep(env, h, pc, choice);
            && h'.files.queue == h.files.queue
            && PcCost(env, pc') + Completes(pc, pc') <= PcCost(env, pc)
            && (pc.Exited? || Completes(pc, pc') == 1 || Rank(bound, pc') < Rank(bound, pc))
  {
    hide QueuedCost, Ascending;
  }

  lemma ScanCosts(env: Env, bound: nat, h: Shared, pc: WorkerPc, choice: Choice)
    requires pc.Scanning? && choice.Go?
    ensures var (h', pc') := WorkerStep(env, h, pc, choice);
            && QueueCost(env, h'.files.queue) + PcCost(env, pc') == QueueCost(env, h.files.queue)
            && Completes(pc, pc') == 0 && Rank(bound, pc') < Rank(bound, pc)
  {
    hide QueueCost, QueuedCost;
    if |pc.rest| > 0 && pc.rest[0] in h.files.queue {
      TakeOne(env, h.files.queue, pc.rest[0]);
    }
  }

  lemma ReturnCosts(env: Env, h: Shared, pc: WorkerPc, choice: Choice)
    requires pc.Returning? && choice.Go? && pc.id in h.files.running && h.files.running[pc.id] == pc.was
    requires pc.was.id == pc.id
    requires pc.id !in h.files.queue && pc.was.attempts < env.maxAttempts
    ensures var (h', pc') := WorkerStep(env, h, pc, choice);
            QueueCost(env, h'.files.queue) + PcCost(env, pc') + 1 == QueueCost(env, h.files.queue) + PcCost(env, pc)
                && pc'.Listing?
  {
    hide QueueCost;
    PutOne(env, h.files.queue, pc.was);
  }

  lemma ReturningFacts(env: Env, h: Shared, pc: WorkerPc)
    requires SharedOk(env, h) && WorkerOk(env, h, pc)
    ensures pc.Renamed? ==> pc.id in h.files.running && h.files.running[pc.id] == pc.was
    ensures pc.Returning? ==>
              && pc.id in h.files.running && h.files.running[pc.id] == pc.was && pc.was.id == pc.id
              && pc.id !in h.files.queue && pc.was.attempts < env.maxAttempts
  {
  }

  /** A step may turn debt into a completed run, never create any; every step of a live worker gets somewhere. */
  lemma WorkerStepCosts(env: Env, bound: nat, h: Shared, pc: WorkerPc, choice: Choice)
    requires env.Valid() && SharedOk(env, h) && WorkerOk(env, h, pc) && |h.files.queue| <= bound
    ensures var (h', pc') := WorkerStep(env, h, pc, choice);
            && QueueCost(env, h'.files.queue) + PcCost(env, pc') + Completes(pc, pc') <= QueueCost(env, h.files.queue)
                + PcCost(env, pc)
            && (pc.Exited? || Completes(pc, pc') == 1 || Rank(bound, pc') < Rank(bound, pc))
  {
    hide SharedOk, WorkerOk, WorkerStep, QueueCost, PcCost, Rank;
    ReturningFacts(env, h, pc);
    if choice.Fail? && !Infallible(pc) {
      FailedCosts(env, bound, h, pc, choice);
    } else if pc.Scanning? {
      ScanCosts(env, bound, h, pc, choice);
    } else if pc.Returning? {
      ReturnCosts(env, h, pc, choice);
    } else if pc.Listing? {
      ListCosts(env, bound, h, choice);
    } else if pc.Renamed? || pc.Deciding? {
      DecisionCosts(env, bound, h, pc, choice);
    } else {
      QuietCosts(env, bound, h, pc, choice);
    }
  }

  /** A client that is not submitting only ever takes jobs out of the queue. */
  lemma ClientStepCosts(env: Env, h: Shared, pc: ClientPc, fails: bool)
    requires Reserved(pc).None?
    ensures var (h', pc') := ClientStep(env, h, pc, fails);
            && QueueCost(env, h'.files.queue) <= QueueCost(env, h.files.queue) && Reserved(pc').None?
            && (forall id :: id in h'.files.queue ==> id in h.files.queue) && h'.files.running == h.files.running
  {
    hide QueueCost, QueuedCost, Ascending;
    if !fails {
      if pc.MovingQueued? {
        if pc.id in h.files.queue {
          TakeOne(env, h.files.queue, pc.id);
        }
      } else {
        assert ClientStep(env, h, pc, fails).0.files.queue == h.files.queue;
      }
    }
  }

  /* ---- Draining ---- */

  /** Workers step, and anyone may cancel or prune; nobody submits, spawns or crashes. */
  predicate Draining(a: Action) {
    a.WorkerActs? || a.ClientActs? || a.Cancel? || a.Prune?
  }

  /** The pool has just been started on an opened root; earlier failed calls may have left running files. */
  ghost predicate DrainStart(env: Env, s: World) {
    && Inv(env, s) && s.phase.Up? && |s.workers| > 0
    && (forall w :: 0 <= w < |s.workers| ==> s.workers[w] == Worker(Listing, 0))
    && (forall c :: 0 <= c < |s.clients| ==> Reserved(s.clients[c]).None?)
  }

  function Debt(env: Env, s: World): nat {
    QueueCost(env, s.shared.files.queue) + Costs(env, s.workers)
  }

  ghost predicate DrainInv(env: Env, bound: nat, s: World) {
    && Inv(env, s) && s.phase.Up? && Debt(env, s) <= bound
    && (forall w :: 0 <= w < |s.workers| ==> RestFits(bound, s.workers[w].pc))
    && (forall c :: 0 <= c < |s.clients| ==> Reserved(s.clients[c]).None?)
  }

  predicate RestFits(bound: nat, pc: WorkerPc) {
    pc.Scanning? ==> |pc.rest| <= bound
  }

  lemma NewListFits(env: Env, bound: nat, h: Shared, pc: WorkerPc, choice: Choice)
    requires RestFits(bound, pc) && |h.files.queue| <= bound
    ensures RestFits(bound, WorkerStep(env, h, pc, choice).1)
  {
    assert |h.files.queue.Keys| == |h.files.queue|;
  }

  /** What a drain step does to the accounts. */
  ghost predicate Accounts(env: Env, bound: nat, s: World, t: World, a: Action) {
    && Debt(env, t) + Completed(t.workers) <= Debt(env, s) + Completed(s.workers)
    && |t.workers| == |s.workers|
    && if a.WorkerActs? && a.w < |s.workers| && !s.workers[a.w].pc.Exited?
       then Debt(env, t) < Debt(env, s) || (Debt(env, t) == Debt(env, s)
                                            && Ranks(bound, t.workers) < Ranks(bound, s.workers))
       else Debt(env, t) <= Debt(env, s) && Ranks(bound, t.workers) == Ranks(bound, s.workers)
  }

  lemma WorkerAccounts(env: Env, bound: nat, s: World, w: nat, choice: Choice)
    requires env.Valid() && DrainInv(env, bound, s) && w < |s.workers|
    ensures var t := Perform(env, s, WorkerActs(w, choice));
            DrainInv(env, bound, t) && Accounts(env, bound, s, t, WorkerActs(w, choice))
  {
    hide SharedOk, WorkerOk, ClientsOk, QueueCost, Costs, Completed, Ranks;
    var h, pc := s.shared, s.workers[w].pc;
    QueueIsBounded(env, h.files.queue);
    WorkerStepCosts(env, bound, h, pc, choice);
    NewListFits(env, bound, h, pc, choice);
    PerformKeepsInv(env, s, WorkerActs(w, choice));
    var (h', pc') := WorkerStep(env, h, pc, choice);
    var x := Worker(pc', s.workers[w].completed + Completes(pc, pc'));
    SumsUpdate(env, bound, s.workers, w, x);
    if pc.Exited? {
      assert s.workers[w := x] == s.workers;
    }
  }

  lemma DrainStepKeeps(env: Env, bound: nat, s: World, a: Action)
    requires env.Valid() && DrainInv(env, bound, s) && Draining(a)
    ensures var t := Perform(env, s, a); DrainInv(env, bound, t) && Accounts(env, bound, s, t, a)
  {
    hide Inv, QueueCost, Costs, Completed, Ranks;
    if a.WorkerActs? {
      if a.w < |s.workers| {
        WorkerAccounts(env, bound, s, a.w, a.choice);
      }
    } else {
      PerformKeepsInv(env, s, a);
      if a.ClientActs? && a.c < |s.clients| {
        ClientStepCosts(env, s.shared, s.clients[a.c], a.fails);
      }
    }
  }

  predicate AllDraining(actions: seq<Action>) {
    forall i :: 0 <= i < |actions| ==> Draining(actions[i])
  }

  lemma {:induction false} DrainKeeps(env: Env, bound: nat, s: World, actions: seq<Action>)
    requires env.Valid() && DrainInv(env, bound, s) && AllDraining(actions)
    ensures var t := PerformAll(env, s, actions);
            && DrainInv(env, bound, t) && Debt(env, t) + Completed(t.workers) <= Debt(env, s) + Completed(s.workers)
            && |t.workers| == |s.workers|
    decreases |actions|
  {
    hide DrainInv, Debt, Completed, Perform;
    if |actions| > 0 {
      var rest := actions[..|actions| - 1];
      DrainKeeps(env, bound, s, rest);
      DrainStepKeeps(env, bound, PerformAll(env, s, rest), actions[|actions| - 1]);
    }
  }

  lemma {:induction false} NothingYet(env: Env, workers: seq<Worker>)
    requires forall w :: 0 <= w < |workers| ==> workers[w] == Worker(Listing, 0)
    ensures Costs(env, workers) == 0 && Completed(workers) == 0
  {
    if |workers| > 0 {
      NothingYet(env, workers[..|workers| - 1]);
    }
  }

  lemma StartKeeps(env: Env, s: World)
    requires DrainStart(env, s)
    ensures DrainInv(env, QueueCost(env, s.shared.files.queue), s)
    ensures Debt(env, s) == QueueCost(env, s.shared.files.queue) && Completed(s.workers) == 0
  {
    hide Inv, QueueCost;
    NothingYet(env, s.workers);
  }

  /** `drain` never reports more runs than the jobs queued at its start could cost. */
  lemma DrainReturnsAtMost(env: Env, s: World, actions: seq<Action>)
    requires env.Valid() && DrainStart(env, s) && AllDraining(actions)
    ensures Completed(PerformAll(env, s, actions).workers) <= QueueCost(env, s.shared.files.queue)
  {
    hide Inv, DrainInv, PerformAll;
    StartKeeps(env, s);
    DrainKeeps(env, QueueCost(env, s.shared.files.queue), s, actions);
  }

  /* ---- Termination ---- */

  /** Steps taken by workers that had not exited. */
  function WorkSteps(env: Env, s: World, actions: seq<Action>): nat {
    if |actions| == 0 then 0
    else
      var before := PerformAll(env, s, actions[..|actions| - 1]);
      var a := actions[|actions| - 1];
      WorkSteps(env, s, actions[..|actions| - 1])
      + (if a.WorkerActs? && a.w < |before.workers| && !before.workers[a.w].pc.Exited? then 1 else 0)
  }

  lemma {:induction false} RanksBounded(bound: nat, workers: seq<Worker>)
    requires forall w :: 0 <= w < |workers| ==> RestFits(bound, workers[w].pc)
    ensures Ranks(bound, workers) <= |workers| * (bound + 30)
  {
    if |workers| > 0 {
      RanksBounded(bound, workers[..|workers| - 1]);
      assert |workers| * (bound + 30) == (|workers| - 1) * (bound + 30) + (bound + 30);
    }
  }

  /** One number for both parts of the progress measure, the debt counting first. */
  function Left(env: Env, bound: nat, s: World): nat {
    Debt(env, s) * (|s.workers| * (bound + 30) + 1) + Ranks(bound, s.workers)
  }

  lemma Heavier(less: nat, more: nat, unit: nat)
    requires less < more
    ensures less * unit + unit <= more * unit
  {
    assert more * unit == less * unit + (more - less) * unit;
    assert (more - less) * unit == (more - less - 1) * unit + unit;
  }

  lemma Weighted(debt: nat, debt': nat, ranks: nat, ranks': nat, unit: nat)
    requires debt' <= debt && ranks' < unit && (debt' < debt || ranks' <= ranks)
    ensures debt' * unit + ranks' + (if debt' < debt || ranks' < ranks then 1 else 0) <= debt * unit + ranks
  {
    if debt' < debt {
      Heavier(debt', debt, unit);
    } else {
      assert debt' == debt;
    }
  }

  lemma {:induction false} StepsAreBounded(env: Env, bound: nat, s: World, actions: seq<Action>)
    requires env.Valid() && DrainInv(env, bound, s) && AllDraining(actions)
    ensures WorkSteps(env, s, actions) + Left(env, bound, PerformAll(env, s, actions)) <= Left(env, bound, s)
    decreases |actions|
  {
    hide Perform, Debt, Ranks, Inv;
    if |actions| > 0 {
      var rest, a := actions[..|actions| - 1], actions[|actions| - 1];
      var u, t := PerformAll(env, s, rest), PerformAll(env, s, actions);
      StepsAreBounded(env, bound, s, rest);
      DrainKeeps(env, bound, s, rest);
      DrainStepKeeps(env, bound, u, a);
      RanksBounded(bound, t.workers);
      Weighted(Debt(env, u), Debt(env, t), Ranks(bound, u.workers), Ranks(bound, t.workers),
               |s.workers| * (bound + 30) + 1);
    }
  }

  /**
   * `drain` terminates: however its workers and any number of cancellations interleave, the workers together
   * take no more steps than a number fixed by the queue at the start and the size of the pool.
   */
  lemma DrainTerminates(env: Env, s: World, actions: seq<Action>)
    requires env.Valid() && DrainStart(env, s) && AllDraining(actions)
    ensures var cost := QueueCost(env, s.shared.files.queue);
            WorkSteps(env, s, actions) <= (cost + 1) * (|s.workers| * (cost + 30) + 1)
  {
    hide Inv, PerformAll, WorkSteps, QueueCost, Debt, Ranks;
    var cost := QueueCost(env, s.shared.files.queue);
    StartKeeps(env, s);
    StepsAreBounded(env, cost, s, actions);
    RanksBounded(cost, s.workers);
    Heavier(cost, cost + 1, |s.workers| * (cost + 30) + 1);
  }

  /* ---- What an Ok drain leaves ---- */

  /** The worker will still look at the queue with `id` in it. */
  predicate Watches(pc: WorkerPc, id: nat) {
    if pc.Scanning? then id in pc.rest else !pc.Exited?
  }

  ghost predicate Watched(workers: seq<Worker>, id: nat) {
    exists w :: 0 <= w < |workers| && Watches(workers[w].pc, id)
  }

  ghost predicate HeldBySome(workers: seq<Worker>, id: nat) {
    exists w :: 0 <= w < |workers| && Held(workers[w].pc) == Some(id)
  }

  ghost predicate SomeFailed(workers: seq<Worker>) {
    exists w :: 0 <= w < |workers| && workers[w].pc == Exited(false)
  }

  /** Unless a worker failed, every queued job is watched and every running one is held, or left over from before. */
  ghost predicate Attended(s: World, stale: map<nat, Job>) {
    SomeFailed(s.workers) ||
    ((forall id :: id in s.shared.files.queue ==> Watched(s.workers, id))
     && (forall id :: id in s.shared.files.running.Keys - stale.Keys ==> HeldBySome(s.workers, id)))
  }

  /** What was left over is as it was, and in nobody's hands. */
  ghost predicate LeftAlone(s: World, stale: map<nat, Job>) {
    && StillRunning(s.shared, stale)
    && (forall w :: 0 <= w < |s.workers| && Held(s.workers[w].pc).Some? ==> Held(s.workers[w].pc).value !in stale)
  }

  lemma WorkerStepWatches(env: Env, h: Shared, pc: WorkerPc, choice: Choice)
    ensures var (h', pc') := WorkerStep(env, h, pc, choice);
            pc' == Exited(false) ||
            forall id :: id in h'.files.queue ==> Watches(pc', id) || (id in h.files.queue && !Watches(pc, id))
  {
    hide AfterOutcome;
    OutcomeIsLive(env, pc);
    if pc.Scanning? && |pc.rest| > 0 {
      assert pc.rest == [pc.rest[0]] + pc.rest[1..];
    }
  }

  lemma OutcomeIsLive(env: Env, pc: WorkerPc)
    ensures pc.Deciding? ==> forall cancelled ::
              var next := AfterOutcome(env, pc.job, cancelled, pc.outcome);
              !next.Scanning? && !next.Exited? && Held(next) == Some(pc.job.id)
  {
  }

  lemma WorkerStepHolds(env: Env, h: Shared, pc: WorkerPc, choice: Choice)
    requires forall id :: id in h.files.running ==> h.files.running[id].id == id
    ensures var (h', pc') := WorkerStep(env, h, pc, choice);
            pc' == Exited(false) ||
            forall id :: id in h'.files.running ==>
                Held(pc') == Some(id) || (id in h.files.running && Held(pc) != Some(id))
  {
    hide AfterOutcome;
    OutcomeIsLive(env, pc);
  }

  /** How one worker step changes the two directories and what the worker attends to. */
  lemma WorkerStepAttends(env: Env, h: Shared, pc: WorkerPc, choice: Choice)
    requires forall id :: id in h.files.running ==> h.files.running[id].id == id
    ensures var (h', pc') := WorkerStep(env, h, pc, choice);
            pc' == Exited(false) ||
            ((forall id :: id in h'.files.queue ==> Watches(pc', id) || (id in h.files.queue && !Watches(pc, id)))
             && (forall id :: id in h'.files.running ==>
                   Held(pc') == Some(id) || (id in h.files.running && Held(pc) != Some(id))))
  {
    hide WorkerStep, Watches, Held;
    WorkerStepWatches(env, h, pc, choice);
    WorkerStepHolds(env, h, pc, choice);
  }

  lemma StillWatched(workers: seq<Worker>, w: nat, x: Worker, id: nat)
    requires w < |workers| && Watched(workers, id) && (Watches(workers[w].pc, id) ==> Watches(x.pc, id))
    ensures Watched(workers[w := x], id)
  {
    var v :| 0 <= v < |workers| && Watches(workers[v].pc, id);
    assert Watches(workers[w := x][v].pc, id);
  }

  lemma StillHeld(workers: seq<Worker>, w: nat, x: Worker, id: nat)
    requires w < |workers| && HeldBySome(workers, id) && (Held(workers[w].pc) == Some(id) ==> Held(x.pc) == Some(id))
    ensures HeldBySome(workers[w := x], id)
  {
    var v :| 0 <= v < |workers| && Held(workers[v].pc) == Some(id);
    assert Held(workers[w := x][v].pc) == Some(id);
  }

  lemma StillFailed(env: Env, s: World, w: nat, choice: Choice)
    requires w < |s.workers| && SomeFailed(s.workers)
    ensures SomeFailed(Perform(env, s, WorkerActs(w, choice)).workers)
  {
    var v :| 0 <= v < |s.workers| && s.workers[v].pc == Exited(false);
    assert Perform(env, s, WorkerActs(w, choice)).workers[v].pc == Exited(false);
  }

  /** If `x` takes over worker `w`'s place as `WorkerStepAttends` says, everything stays attended. */
  lemma ReplacementAttends(queue: set<nat>, queue': set<nat>, running: set<nat>, running': set<nat>,
                           workers: seq<Worker>,
                           w: nat, x: Worker)
    requires w < |workers|
    requires (forall id :: id in queue ==> Watched(workers, id))
    requires (forall id :: id in running ==> HeldBySome(workers, id))
    requires forall id :: id in queue' ==> Watches(x.pc, id) || (id in queue && !Watches(workers[w].pc, id))
    requires forall id :: id in running' ==>
              Held(x.pc) == Some(id) || (id in running && Held(workers[w].pc) != Some(id))
    ensures forall id :: id in queue' ==> Watched(workers[w := x], id)
    ensures forall id :: id in running' ==> HeldBySome(workers[w := x], id)
  {
    assert workers[w := x][w] == x;
    hide Watches, Held;
    forall id | id in queue'
      ensures Watched(workers[w := x], id)
    {
      if !Watches(x.pc, id) {
        StillWatched(workers, w, x, id);
      }
    }
    forall id | id in running'
      ensures HeldBySome(workers[w := x], id)
    {
      if Held(x.pc) != Some(id) {
        StillHeld(workers, w, x, id);
      }
    }
  }

  lemma WorkerKeepsAttended(env: Env, s: World, w: nat, choice: Choice, stale: map<nat, Job>)
    requires Attended(s, stale) && w < |s.workers| && RunningOk(env, s.shared)
    ensures Attended(Perform(env, s, WorkerActs(w, choice)), stale)
  {
    hide Honest, WorkerStep, Watched, HeldBySome, SomeFailed, Watches, Held;
    WorkerStepAttends(env, s.shared, s.workers[w].pc, choice);
    var (h', pc') := WorkerStep(env, s.shared, s.workers[w].pc, choice);
    var x := Worker(pc', s.workers[w].completed + Completes(s.workers[w].pc, pc'));
    if SomeFailed(s.workers) {
      StillFailed(env, s, w, choice);
    } else if pc' == Exited(false) {
      NowFailed(s.workers, w, x);
    } else {
      var f, f' := s.shared.files, h'.files;
      ReplacementAttends(f.queue.Keys, f'.queue.Keys, f.running.Keys - stale.Keys, f'.running.Keys - stale.Keys,
                         s.workers, w, x);
    }
  }

  /** The files of `stale` are running as they were. */
  ghost predicate StillRunning(h: Shared, stale: map<nat, Job>) {
    forall id :: id in stale ==> id in h.files.running && h.files.running[id] == stale[id]
  }

  /** A worker touches only the job it holds, and takes only jobs that were not running. */
  lemma WorkerStepLeavesAlone(env: Env, h: Shared, pc: WorkerPc, choice: Choice, stale: map<nat, Job>)
    requires env.Valid() && SharedOk(env, h) && WorkerOk(env, h, pc) && StillRunning(h, stale)
    requires Held(pc).Some? ==> Held(pc).value !in stale
    ensures var (h', pc') := WorkerStep(env, h, pc, choice);
            StillRunning(h', stale) && (Held(pc').Some? ==> Held(pc').value !in stale)
  {
    hide SharedOk, WorkerOk, Held, WorkerStep;
    AnyWorkerStepOk(env, h, pc, choice);
  }

  lemma WorkerLeavesAlone(env: Env, s: World, w: nat, choice: Choice, stale: map<nat, Job>)
    requires env.Valid() && Inv(env, s) && LeftAlone(s, stale) && w < |s.workers|
    ensures LeftAlone(Perform(env, s, WorkerActs(w, choice)), stale)
  {
    hide SharedOk, WorkerOk, ClientsOk, Held, WorkerStep;
    WorkerStepLeavesAlone(env, s.shared, s.workers[w].pc, choice, stale);
  }

  lemma NowFailed(workers: seq<Worker>, w: nat, x: Worker)
    requires w < |workers| && x.pc == Exited(false)
    ensures SomeFailed(workers[w := x])
  {
    assert workers[w := x][w].pc == Exited(false);
  }

  lemma DrainKeepsAttended(env: Env, bound: nat, s: World, a: Action, stale: map<nat, Job>)
    requires env.Valid() && DrainInv(env, bound, s) && Attended(s, stale) && LeftAlone(s, stale) && Draining(a)
    ensures Attended(Perform(env, s, a), stale) && LeftAlone(Perform(env, s, a), stale)
  {
    hide Watched, HeldBySome, SomeFailed, WorkersOk, ClientsOk, Honest;
    if a.WorkerActs? {
      if a.w < |s.workers| {
        WorkerKeepsAttended(env, s, a.w, a.choice, stale);
        WorkerLeavesAlone(env, s, a.w, a.choice, stale);
      }
    } else if a.ClientActs? && a.c < |s.clients| {
      ClientStepCosts(env, s.shared, s.clients[a.c], a.fails);
      hide ClientStep;
    }
  }

  lemma {:induction false} AlwaysAttended(env: Env, bound: nat, s: World, actions: seq<Action>, stale: map<nat, Job>)
    requires env.Valid() && DrainInv(env, bound, s) && Attended(s, stale) && LeftAlone(s, stale) && AllDraining(actions)
    ensures Attended(PerformAll(env, s, actions), stale) && LeftAlone(PerformAll(env, s, actions), stale)
    decreases |actions|
  {
    hide DrainInv, Attended, LeftAlone, Perform;
    if |actions| > 0 {
      var rest := actions[..|actions| - 1];
      AlwaysAttended(env, bound, s, rest, stale);
      DrainKeeps(env, bound, s, rest);
      DrainKeepsAttended(env, bound, PerformAll(env, s, rest), actions[|actions| - 1], stale);
    }
  }

  lemma StartIsAttended(env: Env, s: World)
    requires DrainStart(env, s)
    ensures Attended(s, s.shared.files.running) && LeftAlone(s, s.shared.files.running)
  {
    forall id | id in s.shared.files.queue
      ensures Watched(s.workers, id)
    {
      assert Watches(s.workers[0].pc, id);
    }
  }

  /**
   * When every worker has come back with Ok, nothing is queued, and exactly the files that were running before
   * the drain began are still there, unchanged.
   */
  lemma OkDrainLeavesNothing(env: Env, s: World, actions: seq<Action>)
    requires env.Valid() && DrainStart(env, s) && AllDraining(actions)
    requires var t := PerformAll(env, s, actions); forall w :: 0 <= w < |t.workers| ==> t.workers[w].pc == Exited(true)
    ensures var f := PerformAll(env, s, actions).shared.files; f.queue == map[] && f.running == s.shared.files.running
  {
    hide Inv, DrainInv, PerformAll;
    StartKeeps(env, s);
    StartIsAttended(env, s);
    AlwaysAttended(env, QueueCost(env, s.shared.files.queue), s, actions, s.shared.files.running);
    AllBack(PerformAll(env, s, actions), s.shared.files.running);
  }

  lemma AllBack(s: World, stale: map<nat, Job>)
    requires Attended(s, stale) && LeftAlone(s, stale)
    requires forall w :: 0 <= w < |s.workers| ==> s.workers[w].pc == Exited(true)
    ensures s.shared.files.queue == map[] && s.shared.files.running == stale
  {
    forall id
      ensures !Watched(s.workers, id) && !HeldBySome(s.workers, id)
    {
    }
    assert forall id :: id in s.shared.files.running ==> id !in s.shared.files.running.Keys - stale.Keys;
    assert forall id :: id in s.shared.files.running <==> id in stale;
  }
}
