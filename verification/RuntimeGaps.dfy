/** Two runs through the window between the rename and the rewrite of a cancellation. */
module RuntimeGaps {
  import opened Wrappers
  import opened Ordering
  import opened Runtime
  import opened RuntimeSafety

  const GO: Choice := Go(Panicked)

  /** `actions` lead from the empty root to `s`. */
  ghost predicate Leads(env: Env, actions: seq<Action>, s: World) {
    PerformAll(env, Fresh(), actions) == s
  }

  lemma Then(env: Env, actions: seq<Action>, s: World, a: Action)
    requires Leads(env, actions, s)
    ensures Leads(env, actions + [a], Perform(env, s, a))
  {
    assert (actions + [a])[..|actions|] == actions;
  }

  lemma LeadsTo(env: Env, actions: seq<Action>, s: World)
    requires Leads(env, actions, s)
    ensures PerformAll(env, Fresh(), actions) == s
  {
  }

  /** An opened root, with nothing in it but the pruning that opening ends with. */
  function Opened(): World {
    Fresh().(phase := Up, clients := [ListingTerminal])
  }

  const OPENING: seq<Action> := [Open, RecoveryActs(false), RecoveryActs(false)]

  lemma OpeningOpens(env: Env)
    ensures Leads(env, OPENING, Opened())
  {
    var s := Fresh();
    var s1 := s.(phase := Recovering(RecoverList));
    var s2 := s.(phase := Recovering(RecoverNext([])));
    Then(env, [], s, Open);
    Then(env, [] + [Open], s1, RecoveryActs(false));
    assert Ascending({}) == [];
    Then(env, [] + [Open] + [RecoveryActs(false)], s2, RecoveryActs(false));
    assert OPENING == [] + [Open] + [RecoveryActs(false)] + [RecoveryActs(false)];
  }

  /** The actions of submitting a job as client `c`. */
  function Submitting(c: nat, id: nat, request: nat): seq<Action> {
    [Submit(id, request), ClientActs(c, false), ClientActs(c, false), ClientActs(c, false)]
  }

  function NewJob(env: Env, id: nat, request: nat): Job {
    Job(id, request, env.key(request), Queued, 0, false, None, None)
  }

  function Submitted(env: Env, s: World, id: nat, request: nat): World {
    var h := s.shared;
    s.(clients := s.clients + [Finished],
       shared := h.(requests := h.requests[id := request], issued := h.issued + {id},
                    files := h.files.(queue := h.files.queue[id := NewJob(env, id, request)])))
  }

  lemma SubmittingQueues(env: Env, actions: seq<Action>, s: World, id: nat, request: nat)
    requires Leads(env, actions, s) && s.phase.Up? && id !in s.shared.requests
    requires |s.shared.files.queue| < env.maxQueued && s.shared.files.cache == map[]
    ensures Leads(env, actions + Submitting(|s.clients|, id, request), Submitted(env, s, id, request))
  {
    hide PerformAll, Leads;
    var c, acts := |s.clients|, ClientActs(|s.clients|, false);
    var h := s.shared.(requests := s.shared.requests[id := request]);
    var s1 := s.(shared := h, clients := s.clients + [Counting(id, request)]);
    var s2 := s.(shared := h, clients := s.clients + [LookingUp(id, request)]);
    var s3 := s.(shared := h, clients := s.clients + [Enqueueing(NewJob(env, id, request))]);
    Then(env, actions, s, Submit(id, request));
    Then(env, actions + [Submit(id, request)], s1, acts);
    assert Perform(env, s1, acts) == s2;
    Then(env, actions + [Submit(id, request)] + [acts], s2, acts);
    assert Perform(env, s2, acts) == s3;
    Then(env, actions + [Submit(id, request)] + [acts] + [acts], s3, acts);
    assert Perform(env, s3, acts) == Submitted(env, s, id, request);
    assert actions + Submitting(c, id, request) == actions + [Submit(id, request)] + [acts] + [acts] + [acts];
  }

  /** The actions of a cancellation, as client `c`, up to its rename. */
  function Cancelling(c: nat, id: nat): seq<Action> {
    [Cancel(id), ClientActs(c, false), ClientActs(c, false)]
  }

  function Moved(s: World, id: nat): World
    requires id in s.shared.files.queue
  {
    s.(clients := s.clients + [ReadingMoved(id)],
       shared := s.shared.(files := s.shared.files.QueueToTerminal(id), moved := s.shared.moved + {id}))
  }

  lemma CancellingMoves(env: Env, actions: seq<Action>, s: World, id: nat)
    requires Leads(env, actions, s) && s.phase.Up? && id in s.shared.files.queue
    ensures Leads(env, actions + Cancelling(|s.clients|, id), Moved(s, id))
  {
    hide PerformAll, Leads;
    var c, acts := |s.clients|, ClientActs(|s.clients|, false);
    var s1 := s.(clients := s.clients + [LookingQueued(id)]);
    var s2 := s.(clients := s.clients + [MovingQueued(id)]);
    Then(env, actions, s, Cancel(id));
    Then(env, actions + [Cancel(id)], s1, acts);
    assert Perform(env, s1, acts) == s2;
    Then(env, actions + [Cancel(id)] + [acts], s2, acts);
    assert Perform(env, s2, acts) == Moved(s, id);
    assert actions + Cancelling(c, id) == actions + [Cancel(id)] + [acts] + [acts];
  }

  /** Opening, a submission, a cancellation up to its rename, and a crash: eleven actions. */
  function CrashRun(request: nat): seq<Action> {
    OPENING + Submitting(1, 1, request) + Cancelling(2, 1) + [Crash]
  }

  /** Under any limits, a crash there leaves a retired file that says Queued, with no process about to correct it. */
  lemma CrashLeavesQueued(env: Env, request: nat)
    requires env.Valid()
    ensures var s := PerformAll(env, Fresh(), CrashRun(request));
            && s.workers == [] && s.clients == [] && s.phase.Down?
            && 1 in s.shared.files.terminal && s.shared.files.terminal[1].status.Queued?
            && 1 in s.shared.moved - s.shared.rewritten
  {
    hide PerformAll;
    var queued := Submitted(env, Opened(), 1, request);
    OpeningOpens(env);
    SubmittingQueues(env, OPENING, Opened(), 1, request);
    CancellingMoves(env, OPENING + Submitting(1, 1, request), queued, 1);
    Then(env, OPENING + Submitting(1, 1, request) + Cancelling(2, 1), Moved(queued, 1), Crash);
  }

  /** Job 1 is cancelled up to the read of its file; then pruning removes the file, and the cancellation writes it. */
  function ResurrectionRun(request: nat): seq<Action> {
    OPENING + Submitting(1, 1, request) + Submitting(2, 2, request) + Cancelling(3, 2) + Cancelling(4, 1)
    + [ClientActs(4, false)] + [Prune] + [ClientActs(5, false)] + [ClientActs(5, false)] + [ClientActs(4, false)]
  }

  /** Where one retired job is kept and two may wait, the pruned job's file comes back, saying Cancelled. */
  lemma PrunedFileComesBack(env: Env, request: nat)
    requires env.Valid() && env.maxRetained == 1 && env.maxQueued >= 2
    ensures var h := PerformAll(env, Fresh(), ResurrectionRun(request)).shared;
            1 in h.pruned && 1 in h.files.terminal && h.files.terminal[1].status.Cancelled?
  {
    hide PerformAll, Leads;
    OpeningOpens(env);
    SubmittingQueues(env, OPENING, Opened(), 1, request);
    TwoMoved(env, OPENING + Submitting(1, 1, request), Submitted(env, Opened(), 1, request), request);
  }

  /** Jobs 1 and 2 queued, then both moved by cancellations. */
  function BothQueued(env: Env, request: nat): World {
    Submitted(env, Submitted(env, Opened(), 1, request), 2, request)
  }

  function BothMoved(env: Env, request: nat): World {
    Moved(Moved(BothQueued(env, request), 2), 1)
  }

  lemma BothMovedFacts(env: Env, request: nat)
    ensures var s := BothMoved(env, request);
            && s.phase.Up? && s.shared.files.terminal.Keys == {1, 2} && s.shared.files.terminal[1].id == 1
            && |s.clients| == 5 && s.clients[4] == ReadingMoved(1)
  {
  }

  lemma TwoMoved(env: Env, actions: seq<Action>, s: World, request: nat)
    requires Leads(env, actions, s) && s == Submitted(env, Opened(), 1, request) && env.maxRetained == 1
    requires env.maxQueued >= 2
    ensures var all := actions + Submitting(2, 2, request) + Cancelling(3, 2) + Cancelling(4, 1)
                       + [ClientActs(4, false)] + [Prune] + [ClientActs(5, false)] + [ClientActs(5, false)]
                           + [ClientActs(4, false)];
            var h := PerformAll(env, Fresh(), all).shared;
            1 in h.pruned && 1 in h.files.terminal && h.files.terminal[1].status.Cancelled?
  {
    hide PerformAll, Leads, Submitting, Cancelling;
    var both := BothQueued(env, request);
    SubmittingQueues(env, actions, s, 2, request);
    CancellingMoves(env, actions + Submitting(2, 2, request), both, 2);
    CancellingMoves(env, actions + Submitting(2, 2, request) + Cancelling(3, 2), Moved(both, 2), 1);
    BothMovedFacts(env, request);
    hide Submitted;
    PruneIntervenes(env, actions + Submitting(2, 2, request) + Cancelling(3, 2) + Cancelling(4, 1),
                    BothMoved(env, request));
  }

  lemma PruneIntervenes(env: Env, actions: seq<Action>, s: World)
    requires Leads(env, actions, s) && env.maxRetained == 1 && s.phase.Up? && s.shared.files.terminal.Keys == {1, 2}
    requires |s.clients| == 5 && s.clients[4] == ReadingMoved(1) && s.shared.files.terminal[1].id == 1
    ensures var all := actions + [ClientActs(4, false)] + [Prune] + [ClientActs(5, false)] + [ClientActs(5, false)]
                       + [ClientActs(4, false)];
            var h := PerformAll(env, Fresh(), all).shared;
            1 in h.pruned && 1 in h.files.terminal && h.files.terminal[1].status.Cancelled?
  {
    hide PerformAll, Leads, WorkerStep, RecoveryStep;
    var reading := s.(clients := s.clients[4 := WritingMoved(s.shared.files.terminal[1].Dropped())]);
    Then(env, actions, s, ClientActs(4, false));
    assert Perform(env, s, ClientActs(4, false)) == reading;
    Then(env, actions + [ClientActs(4, false)], reading, Prune);
    RestIntervenes(env, actions + [ClientActs(4, false)] + [Prune], Perform(env, reading, Prune));
  }

  lemma RestIntervenes(env: Env, actions: seq<Action>, s: World)
    requires Leads(env, actions, s) && env.maxRetained == 1 && s.shared.files.terminal.Keys == {1, 2}
    requires |s.clients| == 6 && s.clients[5] == ListingTerminal
    requires s.clients[4].WritingMoved? && s.clients[4].job.id == 1 && s.clients[4].job.status.Cancelled?
    ensures var all := actions + [ClientActs(5, false)] + [ClientActs(5, false)] + [ClientActs(4, false)];
            var h := PerformAll(env, Fresh(), all).shared;
            1 in h.pruned && 1 in h.files.terminal && h.files.terminal[1].status.Cancelled?
  {
    hide PerformAll, Leads, WorkerStep, RecoveryStep;
    var pruning := s.(clients := s.clients[5 := Pruning([1])]);
    Then(env, actions, s, ClientActs(5, false));
    OneExcess(s.shared.files.terminal.Keys);
    assert Perform(env, s, ClientActs(5, false)) == pruning;
    Then(env, actions + [ClientActs(5, false)], pruning, ClientActs(5, false));
    var pruned := Perform(env, pruning, ClientActs(5, false));
    PrunesFirst(env, pruning);
    WritesBack(env, pruned);
    hide Perform;
    var all := actions + [ClientActs(5, false)] + [ClientActs(5, false)];
    Then(env, all, pruned, ClientActs(4, false));
    LeadsTo(env, all + [ClientActs(4, false)], Perform(env, pruned, ClientActs(4, false)));
  }

  lemma PrunesFirst(env: Env, s: World)
    requires |s.clients| == 6 && s.clients[5] == Pruning([1]) && 1 in s.shared.files.terminal
    ensures var next := Perform(env, s, ClientActs(5, false));
            1 in next.shared.pruned && next.clients[4] == s.clients[4] && |next.clients| == 6
  {
  }

  lemma WritesBack(env: Env, s: World)
    requires |s.clients| == 6 && s.clients[4].WritingMoved?
    ensures var (next, job) := (Perform(env, s, ClientActs(4, false)), s.clients[4].job);
            && next.shared.pruned == s.shared.pruned && job.id in next.shared.files.terminal
            && next.shared.files.terminal[job.id] == job
  {
  }

  lemma OneExcess(ids: set<nat>)
    requires ids == {1, 2}
    ensures Ascending(ids) == [1, 2] && [1, 2][..1] == [1]
  {
  }

  /* ---- When a cut-off cancellation is completed ---- */

  /** The client is to write the job's file as cancelled, or to read a file that is there and then write it. */
  predicate WillRewrite(files: Files, pc: ClientPc, id: nat) {
    || (pc.WritingMoved? && pc.job.id == id)
    || (pc == ReadingMoved(id) && id in files.terminal)
  }

  ghost predicate Corrector(s: World, id: nat) {
    exists c :: 0 <= c < |s.clients| && WillRewrite(s.shared.files, s.clients[c], id)
  }

  /** The job was moved, its file not rewritten, and no client is about to do it. */
  ghost predicate Stranded(s: World, id: nat) {
    id in s.shared.moved - s.shared.rewritten && !Corrector(s, id)
  }

  /** The job is still moved and not rewritten, and its file has not come back. */
  predicate StepStrands(h: Shared, h': Shared, id: nat) {
    id in h'.moved - h'.rewritten && (id in h'.files.terminal ==> id in h.files.terminal)
  }

  lemma StrandedFacts(env: Env, h: Shared, id: nat)
    requires SharedOk(env, h) && id in h.moved
    ensures id !in h.files.queue && id !in h.files.running && id in h.issued
    ensures forall other :: other in h.files.terminal ==> h.files.terminal[other].Dropped().id == other
  {
    if id in h.files.queue || id in h.files.running {
      PresentIsNotMoved(h, id);
    }
    if id !in h.issued {
      UnissuedIsNotMoved(h, id);
    }
  }

  lemma ClientStepStrands(env: Env, h: Shared, pc: ClientPc, fails: bool, id: nat)
    requires id in h.moved - h.rewritten && !WillRewrite(h.files, pc, id) && id !in h.files.queue
    requires Reserved(pc) != Some(id)
    requires forall other :: other in h.files.terminal ==> h.files.terminal[other].Dropped().id == other
    ensures var (h', pc') := ClientStep(env, h, pc, fails); StepStrands(h, h', id) && !WillRewrite(h'.files, pc', id)
  {
    hide Ascending;
  }

  lemma WorkerStepStrands(env: Env, h: Shared, pc: WorkerPc, choice: Choice, id: nat)
    requires id in h.moved - h.rewritten && id !in h.files.running
    ensures StepStrands(h, WorkerStep(env, h, pc, choice).0, id)
  {
  }

  lemma RecoveryStepStrands(h: Shared, pc: RecoveryPc, fails: bool, id: nat)
    requires id in h.moved - h.rewritten
    ensures StepStrands(h, RecoveryStep(h, pc, fails).0, id)
  {
  }

  /** Who was not about to rewrite the file is still not. */
  lemma OthersStayIdle(files: Files, files': Files, pc: ClientPc, id: nat)
    requires !WillRewrite(files, pc, id) && (id in files'.terminal ==> id in files.terminal)
    ensures !WillRewrite(files', pc, id)
  {
  }

  lemma NewClientsDoNot(files: Files, id: nat)
    ensures forall other, request :: !WillRewrite(files, Counting(other, request), id)
    ensures forall other :: !WillRewrite(files, LookingQueued(other), id)
    ensures !WillRewrite(files, ListingTerminal, id)
  {
  }

  lemma ClientFacts(env: Env, s: World, c: nat)
    requires Inv(env, s) && c < |s.clients|
    ensures SharedOk(env, s.shared)
    ensures Reserved(s.clients[c]).Some? ==> Reserved(s.clients[c]).value !in s.shared.issued
  {
    assert ClientOk(env, s.shared, s.clients[c]);
    hide SharedOk, WorkersOk;
  }

  lemma PerformClient(env: Env, s: World, c: nat, fails: bool)
    requires c < |s.clients|
    ensures var (h', pc') := ClientStep(env, s.shared, s.clients[c], fails);
            Perform(env, s, ClientActs(c, fails)) == s.(shared := h', clients := s.clients[c := pc'])
  {
    hide ClientStep, WorkerStep, RecoveryStep;
  }

  lemma ClientActsStrands(env: Env, s: World, c: nat, fails: bool, id: nat)
    requires Inv(env, s) && Stranded(s, id) && c < |s.clients|
    ensures Stranded(Perform(env, s, ClientActs(c, fails)), id)
  {
    ClientFacts(env, s, c);
    hide Inv, ClientStep, WillRewrite, SharedOk;
    StrandedFacts(env, s.shared, id);
    ClientStepStrands(env, s.shared, s.clients[c], fails, id);
    var (h', pc') := ClientStep(env, s.shared, s.clients[c], fails);
    PerformClient(env, s, c, fails);
    hide Perform;
    forall d | 0 <= d < |s.clients| && d != c
      ensures !WillRewrite(h'.files, s.clients[d], id)
    {
      OthersStayIdle(s.shared.files, h'.files, s.clients[d], id);
    }
  }

  predicate NewClient(pc: ClientPc) {
    pc.Counting? || pc.LookingQueued? || pc.ListingTerminal?
  }

  /** Every client was there before, or is new. */
  ghost predicate SameOrNew(before: seq<ClientPc>, after: seq<ClientPc>) {
    forall d :: 0 <= d < |after| ==> (d < |before| && after[d] == before[d]) || NewClient(after[d])
  }

  lemma SharedStepStrands(s: World, t: World, id: nat)
    requires Stranded(s, id) && StepStrands(s.shared, t.shared, id) && SameOrNew(s.clients, t.clients)
    ensures Stranded(t, id)
  {
    hide WillRewrite;
    NewClientsDoNot(t.shared.files, id);
    forall d | 0 <= d < |t.clients|
      ensures !WillRewrite(t.shared.files, t.clients[d], id)
    {
      if !NewClient(t.clients[d]) {
        OthersStayIdle(s.shared.files, t.shared.files, s.clients[d], id);
      }
    }
  }

  lemma OtherActsStep(env: Env, s: World, a: Action, id: nat)
    requires id in s.shared.moved - s.shared.rewritten && id !in s.shared.files.running && !a.ClientActs?
    ensures StepStrands(s.shared, Perform(env, s, a).shared, id) && SameOrNew(s.clients, Perform(env, s, a).clients)
  {
    hide WorkerStep, ClientStep, RecoveryStep;
    match a {
      case WorkerActs(w, choice) =>
        if w < |s.workers| {
          WorkerStepStrands(env, s.shared, s.workers[w].pc, choice, id);
        }
      case RecoveryActs(fails) =>
        if s.phase.Recovering? {
          RecoveryStepStrands(s.shared, s.phase.pc, fails, id);
        }
      case _ =>
    }
  }

  lemma OtherActsStrand(env: Env, s: World, a: Action, id: nat)
    requires Inv(env, s) && Stranded(s, id) && !a.ClientActs?
    ensures Stranded(Perform(env, s, a), id)
  {
    StrandedFacts(env, s.shared, id);
    OtherActsStep(env, s, a, id);
    hide Inv, Perform, StepStrands, SameOrNew, Corrector;
    SharedStepStrands(s, Perform(env, s, a), id);
  }

  /** So a retired file left saying Queued says so until it is pruned, whatever runs afterwards. */
  lemma {:induction false} StrandedForever(env: Env, s: World, more: seq<Action>, id: nat)
    requires env.Valid() && Inv(env, s) && Stranded(s, id)
    ensures var t := PerformAll(env, s, more);
            && Inv(env, t) && Stranded(t, id)
            && (id in t.shared.files.terminal ==> t.shared.files.terminal[id].status.Queued?)
    decreases |more|
  {
    hide Perform, Stranded, Inv;
    if |more| > 0 {
      var u, a := PerformAll(env, s, more[..|more| - 1]), more[|more| - 1];
      StrandedForever(env, s, more[..|more| - 1], id);
      PerformKeepsInv(env, u, a);
      if a.ClientActs? {
        StrandedClientActs(env, u, a.c, a.fails, id);
      } else {
        OtherActsStrand(env, u, a, id);
      }
    }
    StrandedSaysQueued(env, PerformAll(env, s, more), id);
  }

  lemma StrandedClientActs(env: Env, s: World, c: nat, fails: bool, id: nat)
    requires Inv(env, s) && Stranded(s, id)
    ensures Stranded(Perform(env, s, ClientActs(c, fails)), id)
  {
    hide Inv, Stranded;
    if c < |s.clients| {
      ClientActsStrands(env, s, c, fails, id);
    }
  }

  lemma StrandedSaysQueued(env: Env, s: World, id: nat)
    requires Inv(env, s) && Stranded(s, id)
    ensures id in s.shared.files.terminal ==> s.shared.files.terminal[id].status.Queued?
  {
  }

  lemma PerformOne(env: Env, s: World, a: Action)
    ensures PerformAll(env, s, [a]) == Perform(env, s, a)
  {
    assert [a][..0] == [] && PerformAll(env, s, [a][..0]) == s;
  }

  lemma PerformTwo(env: Env, s: World, a: Action, b: Action)
    ensures PerformAll(env, s, [a, b]) == Perform(env, Perform(env, s, a), b)
  {
    PerformOne(env, s, a);
    assert [a, b][..1] == [a];
  }

  lemma CorrectorCorrects(env: Env, s: World, c: nat, id: nat)
    requires Inv(env, s) && c < |s.clients| && WillRewrite(s.shared.files, s.clients[c], id)
    ensures exists more :: id in PerformAll(env, s, more).shared.rewritten
  {
    hide WorkerStep, RecoveryStep, SharedOk, WorkersOk, ClientsOk;
    var acts := ClientActs(c, false);
    if s.clients[c].WritingMoved? {
      PerformOne(env, s, acts);
      assert id in PerformAll(env, s, [acts]).shared.rewritten;
    } else {
      OwnName(env, s.shared, id);
      PerformTwo(env, s, acts, acts);
      hide Inv, PerformAll;
      var writing := WritingMoved(s.shared.files.terminal[id].Dropped());
      assert Perform(env, s, acts) == s.(clients := s.clients[c := writing]);
      assert id in PerformAll(env, s, [acts, acts]).shared.rewritten;
    }
  }

  lemma OwnName(env: Env, h: Shared, id: nat)
    requires SharedOk(env, h) && id in h.files.terminal
    ensures h.files.terminal[id].id == id
  {
  }

  /**
   * In any state of the protocol, a job that a cancellation moved and did not rewrite can still be rewritten if
   * and only if some client has yet to write its file, or to read it while it is there.
   */
  lemma CorrectionIsExact(env: Env, s: World, id: nat)
    requires env.Valid() && Inv(env, s) && id in s.shared.moved - s.shared.rewritten
    ensures (exists more :: id in PerformAll(env, s, more).shared.rewritten) <==> Corrector(s, id)
  {
    hide PerformAll, Inv, WillRewrite;
    if Corrector(s, id) {
      var c: nat :| c < |s.clients| && WillRewrite(s.shared.files, s.clients[c], id);
      CorrectorCorrects(env, s, c, id);
    } else {
      forall more
        ensures id !in PerformAll(env, s, more).shared.rewritten
      {
        StrandedForever(env, s, more, id);
      }
    }
  }

  /* ---- When pruning is final ---- */

  /** A cancellation has read the job's file and is about to write it. */
  ghost predicate Rewriter(clients: seq<ClientPc>, id: nat) {
    exists c :: 0 <= c < |clients| && clients[c].WritingMoved? && clients[c].job.id == id
  }

  /** Pruned, with no file, and nobody about to write one. */
  ghost predicate Gone(s: World, id: nat) {
    id in s.shared.pruned && id !in s.shared.files.terminal && !Rewriter(s.clients, id)
  }

  /** A step that is not that write leaves the job without a file. */
  ghost predicate StaysGone(h: Shared, id: nat) {
    id in h.pruned && id !in h.files.terminal
  }

  lemma GoneFacts(env: Env, h: Shared, id: nat)
    requires SharedOk(env, h) && id in h.pruned
    ensures id in h.issued && id !in h.files.queue && id !in h.files.running
    ensures forall other :: other in h.files.terminal ==> h.files.terminal[other].Dropped().id == other
  {
    assert id in h.files.queue.Keys + h.files.running.Keys + h.files.terminal.Keys + h.pruned;
  }

  lemma WorkerStepGone(env: Env, h: Shared, pc: WorkerPc, choice: Choice, id: nat)
    requires StaysGone(h, id) && id !in h.files.running
    ensures StaysGone(WorkerStep(env, h, pc, choice).0, id)
  {
  }

  lemma RecoveryStepGone(h: Shared, pc: RecoveryPc, fails: bool, id: nat)
    requires StaysGone(h, id)
    ensures StaysGone(RecoveryStep(h, pc, fails).0, id)
  {
  }

  lemma ClientStepGone(env: Env, h: Shared, pc: ClientPc, fails: bool, id: nat)
    requires StaysGone(h, id) && id in h.issued && id !in h.files.queue && !(pc.WritingMoved? && pc.job.id == id)
    requires Reserved(pc) != Some(id)
    requires forall other :: other in h.files.terminal ==> h.files.terminal[other].Dropped().id == other
    ensures var (h', pc') := ClientStep(env, h, pc, fails);
            StaysGone(h', id) && !(pc'.WritingMoved? && pc'.job.id == id)
  {
    hide Ascending;
  }

  lemma ClientActsGone(env: Env, s: World, c: nat, fails: bool, id: nat)
    requires Inv(env, s) && Gone(s, id) && c < |s.clients|
    ensures Gone(Perform(env, s, ClientActs(c, fails)), id)
  {
    ClientFacts(env, s, c);
    hide Inv, ClientStep, SharedOk;
    GoneFacts(env, s.shared, id);
    assert !(s.clients[c].WritingMoved? && s.clients[c].job.id == id);
    ClientStepGone(env, s.shared, s.clients[c], fails, id);
    PerformClient(env, s, c, fails);
    hide Perform;
  }

  lemma PerformGone(env: Env, s: World, a: Action, id: nat)
    requires Inv(env, s) && Gone(s, id)
    ensures Gone(Perform(env, s, a), id)
  {
    GoneFacts(env, s.shared, id);
    hide Inv, WorkerStep, ClientStep, RecoveryStep;
    match a {
      case ClientActs(c, fails) =>
        if c < |s.clients| {
          ClientActsGone(env, s, c, fails, id);
        }
      case WorkerActs(w, choice) =>
        if w < |s.workers| {
          WorkerStepGone(env, s.shared, s.workers[w].pc, choice, id);
        }
      case RecoveryActs(fails) =>
        if s.phase.Recovering? {
          RecoveryStepGone(s.shared, s.phase.pc, fails, id);
        }
      case _ =>
    }
  }

  lemma {:induction false} GoneForever(env: Env, s: World, more: seq<Action>, id: nat)
    requires env.Valid() && Inv(env, s) && Gone(s, id)
    ensures Inv(env, PerformAll(env, s, more)) && Gone(PerformAll(env, s, more), id)
    decreases |more|
  {
    hide Perform, Gone, Inv;
    if |more| > 0 {
      var less := more[..|more| - 1];
      GoneForever(env, s, less, id);
      PerformKeepsInv(env, PerformAll(env, s, less), more[|more| - 1]);
      PerformGone(env, PerformAll(env, s, less), more[|more| - 1], id);
    }
  }

  /** The write brings the file back. */
  lemma RewriterBrings(env: Env, s: World, id: nat)
    requires Rewriter(s.clients, id)
    ensures exists more :: id in PerformAll(env, s, more).shared.files.terminal
  {
    var c: nat :| c < |s.clients| && s.clients[c].WritingMoved? && s.clients[c].job.id == id;
    PerformOne(env, s, ClientActs(c, false));
    assert id in PerformAll(env, s, [ClientActs(c, false)]).shared.files.terminal;
  }

  /**
   * In any state of the protocol, a pruned job without a file stays without one, whatever runs afterwards, if
   * and only if no cancellation is between its read of that file and its write.
   */
  lemma PruningIsFinal(env: Env, s: World, id: nat)
    requires env.Valid() && Inv(env, s) && id in s.shared.pruned && id !in s.shared.files.terminal
    ensures (forall more :: id !in PerformAll(env, s, more).shared.files.terminal) <==> !Rewriter(s.clients, id)
  {
    hide PerformAll, Inv;
    if Rewriter(s.clients, id) {
      RewriterBrings(env, s, id);
    } else {
      forall more
        ensures id !in PerformAll(env, s, more).shared.files.terminal
      {
        GoneForever(env, s, more, id);
      }
    }
  }
}
