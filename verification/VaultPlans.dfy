/**
  The action a reconciliation was interrupted in: exactly when it can still be finished, and that it
  blocks recovery for ever when it cannot. Then recovery from any interrupted run.
 */
module VaultPlans {
  import opened Base
  import opened VaultDatabase
  import opened VaultProtocol
  import opened VaultRepository
  import opened VaultSafety
  import opened VaultRecovery
  import opened VaultConvergence

  // ----- When a planned action can be finished -----

  /** The file still is what was planned, and has no name besides the one to be moved. */
  predicate FilesAllow(fs: Files, plan: Plan) {
    match plan
    case QuarantineStage(s, bytes, _) =>
      (s in fs.stage || s in fs.quarantine) && s in fs.data && fs.data[s] == bytes && !Linked(fs, s)
    case QuarantineContent(d, s) =>
      (ContentFile(fs, d) == Some(s) || s in fs.quarantine) && s in fs.data && s !in fs.stage && !Linked(fs.(content := fs.content - {d}), s)
    case ExpireAttempt(_) => true
    case AdoptOrphan(d) => HashFile(fs, ContentFile(fs, d), 1) == Digest(d)
  }

  /** The outcome a plan gives to the attempt it expires. */
  function ExpiryOf(plan: Plan): Outcome {
    if plan.QuarantineStage? then STAGE_EXPIRED else STAGE_MISSING
  }

  /** The attempt has no other outcome, and the bytes to adopt were not stored meanwhile. */
  predicate RowsAllow(e: Evidence, plan: Plan) {
    && (Expires(plan).Some? && Expires(plan).value in e.outcomes ==> e.outcomes[Expires(plan).value] == ExpiryOf(plan))
    && (plan.AdoptOrphan? && plan.digest in e.blobs ==> e.blobs[plan.digest] == RecoveredOrphan)
  }

  /** The condition on what is stored: nothing here asks for a run. */
  predicate Finishable(db: Db, fs: Files, plan: Plan) {
    FilesAllow(fs, plan) && RowsAllow(db.evidence, plan)
  }

  lemma ApplyExactly(e: Evidence, plan: Plan)
    requires PlanAgrees(e, plan)
    ensures ApplyEvidence(e, plan).Some? <==> RowsAllow(e, plan)
  {
  }

  // ----- A planned action finished without interruption -----

  function FinishFiles(fs: Files, plan: Plan): Option<Files> {
    match plan
    case QuarantineStage(s, bytes, _) =>
      if (s !in fs.stage && s !in fs.quarantine) || s !in fs.data || fs.data[s] != bytes then None
      else
        var moved := RemoveStageFile(fs.(quarantine := fs.quarantine + {s}), s);
        if HashFile(moved, QuarantineFile(moved, s), 1) == Digest(bytes) then Some(moved) else None
    case QuarantineContent(d, s) =>
      if ContentFile(fs, d) != Some(s) && s !in fs.quarantine then None
      else
        var linked := fs.(quarantine := fs.quarantine + {s});
        var moved := linked.(content := linked.content - {d});
        if HashFile(moved, QuarantineFile(moved, s), 1).Digest? then Some(moved) else None
    case ExpireAttempt(_) => Some(fs)
    case AdoptOrphan(d) => if HashFile(fs, ContentFile(fs, d), 1) == Digest(d) then Some(fs) else None
  }

  function FinishPlan(db: Db, fs: Files, p: Process): Option<(Db, Files)> {
    if db.plan.None? then None
    else
      var files := FinishFiles(fs, db.plan.value);
      if files.None? then None
      else
        var rows := ApplyPlan(db, p, db.plan.value);
        if rows.None? then None else Some((rows.value, files.value))
  }

  lemma FilesExactly(fs: Files, plan: Plan)
    ensures FinishFiles(fs, plan).Some? <==> FilesAllow(fs, plan)
  {
    match plan
    case QuarantineStage(s, bytes, _) => {
      var moved := RemoveStageFile(fs.(quarantine := fs.quarantine + {s}), s);
      assert Linked(moved, s) == Linked(fs, s);
    }
    case QuarantineContent(d, s) => {
      var linked := fs.(quarantine := fs.quarantine + {s});
      var moved := linked.(content := linked.content - {d});
      assert Linked(moved, s) == Linked(fs.(content := fs.content - {d}), s);
    }
    case _ => {}
  }

  lemma FinishFilesTidy(plan: Plan, fs: Files)
    requires FilesTidy(Some(plan), fs) && !plan.QuarantineContent? && FinishFiles(fs, plan).Some?
    ensures var files := FinishFiles(fs, plan).value;
            && FilesTidy(None, files) && files.data == fs.data && files.content == fs.content && files.stage <= fs.stage
  {
    hide HashFile;
  }

  /** An interrupted action can be finished exactly when the stored rows and files allow it. */
  lemma FinishPlanExact(db: Db, fs: Files, p: Process)
    requires Interrupted(db, fs, p) && db.plan.Some?
    ensures FinishPlan(db, fs, p).Some? <==> Finishable(db, fs, db.plan.value)
    ensures FinishPlan(db, fs, p).Some? ==>
              var (next, files) := FinishPlan(db, fs, p).value;
              && Interrupted(next, files, p) && next.plan.None? && next.phase == db.phase && next.installs == db.installs
              && forall i :: Conflicted(next, i) <==> Conflicted(db, i) || ExpiryHits(db, db.plan.value, i)
  {
    hide *;
    var plan := db.plan.value;
    InterruptedPlan(db, fs, p);
    ApplyExactly(db.evidence, plan);
    FilesExactly(fs, plan);
    FinishPlanIs(db, fs, p);
    if FinishPlan(db, fs, p).Some? {
      var (next, files) := FinishPlan(db, fs, p).value;
      FinishFilesTidy(plan, fs);
      NamesSafe(db, fs, files);
      if plan.AdoptOrphan? { AdoptedHere(fs, files, plan.digest); }
      ApplySafe(db, files, p, plan);
      ApplyTx(db, p, plan);
      PlanInterrupted(next, files, p);
    }
  }

  lemma InterruptedPlan(db: Db, fs: Files, p: Process)
    requires Interrupted(db, fs, p) && db.plan.Some?
    ensures RowsAndFiles(db, fs) && PlanAgrees(db.evidence, db.plan.value) && FilesTidy(Some(db.plan.value), fs)
    ensures !db.plan.value.QuarantineContent? && OutcomesTidy(db) && db.fence == Some(p)
  {
    hide DbAgrees, FilesAgree, BlobsBacked, IntentsStaged, OutcomesTidy, PlanKnown;
  }

  lemma FinishPlanIs(db: Db, fs: Files, p: Process)
    requires db.plan.Some? && db.fence == Some(p)
    ensures FinishPlan(db, fs, p).Some? <==> FinishFiles(fs, db.plan.value).Some? && ApplyEvidence(db.evidence, db.plan.value).Some?
    ensures Finishable(db, fs, db.plan.value) <==> FilesAllow(fs, db.plan.value) && RowsAllow(db.evidence, db.plan.value)
    ensures FinishPlan(db, fs, p).Some? ==>
              var (next, files) := FinishPlan(db, fs, p).value;
              && FinishFiles(fs, db.plan.value) == Some(files) && ApplyPlan(db, p, db.plan.value) == Some(next)
              && next.plan.None? && next.phase == db.phase && next.installs == db.installs && next.fence == db.fence
  {
    hide FinishFiles, FilesAllow, RowsAllow, ApplyEvidence;
  }

  lemma AdoptedHere(fs: Files, files: Files, d: Bytes)
    requires FinishFiles(fs, AdoptOrphan(d)) == Some(files)
    ensures d in files.content
  {
  }

  lemma PlanInterrupted(db: Db, fs: Files, p: Process)
    requires RowsAndFiles(db, fs) && FilesTidy(None, fs) && OutcomesTidy(db) && db.fence == Some(p) && db.plan.None?
    ensures Interrupted(db, fs, p)
  {
    hide RowsAndFiles, FilesTidy, OutcomesTidy;
  }

  // ----- Those steps as a run of the protocol -----

  function PlanScript(p: Process, plan: Plan): seq<Event> {
    if plan.QuarantineStage? || plan.QuarantineContent? then
      [Recover(p, Resume), Recover(p, QuarantineLink), Recover(p, QuarantineRemove), Recover(p, HashTarget), Recover(p, Apply)]
    else [Recover(p, Resume), Recover(p, Rehash), Recover(p, Apply)]
  }

  lemma QuarantineFileMoves(db: Db, fs: Files, p: Process)
    requires db.plan.Some? && db.plan.value.QuarantineStage? && FinishPlan(db, fs, p).Some?
    ensures var plan := db.plan.value;
            var linked := fs.(quarantine := fs.quarantine + {plan.staging});
            var files := FinishPlan(db, fs, p).value.1;
            && RecoveryMove(db, fs, p, Idle, Resume) == Some(Move(db, fs, Some(Holding(plan))))
            && RecoveryMove(db, fs, p, Holding(plan), QuarantineLink) == Some(Move(db, linked, Some(QuarantineLinked(plan))))
            && RecoveryMove(db, linked, p, QuarantineLinked(plan), QuarantineRemove) == Some(Move(db, files, Some(SourceGone(plan))))
  {
    hide ApplyEvidence, HashFile, InspectMove, IntentMove, NextPhaseDb;
  }

  lemma QuarantineRowMoves(db: Db, fs: Files, p: Process)
    requires db.plan.Some? && db.plan.value.QuarantineStage? && FinishPlan(db, fs, p).Some?
    ensures var plan := db.plan.value;
            var (next, files) := FinishPlan(db, fs, p).value;
            && RecoveryMove(db, files, p, SourceGone(plan), HashTarget) == Some(Move(db, files, Some(Ready(plan))))
            && RecoveryMove(db, files, p, Ready(plan), Apply) == Some(Move(next, files, Some(Idle)))
  {
    hide ApplyEvidence, HashFile, InspectMove, IntentMove, NextPhaseDb;
  }

  lemma RehashMoves(db: Db, fs: Files, p: Process)
    requires db.plan.Some? && !db.plan.value.QuarantineStage? && !db.plan.value.QuarantineContent? && FinishPlan(db, fs, p).Some?
    ensures var plan := db.plan.value;
            var (next, files) := FinishPlan(db, fs, p).value;
            && files == fs
            && RecoveryMove(db, fs, p, Idle, Resume) == Some(Move(db, fs, Some(Holding(plan))))
            && RecoveryMove(db, fs, p, Holding(plan), Rehash) == Some(Move(db, fs, Some(Ready(plan))))
            && RecoveryMove(db, fs, p, Ready(plan), Apply) == Some(Move(next, fs, Some(Idle)))
  {
    hide ApplyEvidence, HashFile, InspectMove, IntentMove, NextPhaseDb;
  }

  /** A process whose reconciliation has not begun takes its first step as one that is idle. */
  lemma FirstMove(w: World, p: Process, act: RecoveryAct)
    requires Alive(w, p) == Idle
    ensures Step(w, Recover(p, act)) == Step(At(w, p, w.db, w.fs, Idle), Recover(p, act))
  {
    hide RecoveryMove;
    var m := RecoveryMove(w.db, w.fs, p, Idle, act);
    if m.Some? {
      if m.value.pc.Some? {
        assert w.recoveries[p := Idle][p := m.value.pc.value] == w.recoveries[p := m.value.pc.value];
      } else {
        assert w.recoveries[p := Idle] - {p} == w.recoveries - {p};
      }
    }
  }

  /** Taking those steps with nothing in between is finishing the action. */
  lemma FinishPlanIsRun(w: World, p: Process)
    requires w.db.plan.Some? && Alive(w, p) == Idle && !w.db.plan.value.QuarantineContent? && FinishPlan(w.db, w.fs, p).Some?
    ensures var (next, files) := FinishPlan(w.db, w.fs, p).value;
            Run(w, PlanScript(p, w.db.plan.value)) == Some(At(w, p, next, files, Idle))
  {
    hide *;
    var db, fs, plan := w.db, w.fs, w.db.plan.value;
    var (next, files) := FinishPlan(db, fs, p).value;
    var held := At(w, p, db, fs, Holding(plan));
    FirstMove(w, p, Resume);
    PlanScriptIs(p, plan);
    if plan.QuarantineStage? {
      var linked := fs.(quarantine := fs.quarantine + {plan.staging});
      QuarantineFileMoves(db, fs, p);
      QuarantineRowMoves(db, fs, p);
      MoveAt(w, p, db, fs, Idle, Resume, db, fs, Holding(plan));
      MoveAt(w, p, db, fs, Holding(plan), QuarantineLink, db, linked, QuarantineLinked(plan));
      MoveAt(w, p, db, linked, QuarantineLinked(plan), QuarantineRemove, db, files, SourceGone(plan));
      MoveAt(w, p, db, files, SourceGone(plan), HashTarget, db, files, Ready(plan));
      MoveAt(w, p, db, files, Ready(plan), Apply, next, files, Idle);
      TraceRuns([w, held, At(w, p, db, linked, QuarantineLinked(plan)), At(w, p, db, files, SourceGone(plan)),
                 At(w, p, db, files, Ready(plan)), At(w, p, next, files, Idle)], PlanScript(p, plan));
    } else {
      RehashMoves(db, fs, p);
      MoveAt(w, p, db, fs, Idle, Resume, db, fs, Holding(plan));
      MoveAt(w, p, db, fs, Holding(plan), Rehash, db, fs, Ready(plan));
      MoveAt(w, p, db, fs, Ready(plan), Apply, next, fs, Idle);
      TraceRuns([w, held, At(w, p, db, fs, Ready(plan)), At(w, p, next, fs, Idle)], PlanScript(p, plan));
    }
  }

  lemma PlanScriptIs(p: Process, plan: Plan)
    ensures plan.QuarantineStage? ==>
              PlanScript(p, plan) == [Recover(p, Resume), Recover(p, QuarantineLink), Recover(p, QuarantineRemove),
                                      Recover(p, HashTarget), Recover(p, Apply)]
    ensures !plan.QuarantineStage? && !plan.QuarantineContent? ==>
              PlanScript(p, plan) == [Recover(p, Resume), Recover(p, Rehash), Recover(p, Apply)]
    ensures CalmRun(PlanScript(p, plan))
  {
  }

  // ----- A plan that can no longer be finished -----

  /** The rows rule the action out, or the files do and no thread is past looking at them. */
  ghost predicate Stuck(w: World, plan: Plan) {
    && w.db.plan == Some(plan)
    && (!RowsAllow(w.db.evidence, plan) || (!FilesAllow(w.fs, plan) && NobodyReady(w.recoveries, plan)))
  }

  ghost predicate NobodyReady(recoveries: map<Process, RecoveryPc>, plan: Plan) {
    forall p :: p in recoveries ==> recoveries[p] != Ready(plan)
  }

  lemma RivalStays(e: Evidence, f: Evidence, plan: Plan)
    requires EvidenceGrows(e, f) && !RowsAllow(e, plan)
    ensures !RowsAllow(f, plan)
  {
  }

  lemma FilesStay(fs: Files, files: Files, plan: Plan)
    requires PlanKnown(fs, plan) && FilesAgree(fs) && StageShrinks(fs, files) && !plan.QuarantineContent? && !FilesAllow(fs, plan)
    ensures !FilesAllow(files, plan)
  {
    match plan
    case QuarantineStage(s, bytes, _) => {
      if Linked(fs, s) {
        var d :| d in fs.content && fs.content[d] == s;
        assert files.content[d] == s;
      }
      if fs.data[s] != bytes { assert |files.data[s]| > |bytes|; }
    }
    case AdoptOrphan(d) => SingleHash(fs, d);
    case _ => {}
  }

  lemma SingleHash(fs: Files, d: Bytes)
    requires SingleName(fs, d) && FilesAgree(fs)
    ensures HashFile(fs, ContentFile(fs, d), 1) == Digest(d)
  {
  }

  /** No step removes a name a plan relies on, or makes a planned file what it was again. */
  lemma StepShrinks(w: World, e: Event)
    requires Safe(w) && Tidy(w) && Step(w, e).Some? && Calm(e)
    ensures StageShrinks(w.fs, Step(w, e).value.fs)
  {
    hide Safe, Tidy, StoreMove, RecoveryMove, StageShrinks, BeginStep;
    SameShrinks(w.fs);
    match e
    case Store(a, act) => { TidyParts(w); StoreFilesTidy(w.db, w.fs, a, w.stores[a], act); }
    case Recover(p, act) => { TidyParts(w); AliveAgrees(w, p); RecoveryTidy(w.db, w.fs, p, Alive(w, p), act); ShrinksOf(w.db, w.fs, RecoveryMove(w.db, w.fs, p, Alive(w, p), act).value); }
    case Begin(p, a, row, response) => BeginFiles(w, p, a, row, response);
    case _ => {}
  }

  lemma SameShrinks(fs: Files)
    ensures StageShrinks(fs, fs)
  {
  }

  lemma ShrinksOf(db: Db, fs: Files, m: Move<RecoveryPc>)
    requires MoveTidy(db, fs, m)
    ensures StageShrinks(fs, m.fs)
  {
    hide StageShrinks, FilesTidy, PcTidy;
  }

  lemma BeginFiles(w: World, p: Process, a: AttemptId, row: Attempt, response: string)
    requires BeginStep(w, p, a, row, response).Some?
    ensures BeginStep(w, p, a, row, response).value.fs == w.fs
  {
  }

  /** A thread comes to the point of applying a plan only by finding its file as planned. */
  lemma ReadyOnlyIfAllowed(db: Db, fs: Files, p: Process, pc: RecoveryPc, act: RecoveryAct, plan: Plan)
    requires RecoveryMove(db, fs, p, pc, act).Some? && RecoveryMove(db, fs, p, pc, act).value.pc == Some(Ready(plan))
    requires PlanAgrees(db.evidence, plan)
    ensures FilesAllow(fs, plan)
  {
    hide IntentMove, InspectMove, NextPhaseDb, PlanAction, ApplyPlan;
    if plan.QuarantineStage? { HashedAlone(fs, plan.staging, plan.bytes); }
    IntentNeverReady(db, fs, p, pc, act, plan);
    InspectNeverReady(db, fs, act, plan);
  }

  lemma HashedAlone(fs: Files, s: StagingId, bytes: Bytes)
    ensures HashFile(fs, QuarantineFile(fs, s), 1) == Digest(bytes) ==>
              s in fs.quarantine && s in fs.data && fs.data[s] == bytes && !Linked(fs, s)
  {
  }

  lemma IntentNeverReady(db: Db, fs: Files, p: Process, pc: RecoveryPc, act: RecoveryAct, plan: Plan)
    ensures IntentMove(db, fs, p, pc, act).Some? ==> IntentMove(db, fs, p, pc, act).value.pc != Some(Ready(plan))
  {
    hide HashFile, NextPending, MarkIntent, CommitIntent, AbortIntent;
  }

  lemma InspectNeverReady(db: Db, fs: Files, act: RecoveryAct, plan: Plan)
    ensures InspectMove(db, fs, act).Some? ==> InspectMove(db, fs, act).value.pc != Some(Ready(plan))
  {
    hide HashFile, StagePlan;
  }

  /** Only applying the pending plan takes it away, and no other plan replaces it. */
  lemma PlanStays(db: Db, fs: Files, p: Process, pc: RecoveryPc, act: RecoveryAct, plan: Plan)
    requires RecoveryMove(db, fs, p, pc, act).Some? && db.plan == Some(plan)
    requires !(pc == Ready(plan) && ApplyEvidence(db.evidence, plan).Some?)
    ensures RecoveryMove(db, fs, p, pc, act).value.db.plan == Some(plan)
  {
    hide HashFile, NextPending, ApplyEvidence, StagePlan, InsertSuccess, SettleOutcome, Completed;
  }

  lemma StorePlan(db: Db, fs: Files, a: AttemptId, th: StoreThread, act: StoreAct)
    requires StoreMove(db, fs, a, th, act).Some? && FilesTidy(db.plan, fs)
    ensures StoreMove(db, fs, a, th, act).value.db.plan == db.plan
  {
    StoreFilesTidy(db, fs, a, th, act);
    hide StoreMove;
  }

  lemma StuckRecover(w: World, p: Process, act: RecoveryAct, plan: Plan)
    requires Safe(w) && Tidy(w) && Stuck(w, plan) && RecoverStep(w, p, act).Some?
    ensures RecoverStep(w, p, act).value.db.plan == Some(plan)
    ensures !RowsAllow(w.db.evidence, plan) || NobodyReady(RecoverStep(w, p, act).value.recoveries, plan)
  {
    hide Safe, Tidy, RecoveryMove, ApplyEvidence, RowsAllow, FilesAllow, PlanAgrees;
    SafeParts(w);
    PlanOnRecord(w.db, w.fs);
    ApplyExactly(w.db.evidence, plan);
    PlanStays(w.db, w.fs, p, Alive(w, p), act, plan);
    if RowsAllow(w.db.evidence, plan) && RecoveryMove(w.db, w.fs, p, Alive(w, p), act).value.pc == Some(Ready(plan)) {
      ReadyOnlyIfAllowed(w.db, w.fs, p, Alive(w, p), act, plan);
    }
  }

  lemma StuckStep(w: World, e: Event, plan: Plan)
    requires Safe(w) && Tidy(w) && Stuck(w, plan) && Step(w, e).Some? && Calm(e)
    ensures Stuck(Step(w, e).value, plan)
  {
    hide *;
    var next := Step(w, e).value;
    StuckParts(w, plan);
    StepSafe(w, e);
    StepShrinks(w, e);
    StuckThreads(w, e, plan);
    if !RowsAllow(w.db.evidence, plan) {
      GrowingRows(w.db, next.db);
      RivalStays(w.db.evidence, next.db.evidence, plan);
    } else {
      FilesStay(w.fs, next.fs, plan);
    }
    StuckAgain(next, plan);
  }

  lemma StuckParts(w: World, plan: Plan)
    requires Safe(w) && Tidy(w) && Stuck(w, plan)
    ensures w.db.plan == Some(plan) && !plan.QuarantineContent? && PlanKnown(w.fs, plan) && FilesAgree(w.fs)
    ensures !RowsAllow(w.db.evidence, plan) || (!FilesAllow(w.fs, plan) && NobodyReady(w.recoveries, plan))
  {
    hide DbAgrees, FilesAgree, PlanKnown, RowsAllow, FilesAllow, NobodyReady, StoresAgree, RecoveriesAgree, PcsTidy, ThreadsTidy, OutcomesTidy;
  }

  lemma StuckThreads(w: World, e: Event, plan: Plan)
    requires Safe(w) && Tidy(w) && Stuck(w, plan) && Step(w, e).Some?
    ensures Step(w, e).value.db.plan == Some(plan)
    ensures !RowsAllow(w.db.evidence, plan) || NobodyReady(Step(w, e).value.recoveries, plan)
  {
    hide Safe, Tidy, StoreMove, RecoverStep, RowsAllow, FilesAllow;
    match e
    case Store(a, act) => { TidyParts(w); StorePlan(w.db, w.fs, a, w.stores[a], act); }
    case Recover(p, act) => StuckRecover(w, p, act, plan);
    case _ => {}
  }

  lemma GrowingRows(db: Db, next: Db)
    requires Grows(db, next)
    ensures EvidenceGrows(db.evidence, next.evidence)
  {
    hide EvidenceGrows, InstallsGrow;
  }

  lemma StuckAgain(w: World, plan: Plan)
    requires w.db.plan == Some(plan)
    requires !RowsAllow(w.db.evidence, plan) || (!FilesAllow(w.fs, plan) && NobodyReady(w.recoveries, plan))
    ensures Stuck(w, plan)
  {
    hide RowsAllow, FilesAllow, NobodyReady;
  }

  /** A plan that can no longer be finished is pending for ever, and with it no pass over intents can begin. */
  lemma {:induction false} StuckForever(w: World, es: seq<Event>, plan: Plan)
    requires Safe(w) && Tidy(w) && Stuck(w, plan) && Run(w, es).Some? && CalmRun(es)
    ensures Run(w, es).value.db.plan == Some(plan)
    decreases |es|
  {
    hide Safe, Tidy, Step, Calm, RowsAllow, FilesAllow, NobodyReady;
    if es == [] {
    } else {
      StepSafe(w, es[0]);
      StepTidy(w, es[0]);
      StuckStep(w, es[0], plan);
      StuckForever(Step(w, es[0]).value, es[1..], plan);
    }
  }

  /** While an action is pending no process loads an intent or leaves its phase. */
  lemma PlanBlocks(w: World, p: Process, act: RecoveryAct)
    requires w.db.plan.Some? && Alive(w, p) == Idle && (act.Load? || act.NextPhase?)
    ensures Step(w, Recover(p, act)).None?
  {
  }

  /**
    The pending action of an interrupted run, with no reconciliation under way: some run finishes it if
    and only if the stored rows and files allow it.
   */
  lemma PlanFinishedExactly(es: seq<Event>, p: Process)
    requires Run(EMPTY_WORLD, es).Some? && CalmRun(es)
    requires var w := Run(EMPTY_WORLD, es).value;
             w.db.fence == Some(p) && w.db.plan.Some? && forall q :: q in w.recoveries ==> w.recoveries[q] == Idle
    ensures var w := Run(EMPTY_WORLD, es).value;
            Finishable(w.db, w.fs, w.db.plan.value)
            <==> exists more :: CalmRun(more) && Run(w, more).Some? && Run(w, more).value.db.plan != w.db.plan
  {
    EmptySafe();
    EmptyTidy();
    RunTidy(EMPTY_WORLD, es);
    CrashThenRecover(es, p);
    var w := Run(EMPTY_WORLD, es).value;
    var plan := w.db.plan.value;
    hide Run, CalmRun, Safe, Tidy, Interrupted, FinishPlan, Recovering, FilesAllow, RowsAllow, PlanScript;
    FinishPlanExact(w.db, w.fs, p);
    if Finishable(w.db, w.fs, plan) {
      InterruptedPlan(w.db, w.fs, p);
      FinishPlanIsRun(w, p);
      PlanScriptIs(p, plan);
      assert Run(w, PlanScript(p, plan)).value.db.plan != w.db.plan;
    } else if more :| CalmRun(more) && Run(w, more).Some? && Run(w, more).value.db.plan != w.db.plan {
      StuckForever(w, more, plan);
    }
  }

  // ----- Recovery from any interrupted run -----

  /** The pending action, as the loop carries it out. */
  method FinishPlannedAction(repo: ArtifactRepository, files: VaultFiles, p: Process) returns (ok: bool)
    requires repo.plan.Some?
    modifies repo, files
    ensures var one := FinishPlan(old(repo.Rows()), old(files.Names()), p);
            ok == one.Some? && (ok ==> repo.Rows() == one.value.0 && files.Names() == one.value.1)
  {
    var plan := repo.plan.value;
    match plan {
      case QuarantineStage(s, bytes, _) =>
        if (s !in files.stage && s !in files.quarantine) || s !in files.data || files.data[s] != bytes { return false; }
        files.LinkQuarantine(s);
        files.Remove(s);
        if HashFile(files.Names(), QuarantineFile(files.Names(), s), 1) != Digest(bytes) { return false; }
      case QuarantineContent(d, s) =>
        if ContentFile(files.Names(), d) != Some(s) && s !in files.quarantine { return false; }
        files.LinkQuarantine(s);
        files.RemoveContent(d);
        if !HashFile(files.Names(), QuarantineFile(files.Names(), s), 1).Digest? { return false; }
      case AdoptOrphan(d) =>
        if HashFile(files.Names(), ContentFile(files.Names(), d), 1) != Digest(d) { return false; }
      case ExpireAttempt(_) => {}
    }
    ok := repo.ApplyReconciliationAction(p, plan);
  }

  /** Where the pass over intents stands once no action is pending. */
  function Unplanned(db: Db, fs: Files, p: Process): Option<(Db, Files)> {
    if db.plan.None? then Some((db, fs)) else FinishPlan(db, fs, p)
  }

  /** An intent that is settled: committed and cleaned, or aborted. */
  predicate SettledFor(n: Installs, i: IntentId) {
    || (Marked(n, i, EvidenceCommitted) && Marked(n, i, StageCleaned) && !Marked(n, i, Aborted))
    || (Marked(n, i, Aborted) && !Marked(n, i, EvidenceCommitted) && !Marked(n, i, StageCleaned))
  }

  /**
    Recovery of the installs by the process that holds the lease, wherever the run was interrupted: the
    pending action, the pass from the key it had reached, and, the other phases finding nothing to do, a
    pass from the start. It completes if and only if the action can be finished and no intent is then in
    conflict; every intent is settled when it has.
   */
  method RecoverInstalls(repo: ArtifactRepository, files: VaultFiles, p: Process) returns (ok: bool)
    requires Interrupted(repo.Rows(), files.Names(), p)
    modifies repo, files
    ensures var start := Unplanned(old(repo.Rows()), old(files.Names()), p);
            ok <==> start.Some? && forall i :: i in old(repo.intents) ==> !Conflicted(start.value.0, i)
    ensures ok ==> repo.intents == old(repo.intents) && Recovering(repo.Rows(), files.Names(), p)
    ensures ok ==> forall i :: i in repo.intents ==> SettledFor(repo.Rows().installs, i)
  {
    hide Interrupted, Recovering, Conflicted, FinishPlan, Pending, EndsAs, Recoverable, SettledFor, Finishable, ExpiryHits;
    ghost var start := Unplanned(repo.Rows(), files.Names(), p);
    if repo.plan.Some? {
      FinishPlanExact(repo.Rows(), files.Names(), p);
      ok := FinishPlannedAction(repo, files, p);
      if !ok { return; }
    }
    NothingPlanned(repo.Rows(), files.Names(), p);
    ghost var db := repo.Rows();
    if repo.phase.Intents? {
      ok := FinishIntents(repo, files, p);
      if !ok { return; }
      PassConflicts(db, repo.Rows(), db.phase.after);
    }
    PassAgain(repo.Rows(), files.Names(), p);
    ok := repo.AdvanceReconciliationState(p, Intents(-1));
    ok := FinishIntents(repo, files, p);
    if ok { AllSettled(repo.Rows(), files.Names(), p); }
  }

  /** A pass that went through leaves the conflicts there were, which all lie behind its key. */
  lemma PassConflicts(db: Db, next: Db, from: int)
    requires next.installs.intents == db.installs.intents
    requires forall i :: i in db.installs.intents && from < i ==> !Conflicted(db, i) && !Pending(next.installs, i)
    requires forall i :: i in db.installs.intents && i <= from ==> (Conflicted(next, i) <==> Conflicted(db, i))
    ensures forall i :: i in db.installs.intents ==> (Conflicted(next, i) <==> Conflicted(db, i))
  {
    forall i | i in db.installs.intents ensures Conflicted(next, i) <==> Conflicted(db, i) {
      if from < i { assert !Pending(next.installs, i); }
    }
    hide Pending;
  }

  lemma PassAgain(db: Db, fs: Files, p: Process)
    requires Recovering(db, fs, p)
    ensures db.fence == Some(p) && Recovering(db.(phase := Intents(-1)), fs, p)
    ensures forall i :: Conflicted(db.(phase := Intents(-1)), i) <==> Conflicted(db, i)
  {
    PhaseSafe(db, fs, Intents(-1));
    PhaseBlind(db, Intents(-1));
    hide RowsAndFiles, TwoLinks, IntentFree, Grows, Conflicted;
  }

  lemma AllSettled(db: Db, fs: Files, p: Process)
    requires Recovering(db, fs, p) && forall i :: i in db.installs.intents ==> !Pending(db.installs, i)
    ensures forall i :: i in db.installs.intents ==> SettledFor(db.installs, i)
  {
    forall i | i in db.installs.intents ensures SettledFor(db.installs, i) {
      NeverBoth(db, i);
    }
    hide FilesAgree, BlobsBacked, IntentsStaged, TwoLinks, MissingMeansAborted;
  }
}
