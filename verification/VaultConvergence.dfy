/**
  Every state a run can reach is one that recovery can start from, and the only thing that can make a
  pending intent impossible to settle is the expiry of its attempt.
 */
module VaultConvergence {
  import opened Base
  import opened VaultDatabase
  import opened VaultProtocol
  import opened VaultSafety
  import opened VaultRecovery

  // ----- A staging file being moved to quarantine is the planned one -----

  predicate Moving(plan: Option<Plan>, s: StagingId) {
    plan.Some? && plan.value.QuarantineStage? && plan.value.staging == s
  }

  /** A planned staging file has at most grown since; a planned orphan has no second name. */
  predicate PlanKnown(fs: Files, plan: Plan) {
    && (plan.QuarantineStage? ==> plan.staging in fs.data && plan.bytes <= fs.data[plan.staging])
    && (plan.AdoptOrphan? ==> SingleName(fs, plan.digest))
  }

  predicate SingleName(fs: Files, d: Bytes) {
    d in fs.content && fs.content[d] in fs.data && fs.content[d] !in fs.stage && fs.content[d] !in fs.quarantine
  }

  ghost predicate FilesTidy(plan: Option<Plan>, fs: Files) {
    && (forall s :: s in fs.quarantine ==> s in fs.data)
    && (forall s :: s in fs.stage && s in fs.quarantine ==> Moving(plan, s))
    && (plan.Some? ==> PlanKnown(fs, plan.value))
  }

  predicate PcTidy(plan: Option<Plan>, fs: Files, pc: RecoveryPc) {
    match pc
    case Planning(q) => PlanKnown(fs, q)
    case Holding(q) => PlanKnown(fs, q) && (q.QuarantineStage? && q.staging in fs.stage ==> Moving(plan, q.staging))
    case QuarantineLinked(q) =>
      PlanKnown(fs, q) && (q.QuarantineStage? ==> q.staging in fs.quarantine && (q.staging in fs.stage ==> Moving(plan, q.staging)))
    case SourceGone(q) => PlanKnown(fs, q) && (q.QuarantineStage? ==> q.staging !in fs.stage)
    case Ready(q) => PlanKnown(fs, q) && (q.QuarantineStage? ==> q.staging !in fs.stage)
    case _ => true
  }

  ghost predicate PcsTidy(plan: Option<Plan>, fs: Files, recoveries: map<Process, RecoveryPc>) {
    forall p :: p in recoveries ==> PcTidy(plan, fs, recoveries[p])
  }

  /** A change under which plans stay known: no known file reappears in staging or is moved from anywhere else. */
  predicate StageShrinks(fs: Files, files: Files) {
    && (forall s :: s in fs.data ==> s in files.data && fs.data[s] <= files.data[s])
    && (forall s :: s in files.stage ==> s in fs.stage || s !in fs.data)
    && fs.quarantine <= files.quarantine
    && (forall s :: s in files.quarantine ==> s in fs.quarantine || s in fs.stage)
    && (forall d :: d in fs.content ==> d in files.content && files.content[d] == fs.content[d])
  }

  lemma PcTidyKept(plan: Option<Plan>, fs: Files, files: Files, pc: RecoveryPc)
    requires PcTidy(plan, fs, pc) && StageShrinks(fs, files)
    ensures PcTidy(plan, files, pc)
  {
  }

  lemma StoreFilesTidy(db: Db, fs: Files, a: AttemptId, th: StoreThread, act: StoreAct)
    requires StoreMove(db, fs, a, th, act).Some? && FilesTidy(db.plan, fs)
    ensures var m := StoreMove(db, fs, a, th, act).value;
            StageShrinks(fs, m.fs) && FilesTidy(m.db.plan, m.fs) && m.db.plan == db.plan
  {
    hide HashFile, ThreadIntent;
  }

  /** What a recovery move owes: its own thread stays tidy, and every other one does. */
  ghost predicate MoveTidy(db: Db, fs: Files, m: Move<RecoveryPc>) {
    && StageShrinks(fs, m.fs) && FilesTidy(m.db.plan, m.fs)
    && (m.pc.Some? ==> PcTidy(m.db.plan, m.fs, m.pc.value))
    && (forall pc :: PcTidy(db.plan, fs, pc) ==> PcTidy(m.db.plan, m.fs, pc))
  }

  lemma SamePlanTidy(db: Db, fs: Files, files: Files)
    requires StageShrinks(fs, files)
    ensures forall pc :: PcTidy(db.plan, fs, pc) ==> PcTidy(db.plan, files, pc)
  {
    forall pc | PcTidy(db.plan, fs, pc) ensures PcTidy(db.plan, files, pc) {
      PcTidyKept(db.plan, fs, files, pc);
    }
  }

  lemma IntentTidy(db: Db, fs: Files, p: Process, pc: RecoveryPc, act: RecoveryAct)
    requires IntentMove(db, fs, p, pc, act).Some? && FilesTidy(db.plan, fs)
    ensures MoveTidy(db, fs, IntentMove(db, fs, p, pc, act).value)
  {
    hide HashFile, NextPending;
    SamePlanTidy(db, fs, IntentMove(db, fs, p, pc, act).value.fs);
    hide PcTidy;
    assert IntentMove(db, fs, p, pc, act).value.db.plan == db.plan;
    assert StageShrinks(fs, IntentMove(db, fs, p, pc, act).value.fs);
    IntentPcTidy(db, fs, p, pc, act);
  }

  lemma IntentPcTidy(db: Db, fs: Files, p: Process, pc: RecoveryPc, act: RecoveryAct)
    requires IntentMove(db, fs, p, pc, act).Some?
    ensures var m := IntentMove(db, fs, p, pc, act).value; m.pc.Some? ==> PcTidy(m.db.plan, m.fs, m.pc.value)
  {
    hide HashFile, NextPending, MarkIntent, CommitIntent, AbortIntent;
  }

  lemma PlanTidy(db: Db, fs: Files, p: Process, plan: Plan, act: RecoveryAct, pc: RecoveryPc)
    requires PlanMove(db, fs, p, plan, act, pc).Some? && FilesTidy(db.plan, fs) && PcTidy(db.plan, fs, pc)
    requires pc == Holding(plan) || pc == QuarantineLinked(plan) || pc == SourceGone(plan) || pc == Ready(plan)
    requires PlanAgrees(db.evidence, plan) && !act.Apply?
    ensures MoveTidy(db, fs, PlanMove(db, fs, p, plan, act, pc).value)
  {
    hide HashFile;
    SamePlanTidy(db, fs, PlanMove(db, fs, p, plan, act, pc).value.fs);
  }

  /** When a plan is applied its staging file is gone, so nobody else was moving it. */
  lemma ApplyTidy(db: Db, fs: Files, p: Process, plan: Plan)
    requires ApplyPlan(db, p, plan).Some? && FilesTidy(db.plan, fs) && PcTidy(db.plan, fs, Ready(plan))
    ensures MoveTidy(db, fs, Move(ApplyPlan(db, p, plan).value, fs, Some(Idle)))
  {
    hide ApplyEvidence;
    forall other | PcTidy(db.plan, fs, other) ensures PcTidy(None, fs, other) {
    }
  }

  lemma PersistTidy(db: Db, fs: Files, p: Process, plan: Plan)
    requires PlanAction(db, p, plan).Some? && FilesTidy(db.plan, fs) && PcTidy(db.plan, fs, Planning(plan))
    ensures MoveTidy(db, fs, Move(PlanAction(db, p, plan).value, fs, Some(Holding(plan))))
  {
  }

  /** What the scans plan is what they have just hashed. */
  lemma InspectTidy(db: Db, fs: Files, act: RecoveryAct)
    requires RowsAndFiles(db, fs)
    ensures InspectMove(db, fs, act).Some? ==>
              var m := InspectMove(db, fs, act).value;
              m.db == db && m.fs == fs && m.pc.Some? && PcTidy(db.plan, fs, m.pc.value)
  {
    if act.InspectContent? && act.digest in fs.content {
      assert Linked(fs, fs.content[act.digest]);
      assert fs.content[act.digest] in fs.data;
    }
    hide RowsAndFiles, StagingKnown;
  }

  lemma RestTidy(db: Db, fs: Files, p: Process, pc: RecoveryPc, act: RecoveryAct)
    requires RowsAndFiles(db, fs) && RecoveryAgrees(db, fs, pc)
    requires RecoveryMove(db, fs, p, pc, act).Some? && FilesTidy(db.plan, fs) && PcTidy(db.plan, fs, pc)
    requires pc.Idle? && (act.NextPhase? || act.Resume? || act.InspectStage? || act.InspectAttempt? || act.InspectContent?)
    ensures MoveTidy(db, fs, RecoveryMove(db, fs, p, pc, act).value)
  {
    InspectTidy(db, fs, act);
    hide HashFile, RowsAndFiles, StagingKnown, PassDone, InspectMove, PlanKnown;
  }

  lemma RecoveryTidy(db: Db, fs: Files, p: Process, pc: RecoveryPc, act: RecoveryAct)
    requires RowsAndFiles(db, fs) && RecoveryAgrees(db, fs, pc)
    requires RecoveryMove(db, fs, p, pc, act).Some? && FilesTidy(db.plan, fs) && PcTidy(db.plan, fs, pc) && !act.HashAgain?
    ensures MoveTidy(db, fs, RecoveryMove(db, fs, p, pc, act).value)
  {
    hide MoveTidy, RowsAndFiles, FilesTidy, PcTidy, PlanAction, ApplyPlan, IntentMove, InspectMove, NextPhaseDb, HashFile, LinkCount;
    if pc.Holding? || pc.QuarantineLinked? || pc.SourceGone? || pc.Ready? {
      if act.Apply? { ApplyTidy(db, fs, p, pc.plan); } else { PlanTidy(db, fs, p, pc.plan, act, pc); }
    } else if pc.Planning? && act.Persist? {
      PersistTidy(db, fs, p, pc.plan);
    } else if pc.ContentRefused? {
      assert false;
    } else if pc.Idle? && (act.NextPhase? || act.Resume? || act.InspectStage? || act.InspectAttempt? || act.InspectContent?) {
      RestTidy(db, fs, p, pc, act);
    } else {
      IntentTidy(db, fs, p, pc, act);
    }
  }

  // ----- Outcomes: which of them can meet a pending intent -----

  predicate StageOutcome(o: Outcome) {
    o == STAGE_EXPIRED || o == STAGE_MISSING
  }

  predicate StoreOutcome(o: Outcome) {
    o.kind.Failed? || o.kind.Abandoned?
  }

  predicate BeforeIntent(pc: StorePc) {
    pc.Recorded? || pc.Writing? || pc.Closed? || pc.Checked?
  }

  /** A store reports failure only; one that has no intent yet can only have been expired. */
  predicate ThreadTidy(e: Evidence, a: AttemptId, pc: StorePc) {
    && (pc.Failing? || pc.Aborting? ==> StoreOutcome(pc.outcome))
    && (BeforeIntent(pc) && a in e.outcomes ==> StageOutcome(e.outcomes[a]))
  }

  ghost predicate ThreadsTidy(e: Evidence, stores: map<AttemptId, StoreThread>) {
    forall a :: a in stores ==> ThreadTidy(e, a, stores[a].pc)
  }

  ghost predicate ConflictsExpired(db: Db) {
    forall i :: Conflicted(db, i) ==> StageOutcome(db.evidence.outcomes[db.installs.intents[i].attempt])
  }

  ghost predicate OutcomesTidy(db: Db) {
    MissingMeansAborted(db) && ConflictsExpired(db)
  }

  /** The transaction puts intent `i` in conflict. */
  predicate ExpiryHits(db: Db, plan: Plan, i: IntentId) {
    && Pending(db.installs, i) && !Marked(db.installs, i, EvidenceCommitted)
    && db.installs.intents[i].attempt !in db.evidence.outcomes
    && Expires(plan) == Some(db.installs.intents[i].attempt)
  }

  ghost predicate SameConflicts(db: Db, next: Db) {
    forall i :: Conflicted(next, i) <==> Conflicted(db, i)
  }

  /** An attempt without an intent gains an outcome only from its own store, or by being expired. */
  ghost predicate FreshExpired(db: Db, next: Db, except: set<AttemptId>, expired: Option<AttemptId>) {
    forall b :: b !in except && NoIntent(db, b) && b !in db.evidence.outcomes && b in next.evidence.outcomes
      ==> expired == Some(b) && StageOutcome(next.evidence.outcomes[b])
  }

  lemma QuietTx(db: Db, next: Db)
    requires OutcomesTidy(db)
    requires next.evidence.outcomes == db.evidence.outcomes && next.installs == db.installs
    ensures OutcomesTidy(next) && SameConflicts(db, next) && FreshExpired(db, next, {}, None)
  {
    forall a | a in next.evidence.outcomes && next.evidence.outcomes[a] == CONTENT_MISSING ensures AbortedAttempt(next.installs, a) {
      assert AbortedAttempt(db.installs, a);
    }
    forall i ensures Conflicted(next, i) <==> Conflicted(db, i) {
    }
  }

  lemma MarkTx(db: Db, p: Process, i: IntentId, m: Mark)
    requires OutcomesTidy(db) && MarkIntent(db, p, i, m).Some?
    requires m.ContentInstalled? || (m.StageCleaned? && Marked(db.installs, i, EvidenceCommitted))
    ensures var next := MarkIntent(db, p, i, m).value;
            OutcomesTidy(next) && SameConflicts(db, next) && FreshExpired(db, next, {}, None)
  {
    var next := MarkIntent(db, p, i, m).value;
    forall a | a in next.evidence.outcomes && next.evidence.outcomes[a] == CONTENT_MISSING ensures AbortedAttempt(next.installs, a) {
      MissingWitness(db, next, a);
    }
    forall j ensures Conflicted(next, j) <==> Conflicted(db, j) {
      assert Marked(next.installs, j, Aborted) == Marked(db.installs, j, Aborted);
      assert Marked(next.installs, j, EvidenceCommitted) == Marked(db.installs, j, EvidenceCommitted);
      assert j != i ==> Marked(next.installs, j, StageCleaned) == Marked(db.installs, j, StageCleaned);
      assert m.ContentInstalled? ==> Marked(next.installs, j, StageCleaned) == Marked(db.installs, j, StageCleaned);
    }
  }

  lemma MissingWitness(db: Db, next: Db, a: AttemptId)
    requires MissingMeansAborted(db) && a in db.evidence.outcomes && db.evidence.outcomes[a] == CONTENT_MISSING
    requires InstallsGrow(db.installs, next.installs)
    ensures AbortedAttempt(next.installs, a)
  {
    assert AbortedAttempt(db.installs, a);
    var j :| j in db.installs.intents && db.installs.intents[j].attempt == a && Marked(db.installs, j, Aborted);
    assert Marked(next.installs, j, Aborted);
  }

  lemma OtherIntents(db: Db, i: IntentId)
    requires DbAgrees(db) && i in db.installs.intents
    ensures forall j :: j in db.installs.intents && j != i ==> db.installs.intents[j].attempt != db.installs.intents[i].attempt
  {
    DistinctStagings(db);
    var n := db.installs;
    forall j | j in n.intents && j != i ensures n.intents[j].attempt != n.intents[i].attempt {
    }
  }

  lemma CommitTx(db: Db, p: Process, i: IntentId)
    requires DbAgrees(db) && OutcomesTidy(db) && CommitIntent(db, p, i).Some?
    ensures var next := CommitIntent(db, p, i).value;
            OutcomesTidy(next) && SameConflicts(db, next) && FreshExpired(db, next, {}, None)
  {
    var next := CommitIntent(db, p, i).value;
    CommitIntentKept(db, p, i);
    OtherIntents(db, i);
    if Pending(db.installs, i) { CommitExact(db, p, i); }
    CommitOutcome(db, p, i);
    hide DbAgrees, CommitIntent, EvidenceGrows;
    forall a | a in next.evidence.outcomes && next.evidence.outcomes[a] == CONTENT_MISSING ensures AbortedAttempt(next.installs, a) {
      MissingWitness(db, next, a);
    }
    forall j ensures Conflicted(next, j) <==> Conflicted(db, j) {
      assert j != i ==> forall k :: Marked(next.installs, j, k) == Marked(db.installs, j, k);
    }
  }

  lemma CommitOutcome(db: Db, p: Process, i: IntentId)
    requires CommitIntent(db, p, i).Some?
    ensures var next := CommitIntent(db, p, i).value;
            && i in db.installs.intents && !Marked(db.installs, i, Aborted)
            && next.installs == Installs(db.installs.intents, db.installs.marks + {(i, EvidenceCommitted)})
            && (next.evidence.outcomes == db.evidence.outcomes
                || next.evidence.outcomes == db.evidence.outcomes[db.installs.intents[i].attempt := SUCCESS])
  {
  }

  lemma AbortTx(db: Db, p: Process, i: IntentId, o: Outcome)
    requires DbAgrees(db) && OutcomesTidy(db) && AbortIntent(db, p, i, o).Some?
    requires StoreOutcome(o) || o == CONTENT_MISSING
    ensures var next := AbortIntent(db, p, i, o).value;
            OutcomesTidy(next) && SameConflicts(db, next) && FreshExpired(db, next, {}, None)
  {
    var next := AbortIntent(db, p, i, o).value;
    OtherIntents(db, i);
    hide DbAgrees;
    assert Marked(next.installs, i, Aborted);
    forall a | a in next.evidence.outcomes && next.evidence.outcomes[a] == CONTENT_MISSING ensures AbortedAttempt(next.installs, a) {
      if a == db.installs.intents[i].attempt {
        assert next.installs.intents[i].attempt == a;
      } else {
        MissingWitness(db, next, a);
      }
    }
    forall j ensures Conflicted(next, j) <==> Conflicted(db, j) {
      assert j != i ==> forall k :: Marked(next.installs, j, k) == Marked(db.installs, j, k);
    }
  }

  lemma FinishTx(db: Db, p: Process, a: AttemptId, o: Outcome)
    requires OutcomesTidy(db) && NoIntent(db, a) && FinishAttempt(db, p, a, o).Some? && StoreOutcome(o)
    ensures var next := FinishAttempt(db, p, a, o).value;
            OutcomesTidy(next) && SameConflicts(db, next) && FreshExpired(db, next, {a}, None)
  {
    var next := FinishAttempt(db, p, a, o).value;
    forall b | b in next.evidence.outcomes && next.evidence.outcomes[b] == CONTENT_MISSING ensures AbortedAttempt(next.installs, b) {
      MissingWitness(db, next, b);
    }
    forall j ensures Conflicted(next, j) <==> Conflicted(db, j) {
    }
  }

  lemma ApplyTx(db: Db, p: Process, plan: Plan)
    requires OutcomesTidy(db) && ApplyPlan(db, p, plan).Some?
    ensures var next := ApplyPlan(db, p, plan).value;
            && OutcomesTidy(next) && FreshExpired(db, next, {}, Expires(plan))
            && forall i :: Conflicted(next, i) <==> Conflicted(db, i) || ExpiryHits(db, plan, i)
  {
    var next := ApplyPlan(db, p, plan).value;
    forall b | b in next.evidence.outcomes && next.evidence.outcomes[b] == CONTENT_MISSING ensures AbortedAttempt(next.installs, b) {
      MissingWitness(db, next, b);
    }
    forall i ensures Conflicted(next, i) <==> Conflicted(db, i) || ExpiryHits(db, plan, i) {
    }
  }

  lemma PrepareTx(db: Db, p: Process, i: IntentId, intent: Intent)
    requires DbAgrees(db) && OutcomesTidy(db) && NoIntent(db, intent.attempt) && PrepareIntent(db, p, i, intent).Some?
    requires intent.attempt in db.evidence.outcomes ==> StageOutcome(db.evidence.outcomes[intent.attempt])
    ensures var next := PrepareIntent(db, p, i, intent).value;
            && OutcomesTidy(next) && FreshExpired(db, next, {}, None)
            && forall j :: Conflicted(next, j) <==> Conflicted(db, j) || (j == i && intent.attempt in db.evidence.outcomes)
  {
    var next := PrepareIntent(db, p, i, intent).value;
    assert !Marked(db.installs, i, EvidenceCommitted) && !Marked(db.installs, i, Aborted) && !Marked(db.installs, i, StageCleaned);
    hide DbAgrees, IntentClash;
    forall b | b in next.evidence.outcomes && next.evidence.outcomes[b] == CONTENT_MISSING ensures AbortedAttempt(next.installs, b) {
      MissingWitness(db, next, b);
    }
    forall j ensures Conflicted(next, j) <==> Conflicted(db, j) || (j == i && intent.attempt in db.evidence.outcomes) {
      assert forall k :: Marked(next.installs, j, k) == Marked(db.installs, j, k);
    }
  }

  // ----- Every step -----

  ghost predicate Tidy(w: World) {
    && FilesTidy(w.db.plan, w.fs)
    && PcsTidy(w.db.plan, w.fs, w.recoveries)
    && ThreadsTidy(w.db.evidence, w.stores)
    && OutcomesTidy(w.db)
  }

  /** The two steps that can put a pending intent in conflict. */
  predicate NewConflict(w: World, e: Event, i: IntentId) {
    match e
    case Store(a, act) => act == Prepare(i) && a in w.db.evidence.outcomes
    case Recover(p, act) => act.Apply? && Alive(w, p).Ready? && ExpiryHits(w.db, Alive(w, p).plan, i)
    case _ => false
  }

  /** The attempt an event expires. */
  function ExpiredBy(w: World, e: Event): Option<AttemptId> {
    if e.Recover? && e.recovery.Apply? && Alive(w, e.process).Ready? then Expires(Alive(w, e.process).plan) else None
  }

  ghost predicate ConflictsFrom(w: World, e: Event, next: Db) {
    forall i :: Conflicted(next, i) <==> Conflicted(w.db, i) || NewConflict(w, e, i)
  }

  predicate RowAct(act: StoreAct) {
    act.Prepare? || act.MarkInstalled? || act.Commit? || act.MarkCleaned? || act.Finish? || act.AbortInstall?
  }

  ghost predicate StoreTidy(w: World, a: AttemptId, act: StoreAct, m: Move<StorePc>) {
    && OutcomesTidy(m.db) && FreshExpired(w.db, m.db, {a}, None) && ConflictsFrom(w, Store(a, act), m.db)
    && (m.pc.Some? ==> ThreadTidy(m.db.evidence, a, m.pc.value))
  }

  lemma FileActTidy(w: World, a: AttemptId, th: StoreThread, act: StoreAct)
    requires OutcomesTidy(w.db) && ThreadTidy(w.db.evidence, a, th.pc) && !RowAct(act)
    requires StoreMove(w.db, w.fs, a, th, act).Some?
    ensures StoreTidy(w, a, act, StoreMove(w.db, w.fs, a, th, act).value)
  {
    hide OutcomesTidy, Conflicted, NoIntent, HashFile, RemoveStageFile, StageOutcome;
  }

  lemma RowActTidy(w: World, a: AttemptId, th: StoreThread, act: StoreAct)
    requires DbAgrees(w.db) && OutcomesTidy(w.db) && ThreadTidy(w.db.evidence, a, th.pc) && PcAgrees(w.db, w.fs, a, th)
    requires RowAct(act) && StoreMove(w.db, w.fs, a, th, act).Some?
    ensures StoreTidy(w, a, act, StoreMove(w.db, w.fs, a, th, act).value)
  {
    hide DbAgrees, OutcomesTidy, Conflicted, NoIntent, StageOutcome, StoreOutcome;
    hide PrepareIntent, MarkIntent, CommitIntent, AbortIntent, FinishAttempt;
    match act
    case Prepare(i) =>
      PrepareTx(w.db, th.process, i, ThreadIntent(w.fs, a, th, th.pc.disposition));
    case MarkInstalled =>
      MarkTx(w.db, th.process, th.pc.id, ContentInstalled);
    case Commit => CommitTx(w.db, th.process, th.pc.id);
    case MarkCleaned => MarkTx(w.db, th.process, th.pc.id, StageCleaned);
    case Finish => FinishTx(w.db, th.process, a, th.pc.outcome);
    case AbortInstall => AbortTx(w.db, th.process, th.pc.id, th.pc.outcome);
  }

  lemma StoreTx(w: World, a: AttemptId, act: StoreAct)
    requires Safe(w) && Tidy(w) && a in w.stores && StoreMove(w.db, w.fs, a, w.stores[a], act).Some?
    ensures StoreTidy(w, a, act, StoreMove(w.db, w.fs, a, w.stores[a], act).value)
  {
    var th := w.stores[a];
    assert ThreadAgrees(w.db, w.fs, a, th) && ThreadTidy(w.db.evidence, a, th.pc);
    SafeRows(w);
    TidyOutcomes(w);
    hide Safe, Tidy, StoreMove, StoreTidy, DbAgrees, OutcomesTidy, PcAgrees;
    if RowAct(act) { RowActTidy(w, a, th, act); } else { FileActTidy(w, a, th, act); }
  }

  lemma SafeRows(w: World)
    requires Safe(w)
    ensures DbAgrees(w.db)
  {
  }

  lemma TidyOutcomes(w: World)
    requires Tidy(w)
    ensures OutcomesTidy(w.db)
  {
  }

  lemma IntentTx(w: World, p: Process, pc: RecoveryPc, act: RecoveryAct)
    requires DbAgrees(w.db) && OutcomesTidy(w.db) && RecoveryAgrees(w.db, w.fs, pc)
    requires IntentMove(w.db, w.fs, p, pc, act).Some?
    ensures var m := IntentMove(w.db, w.fs, p, pc, act).value;
            OutcomesTidy(m.db) && FreshExpired(w.db, m.db, {}, None) && ConflictsFrom(w, Recover(p, act), m.db)
  {
    hide *;
    var next := IntentMove(w.db, w.fs, p, pc, act).value.db;
    IntentDb(w.db, w.fs, p, pc, act);
    if act.AbortMissing? {
      AbortTx(w.db, p, pc.id, CONTENT_MISSING);
    } else if act.RecoverInstalled? {
      MarkTx(w.db, p, pc.id, ContentInstalled);
    } else if act.RecoverCommit? {
      CommitTx(w.db, p, pc.id);
    } else if act.RecoverCleaned? {
      MarkTx(w.db, p, pc.id, StageCleaned);
    } else {
      QuietTx(w.db, next);
    }
    SameConflictsFrom(w, p, act, next);
  }

  /** The transaction, if any, behind a move of the pass over intents. */
  lemma IntentDb(db: Db, fs: Files, p: Process, pc: RecoveryPc, act: RecoveryAct)
    requires RecoveryAgrees(db, fs, pc) && IntentMove(db, fs, p, pc, act).Some?
    ensures !act.Apply?
    ensures var next := IntentMove(db, fs, p, pc, act).value.db;
            match act
            case AbortMissing => pc.BothSeen? && AbortIntent(db, p, pc.id, CONTENT_MISSING) == Some(next)
            case RecoverInstalled => pc.InPlace? && MarkIntent(db, p, pc.id, ContentInstalled) == Some(next)
            case RecoverCommit => pc.MarkedInstalled? && CommitIntent(db, p, pc.id) == Some(next)
            case RecoverCleaned =>
              pc.StageGone? && MarkIntent(db, p, pc.id, StageCleaned) == Some(next) && Marked(db.installs, pc.id, EvidenceCommitted)
            case _ => next.evidence == db.evidence && next.installs == db.installs
  {
    hide AbortIntent, MarkIntent, CommitIntent, HashFile, NextPending, RemoveStageFile, LinkContent;
  }

  lemma SameConflictsFrom(w: World, p: Process, act: RecoveryAct, next: Db)
    requires SameConflicts(w.db, next) && !act.Apply?
    ensures ConflictsFrom(w, Recover(p, act), next)
  {
    hide Conflicted;
  }

  lemma RecoverTx(w: World, p: Process, pc: RecoveryPc, act: RecoveryAct)
    requires DbAgrees(w.db) && OutcomesTidy(w.db) && RecoveryAgrees(w.db, w.fs, pc) && pc == Alive(w, p)
    requires RecoveryMove(w.db, w.fs, p, pc, act).Some?
    ensures var m := RecoveryMove(w.db, w.fs, p, pc, act).value;
            OutcomesTidy(m.db) && FreshExpired(w.db, m.db, {}, ExpiredBy(w, Recover(p, act))) && ConflictsFrom(w, Recover(p, act), m.db)
  {
    hide DbAgrees, OutcomesTidy, Conflicted, FreshExpired, ExpiryHits, IntentMove, HashFile, StagePlan, StagingKnown, PassDone, ApplyPlan, LinkCount, Alive;
    if act.Apply? && pc.Ready? {
      ApplyTx(w.db, p, pc.plan);
    } else {
      var m := RecoveryMove(w.db, w.fs, p, pc, act).value;
      if pc.Holding? || pc.QuarantineLinked? || pc.SourceGone? || pc.Ready? || (act.NextPhase? && pc.Idle?) || (act.Persist? && pc.Planning?)
         || pc.ContentRefused? || (pc.Idle? && (act.Resume? || act.InspectStage? || act.InspectAttempt? || act.InspectContent?)) {
        QuietTx(w.db, m.db);
      } else {
        IntentTx(w, p, pc, act);
      }
    }
  }

  lemma ThreadsStayTidy(w: World, next: Db, own: set<AttemptId>, expired: Option<AttemptId>)
    requires Safe(w) && ThreadsTidy(w.db.evidence, w.stores) && Grows(w.db, next)
    requires FreshExpired(w.db, next, own, expired)
    ensures forall a :: a in w.stores && a !in own ==> ThreadTidy(next.evidence, a, w.stores[a].pc)
    ensures forall a :: (a in w.stores && a !in own && BeforeIntent(w.stores[a].pc)
                         && a in next.evidence.outcomes && a !in w.db.evidence.outcomes) ==> expired == Some(a)
  {
    forall a | a in w.stores && a !in own
      ensures ThreadTidy(next.evidence, a, w.stores[a].pc)
      ensures BeforeIntent(w.stores[a].pc) && a in next.evidence.outcomes && a !in w.db.evidence.outcomes ==> expired == Some(a) {
      assert ThreadAgrees(w.db, w.fs, a, w.stores[a]);
      hide Safe, NoIntent, StageOutcome, InstallsGrow;
    }
  }

  lemma StoreStepFields(w: World, a: AttemptId, act: StoreAct)
    requires StoreStep(w, a, act).Some?
    ensures a in w.stores && StoreMove(w.db, w.fs, a, w.stores[a], act).Some?
    ensures var m := StoreMove(w.db, w.fs, a, w.stores[a], act).value;
            var next := StoreStep(w, a, act).value;
            && next.db == m.db && next.fs == m.fs && next.recoveries == w.recoveries
            && (forall b :: b in next.stores ==> b in w.stores && (b != a ==> next.stores[b] == w.stores[b]))
            && (a in next.stores ==> m.pc == Some(next.stores[a].pc))
  {
    hide StoreMove;
  }

  lemma PcsStayTidy(plan: Option<Plan>, fs: Files, files: Files, recoveries: map<Process, RecoveryPc>)
    requires PcsTidy(plan, fs, recoveries) && StageShrinks(fs, files)
    ensures PcsTidy(plan, files, recoveries)
  {
    hide PcTidy, StageShrinks;
    forall p | p in recoveries ensures PcTidy(plan, files, recoveries[p]) {
      PcTidyKept(plan, fs, files, recoveries[p]);
    }
  }

  lemma TidyParts(w: World)
    requires Tidy(w)
    ensures FilesTidy(w.db.plan, w.fs) && PcsTidy(w.db.plan, w.fs, w.recoveries)
    ensures ThreadsTidy(w.db.evidence, w.stores) && OutcomesTidy(w.db)
  {
  }

  lemma StoreTidyParts(w: World, a: AttemptId, act: StoreAct, m: Move<StorePc>)
    requires StoreTidy(w, a, act, m)
    ensures OutcomesTidy(m.db) && FreshExpired(w.db, m.db, {a}, None) && ConflictsFrom(w, Store(a, act), m.db)
    ensures m.pc.Some? ==> ThreadTidy(m.db.evidence, a, m.pc.value)
  {
  }

  lemma StoreStepTidy(w: World, a: AttemptId, act: StoreAct)
    requires Safe(w) && Tidy(w) && StoreStep(w, a, act).Some?
    ensures Tidy(StoreStep(w, a, act).value) && ConflictsFrom(w, Store(a, act), StoreStep(w, a, act).value.db)
  {
    hide *;
    StoreStepFields(w, a, act);
    var m := StoreMove(w.db, w.fs, a, w.stores[a], act).value;
    StoreStepSafe(w, a, act);
    TidyParts(w);
    StoreTx(w, a, act);
    StoreTidyParts(w, a, act, m);
    StoreFilesTidy(w.db, w.fs, a, w.stores[a], act);
    ThreadsStayTidy(w, m.db, {a}, None);
    PcsStayTidy(w.db.plan, w.fs, m.fs, w.recoveries);
    TidyAssembled(w, StoreStep(w, a, act).value, a);
  }

  lemma TidyAssembled(w: World, next: World, a: AttemptId)
    requires FilesTidy(next.db.plan, next.fs) && PcsTidy(next.db.plan, next.fs, next.recoveries) && OutcomesTidy(next.db)
    requires forall b :: b in w.stores && b !in {a} ==> ThreadTidy(next.db.evidence, b, w.stores[b].pc)
    requires forall b :: b in next.stores ==> b in w.stores && (b != a ==> next.stores[b] == w.stores[b])
    requires a in next.stores ==> ThreadTidy(next.db.evidence, a, next.stores[a].pc)
    ensures Tidy(next)
  {
    hide FilesTidy, PcsTidy, OutcomesTidy, ThreadTidy;
  }

  lemma RecoverStepFields(w: World, p: Process, act: RecoveryAct)
    requires RecoverStep(w, p, act).Some?
    ensures RecoveryMove(w.db, w.fs, p, Alive(w, p), act).Some?
    ensures var m := RecoveryMove(w.db, w.fs, p, Alive(w, p), act).value;
            var next := RecoverStep(w, p, act).value;
            && next.db == m.db && next.fs == m.fs && next.stores == w.stores
            && (forall q :: q in next.recoveries && q != p ==> q in w.recoveries && next.recoveries[q] == w.recoveries[q])
            && (p in next.recoveries ==> m.pc == Some(next.recoveries[p]))
  {
    hide RecoveryMove;
  }

  lemma AliveAgrees(w: World, p: Process)
    requires Safe(w) && Tidy(w)
    ensures RowsAndFiles(w.db, w.fs) && RecoveryAgrees(w.db, w.fs, Alive(w, p)) && PcTidy(w.db.plan, w.fs, Alive(w, p))
  {
    hide RowsAndFiles, FilesTidy, OutcomesTidy, StoresAgree, ThreadsTidy;
  }

  lemma RecoverAssembled(w: World, next: World, p: Process, m: Move<RecoveryPc>)
    requires PcsTidy(w.db.plan, w.fs, w.recoveries) && MoveTidy(w.db, w.fs, m) && OutcomesTidy(m.db)
    requires next.db == m.db && next.fs == m.fs && next.stores == w.stores
    requires forall q :: q in next.recoveries && q != p ==> q in w.recoveries && next.recoveries[q] == w.recoveries[q]
    requires p in next.recoveries ==> m.pc == Some(next.recoveries[p])
    requires forall a :: a in w.stores && a !in {} ==> ThreadTidy(next.db.evidence, a, w.stores[a].pc)
    ensures Tidy(next)
  {
    hide FilesTidy, PcTidy, OutcomesTidy, ThreadTidy, StageShrinks;
  }

  lemma NotAgain(p: Process, act: RecoveryAct)
    ensures Calm(Recover(p, act)) == !act.HashAgain?
  {
  }

  lemma RecoverStepTidy(w: World, p: Process, act: RecoveryAct)
    requires Safe(w) && Tidy(w) && RecoverStep(w, p, act).Some? && !act.HashAgain?
    ensures Tidy(RecoverStep(w, p, act).value) && ConflictsFrom(w, Recover(p, act), RecoverStep(w, p, act).value.db)
  {
    hide *;
    RecoverStepFields(w, p, act);
    var pc := Alive(w, p);
    var m := RecoveryMove(w.db, w.fs, p, pc, act).value;
    NotAgain(p, act);
    RecoverStepSafe(w, p, act);
    AliveAgrees(w, p);
    TidyParts(w);
    RecoveryTidy(w.db, w.fs, p, pc, act);
    SafeRows(w);
    RecoverTx(w, p, pc, act);
    ThreadsStayTidy(w, m.db, {}, ExpiredBy(w, Recover(p, act)));
    RecoverAssembled(w, RecoverStep(w, p, act).value, p, m);
  }

  /** A calm step keeps the order recovery needs, and conflicts arise from the two steps named and no other. */
  lemma StepTidy(w: World, e: Event)
    requires Safe(w) && Tidy(w) && Step(w, e).Some? && Calm(e)
    ensures Tidy(Step(w, e).value)
    ensures forall i :: Conflicted(Step(w, e).value.db, i) <==> Conflicted(w.db, i) || NewConflict(w, e, i)
  {
    hide Safe, OutcomesTidy, FilesTidy, ThreadTidy, PcTidy, Conflicted, BeginStep, StoreStep, RecoverStep, NewConflict;
    match e
    case Claim(p) => HeadTidy(w, w.db.(fence := Some(p)));
    case Release(_) => HeadTidy(w, w.db.(fence := None));
    case Begin(p, a, row, response) => BeginTidy(w, p, a, row, response);
    case Store(a, act) => StoreStepTidy(w, a, act);
    case Recover(p, act) => RecoverStepTidy(w, p, act);
    case _ => NoNewConflict(w, e);
  }

  lemma NoNewConflict(w: World, e: Event)
    requires !e.Store? && !e.Recover?
    ensures forall i :: !NewConflict(w, e, i)
  {
  }

  lemma HeadTidy(w: World, next: Db)
    requires Tidy(w) && next == w.db.(fence := next.fence)
    ensures Tidy(w.(db := next)) && SameConflicts(w.db, next)
    ensures forall e: Event, i {:trigger NewConflict(w, e, i)} :: !e.Store? && !e.Recover? ==> !NewConflict(w, e, i)
  {
    QuietTx(w.db, next);
    hide FilesTidy, PcTidy, ThreadTidy, OutcomesTidy, Conflicted;
  }

  lemma BeginTidy(w: World, p: Process, a: AttemptId, row: Attempt, response: string)
    requires Safe(w) && Tidy(w) && BeginStep(w, p, a, row, response).Some?
    ensures Tidy(BeginStep(w, p, a, row, response).value)
    ensures ConflictsFrom(w, Begin(p, a, row, response), BeginStep(w, p, a, row, response).value.db)
  {
    var db := RecordAttempt(w.db, p, a, row).value;
    QuietTx(w.db, db);
    assert a !in w.db.evidence.outcomes;
    hide Safe, FilesTidy, PcTidy, OutcomesTidy, Conflicted;
    assert forall b :: b in w.stores ==> ThreadTidy(w.db.evidence, b, w.stores[b].pc);
  }

  // ----- Every run -----

  lemma EmptyTidy()
    ensures Tidy(EMPTY_WORLD)
  {
  }

  lemma {:induction false} RunTidy(w: World, es: seq<Event>)
    requires Safe(w) && Tidy(w) && Run(w, es).Some? && CalmRun(es)
    ensures Safe(Run(w, es).value) && Tidy(Run(w, es).value)
    decreases |es|
  {
    hide Safe, Tidy, Step, Calm, Conflicted, NewConflict;
    if es == [] {
    } else {
      StepSafe(w, es[0]);
      StepTidy(w, es[0]);
      RunTidy(Step(w, es[0]).value, es[1..]);
    }
  }

  /** What a run leaves to the process that then holds the lease, wherever it was interrupted. */
  ghost predicate Interrupted(db: Db, fs: Files, p: Process) {
    RowsAndFiles(db, fs) && FilesTidy(db.plan, fs) && OutcomesTidy(db) && db.fence == Some(p)
  }

  lemma SettledLinks(db: Db, fs: Files)
    requires FilesTidy(db.plan, fs) && db.plan.None?
    ensures TwoLinks(fs)
  {
    forall s ensures LinkCount(fs, s) <= 2 {
      assert s in fs.stage && s in fs.quarantine ==> Moving(db.plan, s);
    }
  }

  /** Wherever the vault was interrupted, recovery finds what it relies on, whether or not an action is pending. */
  lemma CrashThenRecover(es: seq<Event>, p: Process)
    requires Run(EMPTY_WORLD, es).Some? && CalmRun(es) && Run(EMPTY_WORLD, es).value.db.fence == Some(p)
    ensures var w := Run(EMPTY_WORLD, es).value;
            Interrupted(w.db, w.fs, p) && (w.db.plan.None? ==> Recovering(w.db, w.fs, p))
  {
    EmptySafe();
    EmptyTidy();
    RunTidy(EMPTY_WORLD, es);
    var w := Run(EMPTY_WORLD, es).value;
    hide Run, CalmRun, RowsAndFiles, FilesTidy, OutcomesTidy, Recovering;
    if w.db.plan.None? { NothingPlanned(w.db, w.fs, p); }
  }

  lemma NothingPlanned(db: Db, fs: Files, p: Process)
    requires Interrupted(db, fs, p) && db.plan.None?
    ensures Recovering(db, fs, p)
  {
    SettledLinks(db, fs);
    hide RowsAndFiles, TwoLinks, MissingMeansAborted, FilesTidy, ConflictsExpired;
  }

  /** A conflict is never resolved, so no later pass completes either. */
  lemma {:induction false} ConflictForever(w: World, es: seq<Event>, i: IntentId)
    requires Safe(w) && Tidy(w) && Run(w, es).Some? && CalmRun(es) && Conflicted(w.db, i)
    ensures Conflicted(Run(w, es).value.db, i)
    decreases |es|
  {
    hide Safe, Tidy, Step, Calm, Conflicted, NewConflict;
    if es == [] {
    } else {
      StepSafe(w, es[0]);
      StepTidy(w, es[0]);
      ConflictForever(Step(w, es[0]).value, es[1..], i);
    }
  }

  /** The guard: an attempt is expired only when it has no store under way and no intent pending. */
  predicate Patient(w: World, e: Event) {
    ExpiredBy(w, e).Some? ==>
      && ExpiredBy(w, e).value !in w.stores
      && forall i :: i in w.db.installs.intents && w.db.installs.intents[i].attempt == ExpiredBy(w, e).value
                     ==> !Pending(w.db.installs, i)
  }

  predicate PatientRun(w: World, es: seq<Event>)
    decreases |es|
  {
    es == [] || (Patient(w, es[0]) && (Step(w, es[0]).Some? ==> PatientRun(Step(w, es[0]).value, es[1..])))
  }

  ghost predicate Unexpired(e: Evidence, stores: map<AttemptId, StoreThread>) {
    forall a :: a in stores && BeforeIntent(stores[a].pc) ==> a !in e.outcomes
  }

  lemma PatientConflict(w: World, e: Event, i: IntentId)
    requires Unexpired(w.db.evidence, w.stores) && Patient(w, e) && Step(w, e).Some?
    ensures !NewConflict(w, e, i)
  {
    match e
    case Recover(p, act) => { hide RecoveryMove, NextPending; }
    case Store(a, act) => {}
    case _ => {}
  }

  lemma OwnUnexpired(db: Db, fs: Files, a: AttemptId, th: StoreThread, act: StoreAct)
    requires StoreMove(db, fs, a, th, act).Some? && (BeforeIntent(th.pc) ==> a !in db.evidence.outcomes)
    ensures var m := StoreMove(db, fs, a, th, act).value;
            m.pc.Some? && BeforeIntent(m.pc.value) ==> a !in m.db.evidence.outcomes
  {
    hide HashFile, PrepareIntent, MarkIntent, CommitIntent, AbortIntent, FinishAttempt;
  }

  lemma StepUnexpired(w: World, e: Event)
    requires Safe(w) && Tidy(w) && Unexpired(w.db.evidence, w.stores)
    requires Step(w, e).Some? && Calm(e) && Patient(w, e)
    ensures Unexpired(Step(w, e).value.db.evidence, Step(w, e).value.stores)
  {
    hide Safe, Tidy, StoreMove, RecoveryMove, Calm, FreshExpired, ThreadTidy, BeforeIntent, Expires, Pending, ThreadsTidy;
    match e
    case Begin(p, a, row, response) => FreshAttempt(w, a);
    case Store(a, act) =>
      StoreStepSafe(w, a, act);
      TidyParts(w);
      StoreTx(w, a, act);
      StoreTidyParts(w, a, act, StoreMove(w.db, w.fs, a, w.stores[a], act).value);
      ThreadsStayTidy(w, Step(w, e).value.db, {a}, None);
      OwnUnexpired(w.db, w.fs, a, w.stores[a], act);
    case Recover(p, act) =>
      RecoverStepSafe(w, p, act);
      TidyParts(w);
      RecoverFresh(w, p, act);
      ThreadsStayTidy(w, Step(w, e).value.db, {}, ExpiredBy(w, e));
    case _ => {}
  }

  lemma FreshAttempt(w: World, a: AttemptId)
    requires Safe(w) && a !in w.db.evidence.attempts
    ensures a !in w.db.evidence.outcomes
  {
  }

  lemma RecoverFresh(w: World, p: Process, act: RecoveryAct)
    requires Safe(w) && Tidy(w) && RecoverStep(w, p, act).Some?
    ensures FreshExpired(w.db, RecoverStep(w, p, act).value.db, {}, ExpiredBy(w, Recover(p, act)))
  {
    SafeRows(w);
    TidyOutcomes(w);
    assert RecoveryAgrees(w.db, w.fs, Alive(w, p));
    hide Safe, Tidy, RecoveryMove, FreshExpired, OutcomesTidy, DbAgrees, RecoveryAgrees;
    RecoverTx(w, p, Alive(w, p), act);
  }

  lemma {:induction false} PatientRunUnconflicted(w: World, es: seq<Event>)
    requires Safe(w) && Tidy(w) && Unexpired(w.db.evidence, w.stores) && forall i :: !Conflicted(w.db, i)
    requires Run(w, es).Some? && CalmRun(es) && PatientRun(w, es)
    ensures forall i :: !Conflicted(Run(w, es).value.db, i)
    decreases |es|
  {
    hide Safe, Tidy, Step, Calm, Conflicted, NewConflict, Patient, Unexpired;
    if es == [] {
    } else {
      StepSafe(w, es[0]);
      StepTidy(w, es[0]);
      StepUnexpired(w, es[0]);
      forall i ensures !NewConflict(w, es[0], i) {
        PatientConflict(w, es[0], i);
      }
      PatientRunUnconflicted(Step(w, es[0]).value, es[1..]);
    }
  }

  /** After a patient run no intent is in conflict, so with no action pending the pass completes. */
  lemma PatientRunRecovers(es: seq<Event>, p: Process)
    requires Run(EMPTY_WORLD, es).Some? && CalmRun(es) && PatientRun(EMPTY_WORLD, es)
    requires Run(EMPTY_WORLD, es).value.db.fence == Some(p)
    ensures var w := Run(EMPTY_WORLD, es).value;
            && Interrupted(w.db, w.fs, p) && (forall i :: !Conflicted(w.db, i))
            && (w.db.plan.None? ==> Recovering(w.db, w.fs, p))
  {
    EmptySafe();
    EmptyTidy();
    CrashThenRecover(es, p);
    hide Run, CalmRun, PatientRun, Recovering, Interrupted;
    PatientRunUnconflicted(EMPTY_WORLD, es);
  }

  // ----- The pass written as a loop is what the machine does when nothing else moves -----

  function At(w: World, p: Process, db: Db, fs: Files, pc: RecoveryPc): World {
    World(db, fs, w.stores, w.recoveries[p := pc])
  }

  lemma MoveAt(w: World, p: Process, db: Db, fs: Files, pc: RecoveryPc, act: RecoveryAct, next: Db, files: Files, pd: RecoveryPc)
    requires RecoveryMove(db, fs, p, pc, act) == Some(Move(next, files, Some(pd)))
    ensures Step(At(w, p, db, fs, pc), Recover(p, act)) == Some(At(w, p, next, files, pd))
  {
    hide RecoveryMove;
    assert w.recoveries[p := pc][p := pd] == w.recoveries[p := pd];
  }

  /** The steps by which recovery settles one intent. */
  function Script(p: Process, i: IntentId, present: bool): seq<Event> {
    [Recover(p, Load(i)), Recover(p, HashContent), Recover(p, HashStage)]
    + (if present then
         [Recover(p, LinkStage), Recover(p, RecoverInstalled), Recover(p, RecoverCommit), Recover(p, RecoverRemove),
          Recover(p, RecoverCleaned)]
       else [Recover(p, AbortMissing)])
    + [Recover(p, NextIntent)]
  }

  lemma LookMoves(db: Db, fs: Files, p: Process, i: IntentId)
    requires Recovering(db, fs, p) && db.phase.Intents? && NextPending(db.installs, db.phase.after, i)
    ensures var intent := db.installs.intents[i];
            var content, stage := intent.digest in fs.content, intent.staging in fs.stage;
            && RecoveryMove(db, fs, p, Idle, Load(i)) == Some(Move(db, fs, Some(Loaded(i))))
            && RecoveryMove(db, fs, p, Loaded(i), HashContent) == Some(Move(db, fs, Some(ContentSeen(i, content))))
            && RecoveryMove(db, fs, p, ContentSeen(i, content), HashStage) == Some(Move(db, fs, Some(BothSeen(i, content, stage))))
  {
    HashesTell(db, fs, i);
    hide RowsAndFiles, TwoLinks, MissingMeansAborted, HashFile;
  }

  lemma AbsentMoves(db: Db, fs: Files, p: Process, i: IntentId)
    requires i in db.installs.intents && AbortIntent(db, p, i, CONTENT_MISSING).Some? && db.fence == Some(p)
    ensures var next := AbortIntent(db, p, i, CONTENT_MISSING).value;
            && RecoveryMove(db, fs, p, BothSeen(i, false, false), AbortMissing) == Some(Move(next, fs, Some(Settled(i))))
            && RecoveryMove(next, fs, p, Settled(i), NextIntent) == Some(Move(next.(phase := Intents(i)), fs, Some(Idle)))
  {
    hide SettleOutcome;
  }

  lemma PlaceMoves(db: Db, fs: Files, p: Process, i: IntentId, content: bool, stage: bool)
    requires i in db.installs.intents && MarkIntent(db, p, i, ContentInstalled).Some? && (content || stage)
    requires var intent := db.installs.intents[i];
             content == (intent.digest in fs.content) && stage == (intent.staging in fs.stage)
    ensures var intent := db.installs.intents[i];
            var linked := if content then fs else LinkContent(fs, intent.staging, intent.digest);
            var installed := MarkIntent(db, p, i, ContentInstalled).value;
            && RecoveryMove(db, fs, p, BothSeen(i, content, stage), LinkStage) == Some(Move(db, linked, Some(InPlace(i))))
            && RecoveryMove(db, linked, p, InPlace(i), RecoverInstalled) == Some(Move(installed, linked, Some(MarkedInstalled(i))))
  {
    hide MarkIntent;
  }

  lemma CleanMoves(db: Db, fs: Files, p: Process, i: IntentId)
    requires i in db.installs.intents && CommitIntent(db, p, i).Some?
    requires MarkIntent(CommitIntent(db, p, i).value, p, i, StageCleaned).Some?
    ensures var committed := CommitIntent(db, p, i).value;
            var files := RemoveStageFile(fs, db.installs.intents[i].staging);
            var next := MarkIntent(committed, p, i, StageCleaned).value;
            && RecoveryMove(db, fs, p, MarkedInstalled(i), RecoverCommit) == Some(Move(committed, fs, Some(EvidenceIn(i))))
            && RecoveryMove(committed, fs, p, EvidenceIn(i), RecoverRemove) == Some(Move(committed, files, Some(StageGone(i))))
            && RecoveryMove(committed, files, p, StageGone(i), RecoverCleaned) == Some(Move(next, files, Some(Settled(i))))
            && RecoveryMove(next, files, p, Settled(i), NextIntent) == Some(Move(next.(phase := Intents(i)), files, Some(Idle)))
  {
    CommitOutcome(db, p, i);
    hide CommitIntent, RemoveStageFile;
  }

  lemma PresentMoves(db: Db, fs: Files, p: Process, i: IntentId, content: bool, stage: bool)
    requires i in db.installs.intents && Install(db, p, i).Some? && db.fence == Some(p) && (content || stage)
    requires var intent := db.installs.intents[i];
             content == (intent.digest in fs.content) && stage == (intent.staging in fs.stage)
    ensures var intent := db.installs.intents[i];
            var linked := if content then fs else LinkContent(fs, intent.staging, intent.digest);
            var installed := MarkIntent(db, p, i, ContentInstalled).value;
            var committed := CommitIntent(installed, p, i).value;
            var files := RemoveStageFile(linked, intent.staging);
            var next := Install(db, p, i).value;
            && RecoveryMove(db, fs, p, BothSeen(i, content, stage), LinkStage) == Some(Move(db, linked, Some(InPlace(i))))
            && RecoveryMove(db, linked, p, InPlace(i), RecoverInstalled) == Some(Move(installed, linked, Some(MarkedInstalled(i))))
            && RecoveryMove(installed, linked, p, MarkedInstalled(i), RecoverCommit) == Some(Move(committed, linked, Some(EvidenceIn(i))))
            && RecoveryMove(committed, linked, p, EvidenceIn(i), RecoverRemove) == Some(Move(committed, files, Some(StageGone(i))))
            && RecoveryMove(committed, files, p, StageGone(i), RecoverCleaned) == Some(Move(next, files, Some(Settled(i))))
            && RecoveryMove(next, files, p, Settled(i), NextIntent) == Some(Move(next.(phase := Intents(i)), files, Some(Idle)))
  {
    var linked := if content then fs else LinkContent(fs, db.installs.intents[i].staging, db.installs.intents[i].digest);
    var installed := MarkIntent(db, p, i, ContentInstalled).value;
    assert installed.installs.intents == db.installs.intents;
    hide RecoveryMove, MarkIntent, CommitIntent, LinkContent, RemoveStageFile;
    PlaceMoves(db, fs, p, i, content, stage);
    CleanMoves(installed, linked, p, i);
  }

  lemma FinishParts(db: Db, fs: Files, p: Process, i: IntentId)
    requires Recovering(db, fs, p) && i in db.installs.intents && FinishOne(db, fs, p, i).Some?
    ensures var intent := db.installs.intents[i];
            var linked := if intent.digest in fs.content then fs else LinkContent(fs, intent.staging, intent.digest);
            if Present(db.installs, fs, i)
            then Install(db, p, i).Some?
                 && FinishOne(db, fs, p, i).value == (Install(db, p, i).value, RemoveStageFile(linked, intent.staging))
            else AbortIntent(db, p, i, CONTENT_MISSING).Some?
                 && FinishOne(db, fs, p, i).value == (AbortIntent(db, p, i, CONTENT_MISSING).value, fs)
  {
    HashesTell(db, fs, i);
    hide RowsAndFiles, TwoLinks, MissingMeansAborted, HashFile, Install, AbortIntent, LinkContent, RemoveStageFile;
  }

  lemma StandsAt(w: World, p: Process, i: IntentId)
    requires Recovering(w.db, w.fs, p) && p in w.recoveries && w.recoveries[p] == Idle
    requires w.db.phase.Intents? && NextPending(w.db.installs, w.db.phase.after, i)
    ensures At(w, p, w.db, w.fs, Idle) == w && w.db.fence == Some(p) && i in w.db.installs.intents
  {
    hide RowsAndFiles, TwoLinks, MissingMeansAborted;
    assert w.recoveries[p := Idle] == w.recoveries;
  }

  /** Running those steps with nothing in between is settling the intent. */
  lemma FinishIsRun(w: World, p: Process, i: IntentId)
    requires Recovering(w.db, w.fs, p) && p in w.recoveries && w.recoveries[p] == Idle
    requires w.db.phase.Intents? && NextPending(w.db.installs, w.db.phase.after, i) && FinishOne(w.db, w.fs, p, i).Some?
    ensures var (next, files) := FinishOne(w.db, w.fs, p, i).value;
            Run(w, Script(p, i, Present(w.db.installs, w.fs, i))) == Some(At(w, p, next.(phase := Intents(i)), files, Idle))
  {
    hide *;
    var db, fs := w.db, w.fs;
    StandsAt(w, p, i);
    var intent := db.installs.intents[i];
    var content, stage := intent.digest in fs.content, intent.staging in fs.stage;
    FinishParts(db, fs, p, i);
    LookMoves(db, fs, p, i);
    MoveAt(w, p, db, fs, Idle, Load(i), db, fs, Loaded(i));
    MoveAt(w, p, db, fs, Loaded(i), HashContent, db, fs, ContentSeen(i, content));
    MoveAt(w, p, db, fs, ContentSeen(i, content), HashStage, db, fs, BothSeen(i, content, stage));
    PresentIs(db.installs, fs, i);
    ScriptIs(p, i, content || stage);
    if content || stage {
      PresentRun(w, p, i);
    } else {
      var next := AbortIntent(db, p, i, CONTENT_MISSING).value;
      AbsentMoves(db, fs, p, i);
      MoveAt(w, p, db, fs, BothSeen(i, content, stage), AbortMissing, next, fs, Settled(i));
      MoveAt(w, p, next, fs, Settled(i), NextIntent, next.(phase := Intents(i)), fs, Idle);
      TraceRuns([At(w, p, db, fs, Idle), At(w, p, db, fs, Loaded(i)), At(w, p, db, fs, ContentSeen(i, content)),
                 At(w, p, db, fs, BothSeen(i, content, stage)), At(w, p, next, fs, Settled(i)),
                 At(w, p, next.(phase := Intents(i)), fs, Idle)], Script(p, i, false));
    }
  }

  lemma PresentIs(n: Installs, fs: Files, i: IntentId)
    requires i in n.intents
    ensures Present(n, fs, i) == (n.intents[i].digest in fs.content || n.intents[i].staging in fs.stage)
  {
  }

  lemma ScriptIs(p: Process, i: IntentId, present: bool)
    ensures Script(p, i, present) ==
              if present then
                [Recover(p, Load(i)), Recover(p, HashContent), Recover(p, HashStage), Recover(p, LinkStage),
                 Recover(p, RecoverInstalled), Recover(p, RecoverCommit), Recover(p, RecoverRemove),
                 Recover(p, RecoverCleaned), Recover(p, NextIntent)]
              else
                [Recover(p, Load(i)), Recover(p, HashContent), Recover(p, HashStage), Recover(p, AbortMissing),
                 Recover(p, NextIntent)]
  {
  }

  lemma PresentRun(w: World, p: Process, i: IntentId)
    requires Recovering(w.db, w.fs, p) && i in w.db.installs.intents && Install(w.db, p, i).Some? && w.db.fence == Some(p)
    requires At(w, p, w.db, w.fs, Idle) == w
    requires var intent := w.db.installs.intents[i]; intent.digest in w.fs.content || intent.staging in w.fs.stage
    requires w.db.phase.Intents? && NextPending(w.db.installs, w.db.phase.after, i)
    ensures var intent := w.db.installs.intents[i];
            var linked := if intent.digest in w.fs.content then w.fs else LinkContent(w.fs, intent.staging, intent.digest);
            Run(w, Script(p, i, true))
              == Some(At(w, p, Install(w.db, p, i).value.(phase := Intents(i)), RemoveStageFile(linked, intent.staging), Idle))
  {
    hide Recovering, NextPending, Step, Run, Script, At, MarkIntent, CommitIntent, LinkContent, RemoveStageFile, RecoveryMove;
    var db, fs := w.db, w.fs;
    var intent := db.installs.intents[i];
    var content, stage := intent.digest in fs.content, intent.staging in fs.stage;
    var linked := if content then fs else LinkContent(fs, intent.staging, intent.digest);
    var installed := MarkIntent(db, p, i, ContentInstalled).value;
    var committed := CommitIntent(installed, p, i).value;
    var files := RemoveStageFile(linked, intent.staging);
    var next := Install(db, p, i).value;
    ScriptIs(p, i, true);
    LookMoves(db, fs, p, i);
    PresentMoves(db, fs, p, i, content, stage);
    hide *;
    MoveAt(w, p, db, fs, Idle, Load(i), db, fs, Loaded(i));
    MoveAt(w, p, db, fs, Loaded(i), HashContent, db, fs, ContentSeen(i, content));
    MoveAt(w, p, db, fs, ContentSeen(i, content), HashStage, db, fs, BothSeen(i, content, stage));
    MoveAt(w, p, db, fs, BothSeen(i, content, stage), LinkStage, db, linked, InPlace(i));
    MoveAt(w, p, db, linked, InPlace(i), RecoverInstalled, installed, linked, MarkedInstalled(i));
    MoveAt(w, p, installed, linked, MarkedInstalled(i), RecoverCommit, committed, linked, EvidenceIn(i));
    MoveAt(w, p, committed, linked, EvidenceIn(i), RecoverRemove, committed, files, StageGone(i));
    MoveAt(w, p, committed, files, StageGone(i), RecoverCleaned, next, files, Settled(i));
    MoveAt(w, p, next, files, Settled(i), NextIntent, next.(phase := Intents(i)), files, Idle);
    TraceRuns([At(w, p, db, fs, Idle), At(w, p, db, fs, Loaded(i)), At(w, p, db, fs, ContentSeen(i, content)),
               At(w, p, db, fs, BothSeen(i, content, stage)), At(w, p, db, linked, InPlace(i)),
               At(w, p, installed, linked, MarkedInstalled(i)), At(w, p, committed, linked, EvidenceIn(i)),
               At(w, p, committed, files, StageGone(i)), At(w, p, next, files, Settled(i)),
               At(w, p, next.(phase := Intents(i)), files, Idle)], Script(p, i, true));
  }
}
