/**
  Laws over the vault's runs that the events themselves explain: who writes, why an attempt ended as it did,
  where a blob comes from, and what reconciliation may plan.
 */
module VaultLaws {
  import opened Base
  import opened VaultDatabase
  import opened VaultProtocol
  import opened VaultSafety

  // ----- The writer's lease -----

  /** The process a step is taken by. */
  function Actor(w: World, e: Event): Option<Process> {
    match e
    case Begin(p, _, _, _) => Some(p)
    case Store(a, _) => if a in w.stores then Some(w.stores[a].process) else None
    case Recover(p, _) => Some(p)
    case _ => None
  }

  predicate MovesLease(e: Event) {
    e.Claim? || e.Release?
  }

  lemma StoreHolder(db: Db, fs: Files, a: AttemptId, th: StoreThread, act: StoreAct)
    requires StoreMove(db, fs, a, th, act).Some?
    ensures var next := StoreMove(db, fs, a, th, act).value.db; next != db ==> db.fence == Some(th.process) && next.fence == db.fence
  {
    hide HashFile, ThreadIntent, InsertSuccess, SettleOutcome, IntentClash;
  }

  lemma RecoveryHolder(db: Db, fs: Files, p: Process, pc: RecoveryPc, act: RecoveryAct)
    requires RecoveryMove(db, fs, p, pc, act).Some?
    ensures var next := RecoveryMove(db, fs, p, pc, act).value.db; next != db ==> db.fence == Some(p) && next.fence == db.fence
  {
    hide HashFile, NextPending, PassDone, StagePlan, InsertSuccess, SettleOutcome, ApplyEvidence;
  }

  /** Whoever has lost the lease, and does not know it yet, writes no row. */
  lemma OnlyHolderWrites(w: World, e: Event)
    requires Step(w, e).Some? && !MovesLease(e)
    ensures Step(w, e).value.db != w.db ==> Actor(w, e).Some? && w.db.fence == Actor(w, e)
    ensures Step(w, e).value.db.fence == w.db.fence
  {
    hide StoreMove, RecoveryMove, InsertAttempt;
    match e
    case Store(a, act) => StoreHolder(w.db, w.fs, a, w.stores[a], act);
    case Recover(p, act) => RecoveryHolder(w.db, w.fs, p, Alive(w, p), act);
    case _ => {}
  }

  // ----- Why an attempt ended -----

  ghost predicate Asked(es: seq<Event>, act: RecoveryAct) {
    exists p: Process :: Recover(p, act) in es
  }

  ghost predicate StageAsked(es: seq<Event>, a: AttemptId) {
    exists s: StagingId :: Asked(es, InspectStage(s, Some(a)))
  }

  /** What the events say of an outcome. */
  ghost predicate OutcomeExplained(e: Evidence, es: seq<Event>, a: AttemptId, o: Outcome) {
    || (o == SUCCESS && a in e.observations)
    || (o == STAGE_EXPIRED && StageAsked(es, a))
    || (o == STAGE_MISSING && Asked(es, InspectAttempt(a)))
    || (o == CONTENT_MISSING && Asked(es, AbortMissing))
    || (Store(a, Fail(o)) in es && (o.kind.Failed? || o.kind.Abandoned?))
  }

  ghost predicate BlobExplained(e: Evidence, es: seq<Event>, d: Bytes, provenance: Provenance) {
    match provenance
    case Retrieval => exists a :: a in e.observations && e.observations[a].digest == d
    case RecoveredOrphan => Asked(es, InspectContent(d))
  }

  ghost predicate PlanExplained(es: seq<Event>, plan: Plan) {
    match plan
    case QuarantineStage(s, _, expires) => expires.Some? ==> StageAsked(es, expires.value)
    case QuarantineContent(_, _) => true
    case ExpireAttempt(a) => Asked(es, InspectAttempt(a))
    case AdoptOrphan(d) => Asked(es, InspectContent(d))
  }

  function PlanAt(pc: RecoveryPc): Option<Plan> {
    match pc
    case Planning(plan) => Some(plan)
    case Holding(plan) => Some(plan)
    case QuarantineLinked(plan) => Some(plan)
    case SourceGone(plan) => Some(plan)
    case Ready(plan) => Some(plan)
    case _ => None
  }

  function FailureAt(pc: StorePc): Option<Outcome> {
    match pc
    case Failing(o) => Some(o)
    case Aborting(_, o) => Some(o)
    case _ => None
  }

  predicate FailureTold(es: seq<Event>, a: AttemptId, o: Outcome) {
    Store(a, Fail(o)) in es && (o.kind.Failed? || o.kind.Abandoned?)
  }

  ghost predicate EvidenceExplained(e: Evidence, es: seq<Event>) {
    && (forall a :: a in e.outcomes ==> OutcomeExplained(e, es, a, e.outcomes[a]))
    && (forall d :: d in e.blobs ==> BlobExplained(e, es, d, e.blobs[d]))
  }

  ghost predicate ThreadsExplained(stores: map<AttemptId, StoreThread>, es: seq<Event>) {
    forall a :: a in stores && FailureAt(stores[a].pc).Some? ==> FailureTold(es, a, FailureAt(stores[a].pc).value)
  }

  ghost predicate PlansExplained(plan: Option<Plan>, recoveries: map<Process, RecoveryPc>, es: seq<Event>) {
    && (plan.Some? ==> PlanExplained(es, plan.value))
    && (forall p :: p in recoveries && PlanAt(recoveries[p]).Some? ==> PlanExplained(es, PlanAt(recoveries[p]).value))
  }

  ghost predicate Explained(w: World, es: seq<Event>) {
    EvidenceExplained(w.db.evidence, es) && ThreadsExplained(w.stores, es) && PlansExplained(w.db.plan, w.recoveries, es)
  }

  // ----- Explanations stay -----

  lemma AskedStays(es: seq<Event>, e: Event, act: RecoveryAct)
    requires Asked(es, act)
    ensures Asked(es + [e], act)
  {
    var p: Process :| Recover(p, act) in es;
    assert Recover(p, act) in es + [e];
  }

  lemma StageAskedStays(es: seq<Event>, e: Event, a: AttemptId)
    requires StageAsked(es, a)
    ensures StageAsked(es + [e], a)
  {
    hide Asked;
    var s: StagingId :| Asked(es, InspectStage(s, Some(a)));
    AskedStays(es, e, InspectStage(s, Some(a)));
  }

  lemma OutcomeStays(e: Evidence, f: Evidence, es: seq<Event>, ev: Event, a: AttemptId, o: Outcome)
    requires OutcomeExplained(e, es, a, o) && (a in e.observations ==> a in f.observations)
    ensures OutcomeExplained(f, es + [ev], a, o)
  {
    hide Asked, StageAsked;
    if StageAsked(es, a) { StageAskedStays(es, ev, a); }
    if Asked(es, InspectAttempt(a)) { AskedStays(es, ev, InspectAttempt(a)); }
    if Asked(es, AbortMissing) { AskedStays(es, ev, AbortMissing); }
  }

  lemma BlobStays(e: Evidence, f: Evidence, es: seq<Event>, ev: Event, d: Bytes, provenance: Provenance)
    requires BlobExplained(e, es, d, provenance)
    requires forall a :: a in e.observations ==> a in f.observations && f.observations[a] == e.observations[a]
    ensures BlobExplained(f, es + [ev], d, provenance)
  {
    hide Asked;
    if provenance.RecoveredOrphan? {
      AskedStays(es, ev, InspectContent(d));
    } else {
      var a :| a in e.observations && e.observations[a].digest == d;
      assert a in f.observations && f.observations[a].digest == d;
    }
  }

  lemma PlanStays(es: seq<Event>, e: Event, plan: Plan)
    requires PlanExplained(es, plan)
    ensures PlanExplained(es + [e], plan)
  {
    hide Asked, StageAsked;
    match plan
    case QuarantineStage(_, _, expires) => if expires.Some? { StageAskedStays(es, e, expires.value); }
    case ExpireAttempt(a) => AskedStays(es, e, InspectAttempt(a));
    case AdoptOrphan(d) => AskedStays(es, e, InspectContent(d));
    case _ => {}
  }

  /** Whatever is new among outcomes and blobs is explained, and the rest stays. */
  ghost predicate News(e: Evidence, f: Evidence, es: seq<Event>) {
    && EvidenceGrows(e, f)
    && (forall a :: a in f.outcomes && a !in e.outcomes ==> OutcomeExplained(f, es, a, f.outcomes[a]))
    && (forall d :: d in f.blobs && d !in e.blobs ==> BlobExplained(f, es, d, f.blobs[d]))
  }

  lemma NewsExplained(e: Evidence, f: Evidence, es: seq<Event>, ev: Event)
    requires EvidenceExplained(e, es) && News(e, f, es + [ev])
    ensures EvidenceExplained(f, es + [ev])
  {
    hide OutcomeExplained, BlobExplained;
    forall a | a in f.outcomes ensures OutcomeExplained(f, es + [ev], a, f.outcomes[a]) {
      if a in e.outcomes { OutcomeStays(e, f, es, ev, a, e.outcomes[a]); }
    }
    forall d | d in f.blobs ensures BlobExplained(f, es + [ev], d, f.blobs[d]) {
      if d in e.blobs { BlobStays(e, f, es, ev, d, e.blobs[d]); }
    }
  }

  lemma NoNews(e: Evidence, es: seq<Event>)
    ensures News(e, e, es)
  {
    hide OutcomeExplained, BlobExplained;
  }

  // ----- What each transaction adds -----

  lemma CommitNews(db: Db, p: Process, i: IntentId, es: seq<Event>)
    requires DbAgrees(db) && CommitIntent(db, p, i).Some?
    ensures News(db.evidence, CommitIntent(db, p, i).value.evidence, es) && CommitIntent(db, p, i).value.plan == db.plan
  {
    hide DbAgrees, News, InsertSuccess;
    var intent := db.installs.intents[i];
    if Completed(db.evidence, intent.attempt).None? {
      SuccessNews(db.evidence, intent.attempt, intent.observation, es);
    } else {
      NoNews(db.evidence, es);
    }
  }

  lemma SuccessNews(e: Evidence, a: AttemptId, v: Observation, es: seq<Event>)
    requires InsertSuccess(e, a, v).Some?
    ensures News(e, InsertSuccess(e, a, v).value, es)
  {
    hide Asked, StageAsked;
    var f := InsertSuccess(e, a, v).value;
    assert a in f.observations && f.observations[a].digest == v.digest && f.outcomes[a] == SUCCESS;
  }

  lemma SettleNews(e: Evidence, a: AttemptId, o: Outcome, es: seq<Event>)
    requires SettleOutcome(e, a, o).Some?
    requires a !in e.outcomes ==> OutcomeExplained(e, es, a, o)
    ensures News(e, SettleOutcome(e, a, o).value, es)
  {
    hide BlobExplained, Asked, StageAsked;
  }

  lemma AbortNews(db: Db, p: Process, i: IntentId, o: Outcome, es: seq<Event>)
    requires AbortIntent(db, p, i, o).Some?
    requires i in db.installs.intents ==> OutcomeExplained(db.evidence, es, db.installs.intents[i].attempt, o)
    ensures News(db.evidence, AbortIntent(db, p, i, o).value.evidence, es) && AbortIntent(db, p, i, o).value.plan == db.plan
  {
    hide News, OutcomeExplained, SettleOutcome;
    SettleNews(db.evidence, db.installs.intents[i].attempt, o, es);
  }

  lemma ApplyNews(db: Db, p: Process, plan: Plan, es: seq<Event>)
    requires ApplyPlan(db, p, plan).Some? && PlanExplained(es, plan)
    ensures News(db.evidence, ApplyPlan(db, p, plan).value.evidence, es)
  {
    hide News, SettleOutcome, Asked, StageAsked;
    match plan
    case QuarantineStage(_, _, expires) =>
      if expires.Some? { SettleNews(db.evidence, expires.value, STAGE_EXPIRED, es); } else { NoNews(db.evidence, es); }
    case QuarantineContent(_, _) => NoNews(db.evidence, es);
    case ExpireAttempt(a) => SettleNews(db.evidence, a, STAGE_MISSING, es);
    case AdoptOrphan(d) => AdoptNews(db.evidence, d, es);
  }

  lemma AdoptNews(e: Evidence, d: Bytes, es: seq<Event>)
    requires Adopt(e, d).Some? && Asked(es, InspectContent(d))
    ensures News(e, Adopt(e, d).value, es)
  {
    hide OutcomeExplained, Asked;
  }

  // ----- Every step -----

  lemma StoreNews(w: World, a: AttemptId, act: StoreAct, es: seq<Event>)
    requires Safe(w) && ThreadsExplained(w.stores, es) && StoreStep(w, a, act).Some?
    ensures var next := StoreStep(w, a, act).value;
            && News(w.db.evidence, next.db.evidence, es + [Store(a, act)]) && next.db.plan == w.db.plan && next.recoveries == w.recoveries
  {
    hide Safe, News, OutcomeExplained, HashFile, ThreadIntent, CommitIntent, AbortIntent, SettleOutcome, StoreMove;
    var th, more := w.stores[a], es + [Store(a, act)];
    StoreStepIs(w, a, act);
    SafeParts(w);
    if act.Commit? {
      CommitMoves(w.db, w.fs, a, th);
      CommitNews(w.db, th.process, th.pc.id, more);
    } else if act.Finish? {
      FinishMoves(w.db, w.fs, a, th);
      ThreadFailure(w, a, es, more, act);
      SettleNews(w.db.evidence, a, th.pc.outcome, more);
    } else if act.AbortInstall? {
      AbortMoves(w.db, w.fs, a, th);
      ThreadFailure(w, a, es, more, act);
      OwnThread(w, a);
      AbortOwn(w, a);
      AbortNews(w.db, th.process, th.pc.id, th.pc.outcome, more);
    } else {
      QuietStore(w.db, w.fs, a, th, act);
      NoNews(w.db.evidence, more);
    }
  }

  lemma CommitMoves(db: Db, fs: Files, a: AttemptId, th: StoreThread)
    requires StoreMove(db, fs, a, th, Commit).Some?
    ensures th.pc.Installed? && CommitIntent(db, th.process, th.pc.id) == Some(StoreMove(db, fs, a, th, Commit).value.db)
  {
    hide CommitIntent;
  }

  lemma FinishMoves(db: Db, fs: Files, a: AttemptId, th: StoreThread)
    requires StoreMove(db, fs, a, th, Finish).Some?
    ensures th.pc.Failing? && SettleOutcome(db.evidence, a, th.pc.outcome).Some?
    ensures StoreMove(db, fs, a, th, Finish).value.db == db.(evidence := SettleOutcome(db.evidence, a, th.pc.outcome).value)
  {
    hide SettleOutcome;
  }

  lemma AbortMoves(db: Db, fs: Files, a: AttemptId, th: StoreThread)
    requires StoreMove(db, fs, a, th, AbortInstall).Some?
    ensures th.pc.Aborting? && AbortIntent(db, th.process, th.pc.id, th.pc.outcome) == Some(StoreMove(db, fs, a, th, AbortInstall).value.db)
  {
    hide AbortIntent;
  }

  lemma QuietStore(db: Db, fs: Files, a: AttemptId, th: StoreThread, act: StoreAct)
    requires StoreMove(db, fs, a, th, act).Some? && !act.Commit? && !act.Finish? && !act.AbortInstall?
    ensures StoreMove(db, fs, a, th, act).value.db.evidence == db.evidence && StoreMove(db, fs, a, th, act).value.db.plan == db.plan
  {
    hide HashFile, ThreadIntent, IntentClash;
  }

  lemma ThreadFailure(w: World, a: AttemptId, es: seq<Event>, more: seq<Event>, act: StoreAct)
    requires a in w.stores && ThreadsExplained(w.stores, es) && FailureAt(w.stores[a].pc).Some? && more == es + [Store(a, act)]
    ensures OutcomeExplained(w.db.evidence, more, a, FailureAt(w.stores[a].pc).value)
  {
    hide Asked, StageAsked;
    assert FailureTold(es, a, FailureAt(w.stores[a].pc).value);
  }

  /** A thread that aborts aborts its own attempt's intent. */
  lemma AbortOwn(w: World, a: AttemptId)
    requires Safe(w) && a in w.stores && w.stores[a].pc.Aborting?
    ensures var i := w.stores[a].pc.id; i in w.db.installs.intents ==> w.db.installs.intents[i].attempt == a
  {
    hide RowsAndFiles, RecoveriesAgree;
    SafeParts(w);
    OwnThread(w, a);
  }

  lemma StoreThreads(w: World, a: AttemptId, act: StoreAct, es: seq<Event>)
    requires ThreadsExplained(w.stores, es) && StoreStep(w, a, act).Some?
    ensures ThreadsExplained(StoreStep(w, a, act).value.stores, es + [Store(a, act)])
  {
    hide StoreMove;
    StoreStepIs(w, a, act);
    var more, next := es + [Store(a, act)], StoreStep(w, a, act).value;
    assert Store(a, act) in more;
    forall b | b in next.stores && FailureAt(next.stores[b].pc).Some? ensures FailureTold(more, b, FailureAt(next.stores[b].pc).value) {
      if b == a {
        FailureFrom(w.db, w.fs, a, w.stores[a], act);
      } else {
        assert FailureTold(es, b, FailureAt(w.stores[b].pc).value);
      }
      if b == a && FailureAt(w.stores[a].pc).Some? { assert FailureTold(es, a, FailureAt(w.stores[a].pc).value); }
    }
  }

  lemma FailureFrom(db: Db, fs: Files, a: AttemptId, th: StoreThread, act: StoreAct)
    requires StoreMove(db, fs, a, th, act).Some? && StoreMove(db, fs, a, th, act).value.pc.Some?
    ensures var o := FailureAt(StoreMove(db, fs, a, th, act).value.pc.value);
            o.Some? ==> o == FailureAt(th.pc) || (act == Fail(o.value) && (o.value.kind.Failed? || o.value.kind.Abandoned?))
  {
    hide HashFile, ThreadIntent, PrepareIntent, MarkIntent, CommitIntent, AbortIntent, FinishAttempt;
  }

  lemma RecoverNews(w: World, p: Process, act: RecoveryAct, es: seq<Event>)
    requires Safe(w) && PlansExplained(w.db.plan, w.recoveries, es) && RecoverStep(w, p, act).Some?
    ensures News(w.db.evidence, RecoverStep(w, p, act).value.db.evidence, es + [Recover(p, act)])
  {
    hide Safe, News, OutcomeExplained, CommitIntent, AbortIntent, ApplyPlan, RecoveryMove, PlanExplained;
    var more, pc := es + [Recover(p, act)], Alive(w, p);
    assert Recover(p, act) in more;
    SafeParts(w);
    if act.RecoverCommit? {
      RecoverCommits(w.db, w.fs, p, pc);
      CommitNews(w.db, p, pc.id, more);
    } else if act.AbortMissing? {
      RecoverAborts(w.db, w.fs, p, pc);
      if pc.id in w.db.installs.intents { MissingExplained(w.db.evidence, more, p, w.db.installs.intents[pc.id].attempt); }
      AbortNews(w.db, p, pc.id, CONTENT_MISSING, more);
    } else if act.Apply? {
      RecoverApplies(w.db, w.fs, p, pc);
      PlanStays(es, Recover(p, act), pc.plan);
      ApplyNews(w.db, p, pc.plan, more);
    } else {
      QuietRecovery(w.db, w.fs, p, pc, act);
      NoNews(w.db.evidence, more);
    }
  }

  lemma RecoverCommits(db: Db, fs: Files, p: Process, pc: RecoveryPc)
    requires RecoveryMove(db, fs, p, pc, RecoverCommit).Some?
    ensures pc.MarkedInstalled? && CommitIntent(db, p, pc.id) == Some(RecoveryMove(db, fs, p, pc, RecoverCommit).value.db)
  {
    hide CommitIntent;
  }

  lemma RecoverAborts(db: Db, fs: Files, p: Process, pc: RecoveryPc)
    requires RecoveryMove(db, fs, p, pc, AbortMissing).Some?
    ensures pc.BothSeen? && AbortIntent(db, p, pc.id, CONTENT_MISSING) == Some(RecoveryMove(db, fs, p, pc, AbortMissing).value.db)
  {
    hide AbortIntent;
  }

  lemma RecoverApplies(db: Db, fs: Files, p: Process, pc: RecoveryPc)
    requires RecoveryMove(db, fs, p, pc, Apply).Some?
    ensures pc.Ready? && ApplyPlan(db, p, pc.plan) == Some(RecoveryMove(db, fs, p, pc, Apply).value.db)
  {
    hide ApplyPlan;
  }

  lemma MissingExplained(e: Evidence, es: seq<Event>, p: Process, a: AttemptId)
    requires Recover(p, AbortMissing) in es
    ensures OutcomeExplained(e, es, a, CONTENT_MISSING)
  {
    hide StageAsked;
    assert Asked(es, AbortMissing);
  }

  lemma QuietRecovery(db: Db, fs: Files, p: Process, pc: RecoveryPc, act: RecoveryAct)
    requires RecoveryMove(db, fs, p, pc, act).Some? && !act.RecoverCommit? && !act.AbortMissing? && !act.Apply?
    ensures RecoveryMove(db, fs, p, pc, act).value.db.evidence == db.evidence
  {
    hide HashFile, NextPending, PassDone, StagePlan;
  }

  /** A recovery holds the plan it held, the one on record, or one it has just made of what it was asked to inspect. */
  lemma PlanFrom(db: Db, fs: Files, p: Process, pc: RecoveryPc, act: RecoveryAct, es: seq<Event>)
    requires RecoveryMove(db, fs, p, pc, act).Some? && Recover(p, act) in es
    ensures var m := RecoveryMove(db, fs, p, pc, act).value;
            && (m.pc.Some? && PlanAt(m.pc.value).Some? ==>
                  PlanAt(m.pc.value) == PlanAt(pc) || PlanAt(m.pc.value) == db.plan || PlanExplained(es, PlanAt(m.pc.value).value))
            && (m.db.plan.Some? ==> m.db.plan == db.plan || m.db.plan == PlanAt(pc))
  {
    hide HashFile, NextPending, PassDone, MarkIntent, CommitIntent, AbortIntent, AdvancePhase, InspectMove;
    KeepsPlan(db, fs, p, pc, act);
    if act.InspectStage? || act.InspectAttempt? || act.InspectContent? {
      if InspectMove(db, fs, act).Some? { InspectPlans(db, fs, p, act, es); }
    }
  }

  lemma KeepsPlan(db: Db, fs: Files, p: Process, pc: RecoveryPc, act: RecoveryAct)
    requires RecoveryMove(db, fs, p, pc, act).Some?
    ensures !act.Persist? && !act.Apply? ==> RecoveryMove(db, fs, p, pc, act).value.db.plan == db.plan
  {
    hide HashFile, NextPending, PassDone, StagePlan, InsertSuccess, SettleOutcome, ApplyEvidence;
  }

  lemma InspectPlans(db: Db, fs: Files, p: Process, act: RecoveryAct, es: seq<Event>)
    requires InspectMove(db, fs, act).Some? && Recover(p, act) in es
    ensures var m := InspectMove(db, fs, act).value;
            m.db == db && (m.pc.Some? && PlanAt(m.pc.value).Some? ==> PlanExplained(es, PlanAt(m.pc.value).value))
  {
    hide HashFile, StagingKnown;
    assert Asked(es, act);
  }

  lemma RecoverPlans(w: World, p: Process, act: RecoveryAct, es: seq<Event>)
    requires PlansExplained(w.db.plan, w.recoveries, es) && RecoverStep(w, p, act).Some?
    ensures var next := RecoverStep(w, p, act).value;
            PlansExplained(next.db.plan, next.recoveries, es + [Recover(p, act)]) && next.stores == w.stores
  {
    hide RecoveryMove, PlanExplained;
    var more, next := es + [Recover(p, act)], RecoverStep(w, p, act).value;
    assert Recover(p, act) in more;
    PlanFrom(w.db, w.fs, p, Alive(w, p), act, more);
    if w.db.plan.Some? { PlanStays(es, Recover(p, act), w.db.plan.value); }
    if PlanAt(Alive(w, p)).Some? { PlanStays(es, Recover(p, act), PlanAt(Alive(w, p)).value); }
    forall q | q in next.recoveries && PlanAt(next.recoveries[q]).Some? ensures PlanExplained(more, PlanAt(next.recoveries[q]).value) {
      if q != p { PlanStays(es, Recover(p, act), PlanAt(w.recoveries[q]).value); }
    }
  }

  lemma PlansStay(plan: Option<Plan>, recoveries: map<Process, RecoveryPc>, kept: map<Process, RecoveryPc>, es: seq<Event>, e: Event)
    requires PlansExplained(plan, recoveries, es) && forall p :: p in kept ==> p in recoveries && kept[p] == recoveries[p]
    ensures PlansExplained(plan, kept, es + [e])
  {
    hide PlanExplained;
    if plan.Some? { PlanStays(es, e, plan.value); }
    forall p | p in kept && PlanAt(kept[p]).Some? ensures PlanExplained(es + [e], PlanAt(kept[p]).value) {
      PlanStays(es, e, PlanAt(recoveries[p]).value);
    }
  }

  lemma ThreadsStay(stores: map<AttemptId, StoreThread>, kept: map<AttemptId, StoreThread>, es: seq<Event>, e: Event)
    requires ThreadsExplained(stores, es)
    requires forall a :: a in kept && FailureAt(kept[a].pc).Some? ==> a in stores && kept[a] == stores[a]
    ensures ThreadsExplained(kept, es + [e])
  {
    forall a | a in kept && FailureAt(kept[a].pc).Some? ensures FailureTold(es + [e], a, FailureAt(kept[a].pc).value) {
      assert FailureTold(es, a, FailureAt(stores[a].pc).value);
    }
  }

  lemma QuietExplained(w: World, es: seq<Event>, e: Event)
    requires Explained(w, es) && Step(w, e).Some? && !e.Store? && !e.Recover?
    ensures Explained(Step(w, e).value, es + [e])
  {
    hide EvidenceExplained, ThreadsExplained, PlansExplained, News;
    var next := Step(w, e).value;
    ThreadsStay(w.stores, next.stores, es, e);
    PlansStay(w.db.plan, w.recoveries, next.recoveries, es, e);
    QuietNews(w, e, es + [e]);
    NewsExplained(w.db.evidence, next.db.evidence, es, e);
  }

  lemma QuietNews(w: World, e: Event, es: seq<Event>)
    requires Step(w, e).Some? && !e.Store? && !e.Recover?
    ensures News(w.db.evidence, Step(w, e).value.db.evidence, es)
  {
    hide OutcomeExplained, BlobExplained, StagingKnown;
  }

  lemma StepExplained(w: World, es: seq<Event>, e: Event)
    requires Safe(w) && Explained(w, es) && Step(w, e).Some?
    ensures Explained(Step(w, e).value, es + [e])
  {
    hide Safe, EvidenceExplained, ThreadsExplained, PlansExplained, News, StoreStep, RecoverStep;
    match e
    case Store(a, act) =>
      var next := StoreStep(w, a, act).value;
      StoreNews(w, a, act, es);
      NewsExplained(w.db.evidence, next.db.evidence, es, e);
      StoreThreads(w, a, act, es);
      PlansStay(w.db.plan, w.recoveries, next.recoveries, es, e);
    case Recover(p, act) =>
      var next := RecoverStep(w, p, act).value;
      RecoverNews(w, p, act, es);
      NewsExplained(w.db.evidence, next.db.evidence, es, e);
      RecoverPlans(w, p, act, es);
      ThreadsStay(w.stores, next.stores, es, e);
    case _ => QuietExplained(w, es, e);
  }

  lemma {:induction false} RunExplained(es: seq<Event>, n: nat)
    requires n <= |es| && Run(EMPTY_WORLD, es).Some? && CalmRun(es)
    ensures Run(EMPTY_WORLD, es[..n]).Some? && Safe(Run(EMPTY_WORLD, es[..n]).value) && Explained(Run(EMPTY_WORLD, es[..n]).value, es[..n])
  {
    hide Safe, Explained, Step, Calm, Fold;
    if n == 0 {
      assert es[..0] == [];
      EmptySafe();
      EmptyExplained();
    } else {
      RunExplained(es, n - 1);
      FoldLast(Step, EMPTY_WORLD, es, n - 1);
      FoldConcat(Step, EMPTY_WORLD, es[..n], es[n..]);
      assert es[..n] + es[n..] == es && es[..n] == es[..n - 1] + [es[n - 1]];
      StepSafe(Run(EMPTY_WORLD, es[..n - 1]).value, es[n - 1]);
      StepExplained(Run(EMPTY_WORLD, es[..n - 1]).value, es[..n - 1], es[n - 1]);
    }
  }

  lemma EmptyExplained()
    ensures Fold(Step, EMPTY_WORLD, []) == Some(EMPTY_WORLD) && Explained(EMPTY_WORLD, [])
  {
  }

  /**
    After every calm run, an attempt has ended for a reason the run shows: it was observed, its own store
    reported exactly this failure, or a reconciliation asked about it and gave it the outcome of that question.
   */
  lemma OutcomesExplained(es: seq<Event>, a: AttemptId)
    requires Run(EMPTY_WORLD, es).Some? && CalmRun(es) && a in Run(EMPTY_WORLD, es).value.db.evidence.outcomes
    ensures var e := Run(EMPTY_WORLD, es).value.db.evidence; OutcomeExplained(e, es, a, e.outcomes[a])
  {
    hide Safe, Run, OutcomeExplained;
    RunExplained(es, |es|);
    assert es[..|es|] == es;
  }

  /** A blob is recorded as retrieved only with an observation of it, and as an orphan only after its file was inspected. */
  lemma BlobsExplained(es: seq<Event>, d: Bytes)
    requires Run(EMPTY_WORLD, es).Some? && CalmRun(es) && d in Run(EMPTY_WORLD, es).value.db.evidence.blobs
    ensures var e := Run(EMPTY_WORLD, es).value.db.evidence; BlobExplained(e, es, d, e.blobs[d])
  {
    hide Safe, Run, BlobExplained;
    RunExplained(es, |es|);
    assert es[..|es|] == es;
  }

  // ----- What may be planned -----

  predicate Owns(e: Evidence, a: AttemptId, s: StagingId) {
    a in e.attempts && e.attempts[a].staging == s
  }

  predicate Open(e: Evidence, a: AttemptId) {
    a in e.attempts && a !in e.outcomes
  }

  /** A file under one name only, with these bytes. */
  predicate SingleFile(fs: Files, s: StagingId, bytes: Bytes) {
    s in fs.data && fs.data[s] == bytes && LinkCount(fs, s) <= 1
  }

  /** When a reconciliation may plan an action, by the rows and files alone. */
  ghost predicate Warranted(db: Db, fs: Files, plan: Plan) {
    match plan
    case QuarantineStage(s, bytes, expires) =>
      && db.phase.Staging? && s in fs.stage && SingleFile(fs, s, bytes)
      && (if expires.Some? then Owns(db.evidence, expires.value, s) && Open(db.evidence, expires.value)
          else forall a :: Owns(db.evidence, a, s) ==> !Open(db.evidence, a))
    case ExpireAttempt(a) => db.phase.OpenAttempts? && Open(db.evidence, a) && db.evidence.attempts[a].staging !in fs.stage
    case AdoptOrphan(d) => db.phase.Content? && d in fs.content && SingleFile(fs, fs.content[d], d) && d !in db.evidence.blobs
    case QuarantineContent(_, _) => false
  }

  ghost predicate CanPlan(db: Db, fs: Files, p: Process, plan: Plan) {
    exists act :: RecoveryMove(db, fs, p, Idle, act) == Some(Move(db, fs, Some(Planning(plan))))
  }

  lemma PlansWarranted(db: Db, fs: Files, p: Process, act: RecoveryAct, plan: Plan)
    requires StagingUnique(db.evidence) && RecoveryMove(db, fs, p, Idle, act) == Some(Move(db, fs, Some(Planning(plan))))
    ensures db.plan.None? && Warranted(db, fs, plan)
  {
    hide NextPending, PassDone, LinkCount, MarkIntent, CommitIntent, AbortIntent, AdvancePhase;
  }

  lemma StagingOwned(e: Evidence, s: StagingId)
    ensures StagingKnown(e, s) <==> exists a :: Owns(e, a, s)
  {
    if a :| Owns(e, a, s) { assert a in e.attempts && e.attempts[a].staging == s; }
    if a :| a in e.attempts && e.attempts[a].staging == s { assert Owns(e, a, s); }
  }

  lemma WarrantedPlans(db: Db, fs: Files, p: Process, plan: Plan) returns (act: RecoveryAct)
    requires db.plan.None? && Warranted(db, fs, plan)
    ensures RecoveryMove(db, fs, p, Idle, act) == Some(Move(db, fs, Some(Planning(plan))))
  {
    hide LinkCount;
    match plan
    case QuarantineStage(s, bytes, expires) =>
      if expires.Some? {
        act := InspectStage(s, expires);
      } else if a :| Owns(db.evidence, a, s) {
        act := InspectStage(s, Some(a));
      } else {
        StagingOwned(db.evidence, s);
        act := InspectStage(s, None);
      }
    case ExpireAttempt(a) => act := InspectAttempt(a);
    case AdoptOrphan(d) => act := InspectContent(d);
  }

  /**
    A reconciliation at rest can plan an action exactly when none is pending and the rows and files warrant it: a
    stage file nobody open owns or one given up, an open attempt whose stage file is gone, content nobody recorded.
   */
  lemma PlannedExactly(db: Db, fs: Files, p: Process, plan: Plan)
    requires StagingUnique(db.evidence)
    ensures CanPlan(db, fs, p, plan) <==> db.plan.None? && Warranted(db, fs, plan)
  {
    hide RecoveryMove, Warranted, StagingUnique;
    if act :| RecoveryMove(db, fs, p, Idle, act) == Some(Move(db, fs, Some(Planning(plan)))) { PlansWarranted(db, fs, p, act, plan); }
    if db.plan.None? && Warranted(db, fs, plan) { var act := WarrantedPlans(db, fs, p, plan); }
  }

  /** The content scan refuses a file under a second name, passes over recorded content and plans to adopt the rest. */
  lemma ScannedExactly(db: Db, fs: Files, p: Process, d: Bytes)
    requires RowsAndFiles(db, fs) && db.plan.None? && db.phase.Content? && d in fs.content
    ensures RecoveryMove(db, fs, p, Idle, InspectContent(d)) ==
              Some(Move(db, fs, Some(if LinkCount(fs, fs.content[d]) > 1 then ContentRefused(d)
                                     else if d in db.evidence.blobs then Idle else Planning(AdoptOrphan(d)))))
  {
    RefusedExactlyWhenTwinned(db, fs, d);
    hide RowsAndFiles, LinkCount, HashFile;
  }

  // ----- From phase to phase -----

  function PlaceOf(phase: Phase): nat {
    match phase
    case Intents(_) => 0
    case Staging => 1
    case OpenAttempts => 2
    case Content => 3
  }

  /** An intent that is neither cleaned up after nor aborted, beyond the key of the pass. */
  predicate Ahead(db: Db, after: int, i: IntentId) {
    after < i && i in db.installs.intents && (i, StageCleaned) !in db.installs.marks && (i, Aborted) !in db.installs.marks
  }

  /**
    A reconciliation at rest goes on to the next phase, in a fixed round, exactly if it holds the lease, no action is
    pending and no intent is ahead of its pass; the pass then starts again from the beginning.
   */
  lemma PhasesExactly(db: Db, fs: Files, p: Process)
    ensures var move := RecoveryMove(db, fs, p, Idle, NextPhase);
            && (move.Some? <==> db.fence == Some(p) && db.plan.None? && (db.phase.Intents? ==> forall i :: !Ahead(db, db.phase.after, i)))
            && (move.Some? ==>
                  var next := move.value.db;
                  && next == db.(phase := next.phase) && PlaceOf(next.phase) == (PlaceOf(db.phase) + 1) % 4
                  && (next.phase.Intents? ==> next.phase.after == -1) && move.value.fs == fs && move.value.pc == Some(Idle))
  {
    if db.phase.Intents? {
      forall i ensures Ahead(db, db.phase.after, i) <==> i in db.installs.intents && db.phase.after < i && Pending(db.installs, i) { }
    }
  }

  /** The next intent a pass takes up is the least one ahead of it. */
  lemma LoadedExactly(db: Db, fs: Files, p: Process, i: IntentId)
    ensures RecoveryMove(db, fs, p, Idle, Load(i)).Some? <==>
              && db.plan.None? && db.phase.Intents? && Ahead(db, db.phase.after, i)
              && forall j :: Ahead(db, db.phase.after, j) ==> i <= j
    ensures RecoveryMove(db, fs, p, Idle, Load(i)).Some? ==> RecoveryMove(db, fs, p, Idle, Load(i)).value == Move(db, fs, Some(Loaded(i)))
  {
    if db.phase.Intents? {
      forall j ensures Ahead(db, db.phase.after, j) <==> j in db.installs.intents && db.phase.after < j && Pending(db.installs, j) { }
    }
  }

  // ----- What happens to files -----

  /** The bytes of a file are written by the store it was created for, and by nobody else. */
  predicate DataExplained(w: World, e: Event, s: StagingId, next: World) {
    || ((s in next.fs.data <==> s in w.fs.data) && (s in w.fs.data ==> next.fs.data[s] == w.fs.data[s]))
    || (e.Store? && e.attempt in w.stores && w.stores[e.attempt].staging == s
        && s in next.fs.data
        && match e.act
           case CreateStage => s !in w.fs.data && next.fs.data[s] == []
           case WriteChunk(chunk) => s in w.fs.data && next.fs.data[s] == w.fs.data[s] + chunk
           case _ => false)
  }

  /** A staging name is given by its own store, and goes with it, with a settled intent, or into quarantine. */
  predicate StageExplained(w: World, e: Event, s: StagingId, next: World) {
    || (s in next.fs.stage <==> s in w.fs.stage)
    || (e.Store? && e.attempt in w.stores && w.stores[e.attempt].staging == s
        && if s in next.fs.stage then e.act.CreateStage?
           else (e.act.RemoveStage? && w.stores[e.attempt].pc.Committed?) || (e.act.RemoveFailed? && w.stores[e.attempt].pc.Failing?))
    || (e.Recover? && s !in next.fs.stage
        && match Alive(w, e.process)
           case EvidenceIn(i) => e.recovery.RecoverRemove? && i in w.db.installs.intents && w.db.installs.intents[i].staging == s
           case QuarantineLinked(plan) => e.recovery.QuarantineRemove? && plan.QuarantineStage? && plan.staging == s
           case _ => false)
  }

  /** A quarantine name is given to a stage file that still holds the bytes it was planned with, or to the content file planned. */
  predicate QuarantineExplained(w: World, e: Event, s: StagingId, next: World) {
    || (s in next.fs.quarantine <==> s in w.fs.quarantine)
    || (s in next.fs.quarantine && e.Recover? && e.recovery.QuarantineLink?
        && match Alive(w, e.process)
           case Holding(plan) =>
             if plan.QuarantineStage? then plan.staging == s && s in w.fs.stage && s in w.fs.data && w.fs.data[s] == plan.bytes
             else plan.QuarantineContent? && plan.inode == s && plan.digest in w.fs.content && w.fs.content[plan.digest] == s
           case _ => false)
  }

  lemma StoreFiles(db: Db, fs: Files, a: AttemptId, th: StoreThread, act: StoreAct, s: StagingId)
    requires StoreMove(db, fs, a, th, act).Some?
    ensures var files := StoreMove(db, fs, a, th, act).value.fs;
            && (|| ((s in files.data <==> s in fs.data) && (s in fs.data ==> files.data[s] == fs.data[s]))
                || (th.staging == s && act.CreateStage? && s !in fs.data && s in files.data && files.data[s] == [])
                || (th.staging == s && act.WriteChunk? && s in fs.data && s in files.data && files.data[s] == fs.data[s] + act.chunk))
            && (|| (s in files.stage <==> s in fs.stage)
                || (th.staging == s && if s in files.stage then act.CreateStage? else (act.RemoveStage? && th.pc.Committed?) || (act.RemoveFailed? && th.pc.Failing?)))
            && files.quarantine == fs.quarantine
  {
    hide HashFile, ThreadIntent, PrepareIntent, MarkIntent, CommitIntent, AbortIntent, FinishAttempt;
  }

  lemma RecoveryFiles(w: World, p: Process, act: RecoveryAct, s: StagingId)
    requires RecoverStep(w, p, act).Some?
    ensures var next := RecoverStep(w, p, act).value;
            && next.fs.data == w.fs.data
            && StageExplained(w, Recover(p, act), s, next) && QuarantineExplained(w, Recover(p, act), s, next)
  {
    hide HashFile, NextPending, PassDone, CommitIntent, AbortIntent, ApplyPlan, MarkIntent, InspectMove, AdvancePhase, PlanAction, NextPhaseDb, StageFile;
    if act.InspectStage? || act.InspectAttempt? || act.InspectContent? { InspectKeeps(w.db, w.fs, act); }
  }

  lemma InspectKeeps(db: Db, fs: Files, act: RecoveryAct)
    ensures InspectMove(db, fs, act).Some? ==> InspectMove(db, fs, act).value.fs == fs
  {
    hide HashFile, StagePlan;
  }

  /** Every step of every run: what becomes of a file's bytes and names is the doing of the thread it concerns. */
  lemma FilesExplained(w: World, e: Event, s: StagingId)
    requires Step(w, e).Some?
    ensures var next := Step(w, e).value;
            DataExplained(w, e, s, next) && StageExplained(w, e, s, next) && QuarantineExplained(w, e, s, next)
  {
    hide StoreMove, RecoveryMove, StageExplained, QuarantineExplained;
    match e
    case Store(a, act) => StoreFiles(w.db, w.fs, a, w.stores[a], act, s); StoreStageExplained(w, a, act, s);
    case Recover(p, act) => RecoveryFiles(w, p, act, s);
    case _ => QuietFiles(w, e, s);
  }

  lemma StoreStageExplained(w: World, a: AttemptId, act: StoreAct, s: StagingId)
    requires StoreStep(w, a, act).Some?
    ensures var next := StoreStep(w, a, act).value;
            StageExplained(w, Store(a, act), s, next) && QuarantineExplained(w, Store(a, act), s, next)
  {
    hide StoreMove;
    StoreStepIs(w, a, act);
    StoreFiles(w.db, w.fs, a, w.stores[a], act, s);
  }

  lemma QuietFiles(w: World, e: Event, s: StagingId)
    requires Step(w, e).Some? && !e.Store? && !e.Recover?
    ensures Step(w, e).value.fs == w.fs
    ensures StageExplained(w, e, s, Step(w, e).value) && QuarantineExplained(w, e, s, Step(w, e).value)
  {
    hide RecordAttempt;
  }
}
