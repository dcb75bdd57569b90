/**
  What every run of the vault keeps, whatever the interleaving of stores, crashes, takeovers and
  recovery, provided the content scan never hashes a file again that it has refused once.
 */
module VaultSafety {
  import opened Base
  import opened VaultDatabase
  import opened VaultProtocol

  // ----- The invariant -----

  /** A content file holds exactly the bytes its name is the digest of. */
  ghost predicate FilesAgree(fs: Files) {
    && (forall d :: d in fs.content ==> fs.content[d] in fs.data && fs.data[fs.content[d]] == d)
    && (forall s :: s in fs.stage ==> s in fs.data)
  }

  /** Every recorded blob has its content file. */
  ghost predicate BlobsBacked(e: Evidence, fs: Files) {
    forall d :: d in e.blobs ==> d in fs.content
  }

  ghost predicate IntentsStaged(n: Installs, fs: Files) {
    forall i :: i in n.intents ==> n.intents[i].staging in fs.data && fs.data[n.intents[i].staging] == n.intents[i].digest
  }

  ghost predicate NoIntent(db: Db, a: AttemptId) {
    a !in db.evidence.observations && forall i :: i in db.installs.intents ==> db.installs.intents[i].attempt != a
  }

  predicate OwnIntent(db: Db, a: AttemptId, i: IntentId) {
    i in db.installs.intents && db.installs.intents[i].attempt == a
  }

  predicate InContent(db: Db, fs: Files, i: IntentId) {
    i in db.installs.intents && db.installs.intents[i].digest in fs.content
  }

  ghost predicate PcAgrees(db: Db, fs: Files, a: AttemptId, th: StoreThread) {
    match th.pc
    case Recorded => NoIntent(db, a) && th.staging !in fs.data
    case Writing => NoIntent(db, a) && th.staging in fs.data && !Linked(fs, th.staging)
    case Closed => NoIntent(db, a) && th.staging in fs.data && !Linked(fs, th.staging)
    case Checked(d) =>
      NoIntent(db, a) && th.staging in fs.data && !Linked(fs, th.staging) && (d.PreexistingVerified? ==> fs.data[th.staging] in fs.content)
    case Prepared(i, d) =>
      OwnIntent(db, a, i) && th.staging in fs.data && (d.PreexistingVerified? ==> fs.data[th.staging] in fs.content)
    case Placed(i) => OwnIntent(db, a, i)
    case Verified(i) => OwnIntent(db, a, i) && InContent(db, fs, i)
    case Installed(i) => OwnIntent(db, a, i) && InContent(db, fs, i)
    case Committed(i) => OwnIntent(db, a, i) && Marked(db.installs, i, EvidenceCommitted)
    case Removed(i) => OwnIntent(db, a, i) && Marked(db.installs, i, EvidenceCommitted)
    case Failing(o) => NoIntent(db, a) && !o.kind.Succeeded? && !Linked(fs, th.staging)
    case Aborting(i, o) => OwnIntent(db, a, i) && !o.kind.Succeeded?
  }

  ghost predicate ThreadAgrees(db: Db, fs: Files, a: AttemptId, th: StoreThread) {
    && a in db.evidence.attempts && db.evidence.attempts[a] == Attempt(th.staging, th.draft)
    && PcAgrees(db, fs, a, th)
  }

  predicate PlanAgrees(e: Evidence, plan: Plan) {
    !plan.QuarantineContent? && (Expires(plan).Some? ==> Expires(plan).value in e.attempts)
  }

  predicate RecoveryAgrees(db: Db, fs: Files, pc: RecoveryPc) {
    match pc
    case Idle => true
    case Loaded(i) => i in db.installs.intents
    case ContentSeen(i, content) => i in db.installs.intents && (content ==> InContent(db, fs, i))
    case BothSeen(i, content, _) => i in db.installs.intents && (content ==> InContent(db, fs, i))
    case InPlace(i) => InContent(db, fs, i)
    case MarkedInstalled(i) => InContent(db, fs, i)
    case EvidenceIn(i) => i in db.installs.intents && Marked(db.installs, i, EvidenceCommitted)
    case StageGone(i) => i in db.installs.intents && Marked(db.installs, i, EvidenceCommitted)
    case Settled(_) => true
    case ContentRefused(_) => true
    case Planning(plan) => PlanAgrees(db.evidence, plan)
    case Holding(plan) => PlanAgrees(db.evidence, plan)
    case QuarantineLinked(plan) => PlanAgrees(db.evidence, plan)
    case SourceGone(plan) => PlanAgrees(db.evidence, plan)
    case Ready(plan) => PlanAgrees(db.evidence, plan) && (plan.AdoptOrphan? ==> plan.digest in fs.content)
  }

  ghost predicate StoresAgree(db: Db, fs: Files, stores: map<AttemptId, StoreThread>) {
    forall a :: a in stores ==> ThreadAgrees(db, fs, a, stores[a])
  }

  ghost predicate RecoveriesAgree(db: Db, fs: Files, recoveries: map<Process, RecoveryPc>) {
    forall p :: p in recoveries ==> RecoveryAgrees(db, fs, recoveries[p])
  }

  ghost predicate RowsAndFiles(db: Db, fs: Files) {
    && DbAgrees(db)
    && FilesAgree(fs)
    && BlobsBacked(db.evidence, fs)
    && IntentsStaged(db.installs, fs)
    && (db.plan.Some? ==> PlanAgrees(db.evidence, db.plan.value))
  }

  ghost predicate Safe(w: World) {
    && RowsAndFiles(w.db, w.fs)
    && StoresAgree(w.db, w.fs, w.stores)
    && RecoveriesAgree(w.db, w.fs, w.recoveries)
  }

  /** The guard: the content scan does not take its second hash of a file its first hash has refused. */
  predicate Calm(e: Event) {
    !(e.Recover? && e.recovery.HashAgain?)
  }

  // ----- What a step may change under another thread's feet -----

  predicate FilesGrow(fs: Files, next: Files) {
    forall d :: d in fs.content ==> d in next.content && next.content[d] == fs.content[d]
  }

  /** The change leaves the thread of attempt `a`, whose staging file is `s`, as it was. */
  ghost predicate Undisturbed(db: Db, fs: Files, next: Db, files: Files, a: AttemptId, s: StagingId) {
    && Grows(db, next)
    && FilesGrow(fs, files)
    && (s in fs.data <==> s in files.data)
    && (s in fs.data ==> files.data[s] == fs.data[s])
    && (NoIntent(db, a) ==> NoIntent(next, a))
    && (NoIntent(db, a) && !Linked(fs, s) ==> !Linked(files, s))
  }

  lemma ThreadKept(db: Db, fs: Files, next: Db, files: Files, a: AttemptId, th: StoreThread)
    requires ThreadAgrees(db, fs, a, th) && Undisturbed(db, fs, next, files, a, th.staging)
    ensures ThreadAgrees(next, files, a, th)
  {
    hide NoIntent, Linked;
  }

  lemma RecoveryKept(db: Db, fs: Files, next: Db, files: Files, pc: RecoveryPc)
    requires RecoveryAgrees(db, fs, pc) && Grows(db, next) && FilesGrow(fs, files)
    ensures RecoveryAgrees(next, files, pc)
  {
  }

  /** A step that disturbs no other thread keeps them all. */
  lemma OthersKept(w: World, next: Db, files: Files, own: set<AttemptId>)
    requires StoresAgree(w.db, w.fs, w.stores) && RecoveriesAgree(w.db, w.fs, w.recoveries)
    requires Grows(w.db, next) && FilesGrow(w.fs, files)
    requires forall a :: a in w.stores && a !in own ==> Undisturbed(w.db, w.fs, next, files, a, w.stores[a].staging)
    ensures forall a :: a in w.stores && a !in own ==> ThreadAgrees(next, files, a, w.stores[a])
    ensures forall p :: p in w.recoveries ==> RecoveryAgrees(next, files, w.recoveries[p])
  {
    hide ThreadAgrees, RecoveryAgrees, Undisturbed, Grows, FilesGrow;
    forall a | a in w.stores && a !in own ensures ThreadAgrees(next, files, a, w.stores[a]) {
      ThreadKept(w.db, w.fs, next, files, a, w.stores[a]);
    }
    forall p | p in w.recoveries ensures RecoveryAgrees(next, files, w.recoveries[p]) {
      RecoveryKept(w.db, w.fs, next, files, w.recoveries[p]);
    }
  }

  // ----- Transactions: the rows and files stay in agreement, and no idle attempt gains an intent -----

  ghost predicate IntentFree(db: Db, next: Db, except: set<AttemptId>) {
    forall b :: b !in except && NoIntent(db, b) ==> NoIntent(next, b)
  }

  lemma PrepareSafe(db: Db, fs: Files, a: AttemptId, th: StoreThread, i: IntentId, disposition: Disposition)
    requires RowsAndFiles(db, fs) && ThreadAgrees(db, fs, a, th) && th.pc == Checked(disposition)
    requires PrepareIntent(db, th.process, i, ThreadIntent(fs, a, th, disposition)).Some?
    ensures var next := PrepareIntent(db, th.process, i, ThreadIntent(fs, a, th, disposition)).value;
            RowsAndFiles(next, fs) && Grows(db, next) && IntentFree(db, next, {a}) && OwnIntent(next, a, i)
  {
    hide DbAgrees, FilesAgree, BlobsBacked, Grows;
    PrepareIntentKept(db, th.process, i, ThreadIntent(fs, a, th, disposition));
  }

  lemma MarkSafe(db: Db, fs: Files, p: Process, i: IntentId, m: Mark)
    requires RowsAndFiles(db, fs) && MarkIntent(db, p, i, m).Some?
    requires m.ContentInstalled? || (m.StageCleaned? && Marked(db.installs, i, EvidenceCommitted))
    ensures var next := MarkIntent(db, p, i, m).value;
            && RowsAndFiles(next, fs) && Grows(db, next) && IntentFree(db, next, {})
            && next.installs.intents == db.installs.intents
  {
    hide DbAgrees, FilesAgree, BlobsBacked, Grows;
    if m.ContentInstalled? { MarkInstalledKept(db, p, i); } else { MarkCleanedKept(db, p, i); }
  }

  lemma CommitSafe(db: Db, fs: Files, p: Process, i: IntentId)
    requires RowsAndFiles(db, fs) && CommitIntent(db, p, i).Some? && InContent(db, fs, i)
    ensures var next := CommitIntent(db, p, i).value;
            && RowsAndFiles(next, fs) && Grows(db, next) && IntentFree(db, next, {})
            && Marked(next.installs, i, EvidenceCommitted) && i in next.installs.intents
  {
    hide DbAgrees, FilesAgree, Grows;
    CommitIntentKept(db, p, i);
  }

  lemma AbortSafe(db: Db, fs: Files, p: Process, i: IntentId, o: Outcome)
    requires RowsAndFiles(db, fs) && AbortIntent(db, p, i, o).Some? && !o.kind.Succeeded?
    ensures var next := AbortIntent(db, p, i, o).value;
            RowsAndFiles(next, fs) && Grows(db, next) && IntentFree(db, next, {})
  {
    hide DbAgrees, FilesAgree, Grows;
    AbortIntentKept(db, p, i, o);
  }

  lemma FinishSafe(db: Db, fs: Files, p: Process, a: AttemptId, o: Outcome)
    requires RowsAndFiles(db, fs) && FinishAttempt(db, p, a, o).Some? && !o.kind.Succeeded?
    ensures var next := FinishAttempt(db, p, a, o).value;
            RowsAndFiles(next, fs) && Grows(db, next) && IntentFree(db, next, {})
  {
    hide DbAgrees, FilesAgree, Grows;
    SettleKept(db, a, o);
  }

  lemma BeginSafe(db: Db, fs: Files, p: Process, a: AttemptId, row: Attempt)
    requires RowsAndFiles(db, fs) && RecordAttempt(db, p, a, row).Some?
    ensures var next := RecordAttempt(db, p, a, row).value;
            RowsAndFiles(next, fs) && Grows(db, next) && IntentFree(db, next, {}) && NoIntent(next, a)
  {
    assert NoIntent(db, a);
    hide FilesAgree, Grows;
    RecordAttemptKept(db, p, a, row);
  }

  lemma ApplySafe(db: Db, fs: Files, p: Process, plan: Plan)
    requires RowsAndFiles(db, fs) && ApplyPlan(db, p, plan).Some?
    requires plan.AdoptOrphan? ==> plan.digest in fs.content
    ensures var next := ApplyPlan(db, p, plan).value;
            RowsAndFiles(next, fs) && Grows(db, next) && IntentFree(db, next, {})
  {
    hide DbAgrees, FilesAgree, Grows;
    ApplyPlanKept(db, p, plan);
  }

  /** Steps that touch only the lease, the phase or the plan. */
  lemma HeadSafe(db: Db, fs: Files, next: Db)
    requires RowsAndFiles(db, fs) && next.evidence == db.evidence && next.installs == db.installs
    requires next.plan.Some? ==> PlanAgrees(next.evidence, next.plan.value)
    ensures RowsAndFiles(next, fs) && Grows(db, next) && IntentFree(db, next, {})
  {
  }

  // ----- File steps -----

  /** Only the file of attempt `a`, at `s`, may change, and only if that attempt has no intent. */
  ghost predicate FilesFree(fs: Files, files: Files, touched: set<StagingId>) {
    && FilesGrow(fs, files)
    && (forall t :: t !in touched ==> (t in fs.data <==> t in files.data))
    && (forall t :: t !in touched && t in fs.data ==> files.data[t] == fs.data[t])
    && (forall t :: t !in touched && !Linked(fs, t) ==> !Linked(files, t))
  }

  lemma CreateSafe(db: Db, fs: Files, s: StagingId)
    requires RowsAndFiles(db, fs) && s !in fs.data
    ensures var files := fs.(data := fs.data[s := []], stage := fs.stage + {s});
            RowsAndFiles(db, files) && FilesFree(fs, files, {s}) && !Linked(files, s)
  {
    hide DbAgrees;
  }

  lemma WriteSafe(db: Db, fs: Files, a: AttemptId, s: StagingId, chunk: Bytes)
    requires RowsAndFiles(db, fs) && s in fs.data && !Linked(fs, s) && NoIntent(db, a)
    requires a in db.evidence.attempts && db.evidence.attempts[a].staging == s
    ensures var files := fs.(data := fs.data[s := fs.data[s] + chunk]);
            RowsAndFiles(db, files) && FilesFree(fs, files, {s}) && !Linked(files, s)
  {
    var files := fs.(data := fs.data[s := fs.data[s] + chunk]);
    assert IntentsStaged(db.installs, files) by {
      hide EvidenceAgrees, OneIntentEach, CommitsBacked, ObservedCommitted, AbortsBacked, CleansCommitted, FilesAgree, BlobsBacked;
      forall i | i in db.installs.intents ensures db.installs.intents[i].staging != s {
        var b := db.installs.intents[i].attempt;
        assert db.evidence.attempts[b].staging == db.installs.intents[i].staging;
        assert db.evidence.attempts[a].staging == s;
      }
    }
    hide DbAgrees;
    forall d | d in fs.content ensures fs.content[d] != s {
      assert fs.content[d] in fs.content.Values;
    }
  }

  lemma LinkSafe(db: Db, fs: Files, s: StagingId, d: Bytes)
    requires RowsAndFiles(db, fs) && s in fs.data && fs.data[s] == d && d !in fs.content
    ensures var files := LinkContent(fs, s, d);
            RowsAndFiles(db, files) && FilesFree(fs, files, {s}) && files.data == fs.data && d in files.content
  {
    hide DbAgrees;
    var files := LinkContent(fs, s, d);
    forall t | t != s && Linked(files, t) ensures Linked(fs, t) {
      var e :| e in files.content && files.content[e] == t;
      assert e in fs.content && fs.content[e] == t;
    }
  }

  /** Removing a staging name or adding a quarantine name leaves everything the invariant speaks of. */
  lemma NamesSafe(db: Db, fs: Files, files: Files)
    requires RowsAndFiles(db, fs)
    requires files.data == fs.data && files.content == fs.content && files.stage <= fs.stage
    ensures RowsAndFiles(db, files) && FilesFree(fs, files, {})
  {
    hide DbAgrees;
  }

  // ----- One step of a store thread -----

  ghost predicate StoreMoveSafe(db: Db, fs: Files, a: AttemptId, th: StoreThread, m: Move<StorePc>) {
    && RowsAndFiles(m.db, m.fs)
    && Grows(db, m.db)
    && IntentFree(db, m.db, {a})
    && FilesFree(fs, m.fs, {th.staging})
    && (m.pc.Some? ==> PcAgrees(m.db, m.fs, a, th.(pc := m.pc.value)))
  }

  lemma SameDb(db: Db)
    ensures Grows(db, db) && IntentFree(db, db, {})
  {
  }

  lemma SameFiles(fs: Files)
    ensures FilesFree(fs, fs, {})
  {
  }

  lemma NoFileUnlinked(db: Db, fs: Files, s: StagingId)
    requires RowsAndFiles(db, fs) && s !in fs.data
    ensures !Linked(fs, s)
  {
    hide DbAgrees;
  }

  lemma StoreFileMove(db: Db, fs: Files, a: AttemptId, th: StoreThread, act: StoreAct)
    requires RowsAndFiles(db, fs) && ThreadAgrees(db, fs, a, th) && StoreMove(db, fs, a, th, act).Some?
    requires act.CreateStage? || act.WriteChunk? || act.CloseStage? || act.RemoveStage? || act.RemoveFailed? || act.Fail?
    ensures StoreMoveSafe(db, fs, a, th, StoreMove(db, fs, a, th, act).value)
  {
    hide RowsAndFiles, Grows, FilesGrow, NoIntent, Linked;
    SameDb(db);
    SameFiles(fs);
    match act
    case CreateStage => CreateSafe(db, fs, th.staging);
    case WriteChunk(chunk) => WriteSafe(db, fs, a, th.staging, chunk);
    case RemoveStage => NamesSafe(db, fs, RemoveStageFile(fs, th.staging));
    case RemoveFailed => NamesSafe(db, fs, RemoveStageFile(fs, th.staging));
    case Fail(_) => if th.staging !in fs.data { NoFileUnlinked(db, fs, th.staging); }
    case _ => {}
  }

  lemma PlaceSafe(db: Db, fs: Files, a: AttemptId, th: StoreThread, i: IntentId, disposition: Disposition)
    requires RowsAndFiles(db, fs) && ThreadAgrees(db, fs, a, th) && th.pc == Prepared(i, disposition)
    requires PlaceMove(db, fs, th, i, disposition).Some?
    ensures StoreMoveSafe(db, fs, a, th, PlaceMove(db, fs, th, i, disposition).value)
  {
    hide RowsAndFiles, Grows, FilesGrow, NoIntent, Linked;
    SameDb(db);
    SameFiles(fs);
    if disposition.NewContent? && fs.data[th.staging] !in fs.content {
      LinkSafe(db, fs, th.staging, fs.data[th.staging]);
    }
  }

  lemma OwnDigest(db: Db, fs: Files, a: AttemptId, th: StoreThread, i: IntentId)
    requires RowsAndFiles(db, fs) && ThreadAgrees(db, fs, a, th) && OwnIntent(db, a, i)
    ensures th.staging in fs.data && fs.data[th.staging] == db.installs.intents[i].digest
  {
    assert IntentsMatch(db.evidence, db.installs);
  }

  lemma StoreCheckMove(db: Db, fs: Files, a: AttemptId, th: StoreThread, act: StoreAct)
    requires RowsAndFiles(db, fs) && ThreadAgrees(db, fs, a, th) && StoreMove(db, fs, a, th, act).Some?
    requires act.CheckExisting? || act.Place? || act.VerifyInstalled?
    ensures StoreMoveSafe(db, fs, a, th, StoreMove(db, fs, a, th, act).value)
  {
    hide RowsAndFiles, Grows, FilesGrow, NoIntent, Linked, PlaceMove;
    SameDb(db);
    SameFiles(fs);
    match act
    case Place => PlaceSafe(db, fs, a, th, th.pc.id, th.pc.disposition);
    case VerifyInstalled => OwnDigest(db, fs, a, th, th.pc.id);
    case _ => {}
  }

  lemma StoreRowMove(db: Db, fs: Files, a: AttemptId, th: StoreThread, act: StoreAct)
    requires RowsAndFiles(db, fs) && ThreadAgrees(db, fs, a, th) && StoreMove(db, fs, a, th, act).Some?
    requires act.Prepare? || act.MarkInstalled? || act.Commit? || act.MarkCleaned? || act.Finish? || act.AbortInstall?
    ensures StoreMoveSafe(db, fs, a, th, StoreMove(db, fs, a, th, act).value)
  {
    hide RowsAndFiles, FilesGrow, NoIntent, Linked, PrepareIntent, MarkIntent, CommitIntent, AbortIntent, FinishAttempt;
    SameFiles(fs);
    match act
    case Prepare(i) => PrepareSafe(db, fs, a, th, i, th.pc.disposition);
    case MarkInstalled => MarkSafe(db, fs, th.process, th.pc.id, ContentInstalled);
    case Commit => CommitSafe(db, fs, th.process, th.pc.id);
    case MarkCleaned => MarkSafe(db, fs, th.process, th.pc.id, StageCleaned);
    case Finish => FinishSafe(db, fs, th.process, a, th.pc.outcome);
    case AbortInstall => AbortSafe(db, fs, th.process, th.pc.id, th.pc.outcome);
  }

  // ----- One step of a recovery thread -----

  /** A link made by recovery is to a staging file whose attempt already has an intent. */
  ghost predicate LinkFree(db: Db, fs: Files, files: Files) {
    forall b :: b in db.evidence.attempts && NoIntent(db, b) && !Linked(fs, db.evidence.attempts[b].staging)
      ==> !Linked(files, db.evidence.attempts[b].staging)
  }

  ghost predicate RecoveryMoveSafe(db: Db, fs: Files, m: Move<RecoveryPc>) {
    && RowsAndFiles(m.db, m.fs)
    && Grows(db, m.db)
    && IntentFree(db, m.db, {})
    && FilesGrow(fs, m.fs) && m.fs.data == fs.data
    && LinkFree(db, fs, m.fs)
    && (m.pc.Some? ==> RecoveryAgrees(m.db, m.fs, m.pc.value))
  }

  lemma SameLinks(db: Db, fs: Files, files: Files)
    requires FilesFree(fs, files, {})
    ensures LinkFree(db, fs, files)
  {
  }

  lemma RecoveryLinkSafe(db: Db, fs: Files, i: IntentId)
    requires RowsAndFiles(db, fs) && i in db.installs.intents && db.installs.intents[i].digest !in fs.content
    ensures var files := LinkContent(fs, db.installs.intents[i].staging, db.installs.intents[i].digest);
            && RowsAndFiles(db, files) && FilesGrow(fs, files) && files.data == fs.data && LinkFree(db, fs, files)
            && InContent(db, files, i)
  {
    hide EvidenceAgrees, OneIntentEach, CommitsBacked, ObservedCommitted, AbortsBacked, CleansCommitted, FilesAgree, BlobsBacked, Linked;
    var intent := db.installs.intents[i];
    var files := LinkContent(fs, intent.staging, intent.digest);
    LinkSafe(db, fs, intent.staging, intent.digest);
    forall b | b in db.evidence.attempts && NoIntent(db, b) ensures db.evidence.attempts[b].staging != intent.staging {
      assert db.evidence.attempts[intent.attempt].staging == intent.staging;
      assert db.installs.intents[i].attempt != b;
    }
  }

  lemma IntentMoveSafe(db: Db, fs: Files, p: Process, pc: RecoveryPc, act: RecoveryAct)
    requires RowsAndFiles(db, fs) && RecoveryAgrees(db, fs, pc) && IntentMove(db, fs, p, pc, act).Some?
    ensures RecoveryMoveSafe(db, fs, IntentMove(db, fs, p, pc, act).value)
  {
    hide RowsAndFiles, FilesGrow, IntentFree, LinkFree, Grows, LinkContent, RemoveStageFile, MarkIntent, CommitIntent, AbortIntent, StageFile, LinkCount;
    SameDb(db);
    SameFiles(fs);
    SameLinks(db, fs, fs);
    match act
    case AbortMissing => AbortSafe(db, fs, p, pc.id, CONTENT_MISSING);
    case LinkStage => if !pc.content { RecoveryLinkSafe(db, fs, pc.id); }
    case RecoverInstalled => MarkSafe(db, fs, p, pc.id, ContentInstalled);
    case RecoverCommit => CommitSafe(db, fs, p, pc.id);
    case RecoverRemove => RemoveNameSafe(db, fs, db.installs.intents[pc.id].staging);
    case RecoverCleaned => MarkSafe(db, fs, p, pc.id, StageCleaned);
    case NextIntent => PhaseSafe(db, fs, Intents(pc.id));
    case _ => {}
  }

  lemma RemoveNameSafe(db: Db, fs: Files, s: StagingId)
    requires RowsAndFiles(db, fs)
    ensures RowsAndFiles(db, RemoveStageFile(fs, s)) && RemoveStageFile(fs, s).data == fs.data
    ensures FilesGrow(fs, RemoveStageFile(fs, s)) && LinkFree(db, fs, RemoveStageFile(fs, s))
  {
    NamesSafe(db, fs, RemoveStageFile(fs, s));
  }

  lemma PhaseSafe(db: Db, fs: Files, next: Phase)
    requires RowsAndFiles(db, fs)
    ensures RowsAndFiles(db.(phase := next), fs) && Grows(db, db.(phase := next)) && IntentFree(db, db.(phase := next), {})
  {
    HeadSafe(db, fs, db.(phase := next));
  }

  lemma PlanMoveSafe(db: Db, fs: Files, p: Process, plan: Plan, act: RecoveryAct, pc: RecoveryPc)
    requires RowsAndFiles(db, fs) && RecoveryAgrees(db, fs, pc) && PlanMove(db, fs, p, plan, act, pc).Some?
    requires pc == Holding(plan) || pc == QuarantineLinked(plan) || pc == SourceGone(plan) || pc == Ready(plan)
    ensures RecoveryMoveSafe(db, fs, PlanMove(db, fs, p, plan, act, pc).value)
  {
    hide RowsAndFiles, IntentFree, LinkFree, Grows, RemoveStageFile, ApplyPlan;
    SameDb(db);
    SameFiles(fs);
    SameLinks(db, fs, fs);
    match act
    case QuarantineLink => QuarantineSafe(db, fs, plan.staging);
    case QuarantineRemove => RemoveNameSafe(db, fs, plan.staging);
    case Apply => ApplySafe(db, fs, p, plan);
    case _ => {}
  }

  lemma QuarantineSafe(db: Db, fs: Files, s: StagingId)
    requires RowsAndFiles(db, fs)
    ensures var files := fs.(quarantine := fs.quarantine + {s}); RowsAndFiles(db, files) && LinkFree(db, fs, files)
  {
    NamesSafe(db, fs, fs.(quarantine := fs.quarantine + {s}));
  }

  /** The first hash of the content scan refuses a file exactly when its inode has a second name. */
  lemma RefusedExactlyWhenTwinned(db: Db, fs: Files, d: Bytes)
    requires RowsAndFiles(db, fs) && d in fs.content
    ensures HashFile(fs, ContentFile(fs, d), 1) != Digest(d) <==> LinkCount(fs, fs.content[d]) > 1
  {
    hide DbAgrees;
  }

  lemma InspectSafe(db: Db, fs: Files, act: RecoveryAct)
    requires RowsAndFiles(db, fs) && InspectMove(db, fs, act).Some?
    ensures RecoveryMoveSafe(db, fs, InspectMove(db, fs, act).value)
  {
    SameDb(db);
    SameFiles(fs);
    SameLinks(db, fs, fs);
    hide RowsAndFiles, IntentFree, LinkFree, Grows, LinkCount, HashFile;
  }

  lemma HeadMoveSafe(db: Db, fs: Files, p: Process, pc: RecoveryPc, act: RecoveryAct)
    requires RowsAndFiles(db, fs) && RecoveryAgrees(db, fs, pc) && RecoveryMove(db, fs, p, pc, act).Some?
    requires (act.NextPhase? && pc.Idle?) || (act.Resume? && pc.Idle?) || (act.Persist? && pc.Planning?)
    ensures RecoveryMoveSafe(db, fs, RecoveryMove(db, fs, p, pc, act).value)
  {
    hide *;
    SameDb(db);
    SameFiles(fs);
    SameLinks(db, fs, fs);
    PlanOnRecord(db, fs);
    HeadMoveIs(db, fs, p, pc, act);
    var m := RecoveryMove(db, fs, p, pc, act).value;
    if act.NextPhase? { PhaseSafe(db, fs, m.db.phase); }
    if act.Persist? { HeadSafe(db, fs, db.(plan := Some(pc.plan))); }
    UnmovedFiles(db, fs, m);
  }

  lemma PlanOnRecord(db: Db, fs: Files)
    requires RowsAndFiles(db, fs)
    ensures db.plan.Some? ==> PlanAgrees(db.evidence, db.plan.value)
  {
    hide DbAgrees, FilesAgree, BlobsBacked, IntentsStaged, PlanAgrees;
  }

  lemma HeadMoveIs(db: Db, fs: Files, p: Process, pc: RecoveryPc, act: RecoveryAct)
    requires RecoveryAgrees(db, fs, pc) && (db.plan.Some? ==> PlanAgrees(db.evidence, db.plan.value)) && RecoveryMove(db, fs, p, pc, act).Some?
    requires (act.NextPhase? && pc.Idle?) || (act.Resume? && pc.Idle?) || (act.Persist? && pc.Planning?)
    ensures var m := RecoveryMove(db, fs, p, pc, act).value;
            && m.fs == fs && (m.pc.Some? ==> RecoveryAgrees(m.db, m.fs, m.pc.value))
            && (act.NextPhase? ==> m.db == db.(phase := m.db.phase))
            && (act.Resume? ==> m.db == db)
            && (act.Persist? ==> PlanAgrees(db.evidence, pc.plan) && m.db == db.(plan := Some(pc.plan)))
  {
  }

  lemma UnmovedFiles(db: Db, fs: Files, m: Move<RecoveryPc>)
    requires RowsAndFiles(m.db, m.fs) && Grows(db, m.db) && IntentFree(db, m.db, {}) && m.fs == fs && LinkFree(db, fs, fs)
    requires m.pc.Some? ==> RecoveryAgrees(m.db, m.fs, m.pc.value)
    ensures RecoveryMoveSafe(db, fs, m)
  {
    hide RowsAndFiles, Grows, IntentFree, LinkFree, RecoveryAgrees;
  }

  lemma RecoveryMoveKept(db: Db, fs: Files, p: Process, pc: RecoveryPc, act: RecoveryAct)
    requires RowsAndFiles(db, fs) && RecoveryAgrees(db, fs, pc) && RecoveryMove(db, fs, p, pc, act).Some?
    requires !act.HashAgain?
    ensures RecoveryMoveSafe(db, fs, RecoveryMove(db, fs, p, pc, act).value)
  {
    hide RowsAndFiles, RecoveryMoveSafe, IntentMove, PlanMove, InspectMove, LinkCount, HashFile, NextPhaseDb, PlanAction;
    if pc.Holding? || pc.QuarantineLinked? || pc.SourceGone? || pc.Ready? {
      PlanMoveSafe(db, fs, p, pc.plan, act, pc);
    } else if (act.NextPhase? && pc.Idle?) || (act.Resume? && pc.Idle?) || (act.Persist? && pc.Planning?) {
      HeadMoveSafe(db, fs, p, pc, act);
    } else if pc.Idle? && (act.InspectStage? || act.InspectAttempt? || act.InspectContent?) {
      InspectSafe(db, fs, act);
    } else {
      IntentMoveSafe(db, fs, p, pc, act);
    }
  }

  // ----- Every run -----

  lemma ClaimSafe(w: World, fence: Option<Process>)
    requires Safe(w)
    ensures Safe(w.(db := w.db.(fence := fence)))
  {
    var next := w.db.(fence := fence);
    HeadSafe(w.db, w.fs, next);
    SameFiles(w.fs);
    forall a | a in w.stores ensures ThreadAgrees(next, w.fs, a, w.stores[a]) {
      hide RowsAndFiles, DbAgrees;
      ThreadKept(w.db, w.fs, next, w.fs, a, w.stores[a]);
    }
    forall p | p in w.recoveries ensures RecoveryAgrees(next, w.fs, w.recoveries[p]) {
      RecoveryKept(w.db, w.fs, next, w.fs, w.recoveries[p]);
    }
  }

  lemma CrashSafe(w: World, p: Process)
    requires Safe(w)
    ensures Safe(CrashStep(w, p)) && CrashStep(w, p).db == w.db
  {
    hide RowsAndFiles, ThreadAgrees, RecoveryAgrees;
  }

  lemma OthersUndisturbed(w: World, next: Db, files: Files, own: AttemptId, s: StagingId)
    requires StoresAgree(w.db, w.fs, w.stores) && DbAgrees(w.db)
    requires own in w.db.evidence.attempts && w.db.evidence.attempts[own].staging == s
    requires Grows(w.db, next) && IntentFree(w.db, next, {own}) && FilesFree(w.fs, files, {s})
    ensures forall a :: a in w.stores && a !in {own} ==> Undisturbed(w.db, w.fs, next, files, a, w.stores[a].staging)
  {
    hide NoIntent, Linked, Grows, FilesGrow, InstallsAgree, EvidenceAgrees, PcAgrees;
    forall a | a in w.stores && a !in {own} ensures Undisturbed(w.db, w.fs, next, files, a, w.stores[a].staging) {
      assert ThreadAgrees(w.db, w.fs, a, w.stores[a]);
      assert w.db.evidence.attempts[a].staging != w.db.evidence.attempts[own].staging;
    }
  }

  lemma StoreStepSafe(w: World, a: AttemptId, act: StoreAct)
    requires Safe(w) && StoreStep(w, a, act).Some?
    ensures Safe(StoreStep(w, a, act).value) && Grows(w.db, StoreStep(w, a, act).value.db)
  {
    hide *;
    StoreStepIs(w, a, act);
    var th := w.stores[a];
    var m := StoreMove(w.db, w.fs, a, th, act).value;
    SafeParts(w);
    OwnThread(w, a);
    StoreMoveKept(w.db, w.fs, a, th, act);
    StoreMoveParts(w.db, w.fs, a, th, m);
    OthersUndisturbed(w, m.db, m.fs, a, th.staging);
    FilesFreeGrow(w.fs, m.fs, {th.staging});
    OthersKept(w, m.db, m.fs, {a});
    AttemptKept(w.db, m.db, a);
    StoreAssembled(w, StoreStep(w, a, act).value, a, m);
  }

  lemma StoreStepIs(w: World, a: AttemptId, act: StoreAct)
    requires StoreStep(w, a, act).Some?
    ensures a in w.stores && StoreMove(w.db, w.fs, a, w.stores[a], act).Some?
    ensures var m := StoreMove(w.db, w.fs, a, w.stores[a], act).value;
            StoreStep(w, a, act).value ==
              World(m.db, m.fs, if m.pc.None? then w.stores - {a} else w.stores[a := w.stores[a].(pc := m.pc.value)], w.recoveries)
  {
    hide StoreMove;
  }

  lemma SafeParts(w: World)
    requires Safe(w)
    ensures RowsAndFiles(w.db, w.fs) && DbAgrees(w.db)
    ensures StoresAgree(w.db, w.fs, w.stores) && RecoveriesAgree(w.db, w.fs, w.recoveries)
  {
    hide DbAgrees, StoresAgree, RecoveriesAgree, FilesAgree, BlobsBacked, IntentsStaged;
  }

  lemma OwnThread(w: World, a: AttemptId)
    requires StoresAgree(w.db, w.fs, w.stores) && a in w.stores
    ensures ThreadAgrees(w.db, w.fs, a, w.stores[a])
    ensures a in w.db.evidence.attempts && w.db.evidence.attempts[a] == Attempt(w.stores[a].staging, w.stores[a].draft)
  {
    hide PcAgrees;
  }

  lemma StoreMoveParts(db: Db, fs: Files, a: AttemptId, th: StoreThread, m: Move<StorePc>)
    requires StoreMoveSafe(db, fs, a, th, m)
    ensures RowsAndFiles(m.db, m.fs) && Grows(db, m.db) && IntentFree(db, m.db, {a}) && FilesFree(fs, m.fs, {th.staging})
    ensures m.pc.Some? ==> PcAgrees(m.db, m.fs, a, th.(pc := m.pc.value))
  {
    hide RowsAndFiles, Grows, IntentFree, FilesFree, PcAgrees;
  }

  lemma StoreAssembled(w: World, next: World, a: AttemptId, m: Move<StorePc>)
    requires a in w.stores && RowsAndFiles(m.db, m.fs)
    requires next == World(m.db, m.fs, if m.pc.None? then w.stores - {a} else w.stores[a := w.stores[a].(pc := m.pc.value)], w.recoveries)
    requires forall b :: b in w.stores && b !in {a} ==> ThreadAgrees(m.db, m.fs, b, w.stores[b])
    requires forall p :: p in w.recoveries ==> RecoveryAgrees(m.db, m.fs, w.recoveries[p])
    requires a in m.db.evidence.attempts && m.db.evidence.attempts[a] == Attempt(w.stores[a].staging, w.stores[a].draft)
    requires m.pc.Some? ==> PcAgrees(m.db, m.fs, a, w.stores[a].(pc := m.pc.value))
    ensures Safe(next)
  {
    hide RowsAndFiles, RecoveryAgrees, PcAgrees;
    forall b | b in next.stores ensures ThreadAgrees(next.db, next.fs, b, next.stores[b]) {
      hide ThreadAgrees;
      if b == a { OwnAgrees(m, a, w.stores[a]); }
    }
    hide ThreadAgrees;
  }

  lemma OwnAgrees(m: Move<StorePc>, a: AttemptId, th: StoreThread)
    requires a in m.db.evidence.attempts && m.db.evidence.attempts[a] == Attempt(th.staging, th.draft)
    requires m.pc.Some? && PcAgrees(m.db, m.fs, a, th.(pc := m.pc.value))
    ensures ThreadAgrees(m.db, m.fs, a, th.(pc := m.pc.value))
  {
    hide PcAgrees;
  }

  lemma FilesFreeGrow(fs: Files, files: Files, touched: set<StagingId>)
    requires FilesFree(fs, files, touched)
    ensures FilesGrow(fs, files)
  {
  }

  lemma AttemptKept(db: Db, next: Db, a: AttemptId)
    requires Grows(db, next) && a in db.evidence.attempts
    ensures a in next.evidence.attempts && next.evidence.attempts[a] == db.evidence.attempts[a]
  {
  }

  lemma StoreMoveKept(db: Db, fs: Files, a: AttemptId, th: StoreThread, act: StoreAct)
    requires RowsAndFiles(db, fs) && ThreadAgrees(db, fs, a, th) && StoreMove(db, fs, a, th, act).Some?
    ensures StoreMoveSafe(db, fs, a, th, StoreMove(db, fs, a, th, act).value)
  {
    hide *;
    if act.CheckExisting? || act.Place? || act.VerifyInstalled? {
      StoreCheckMove(db, fs, a, th, act);
    } else if act.Prepare? || act.MarkInstalled? || act.Commit? || act.MarkCleaned? || act.Finish? || act.AbortInstall? {
      StoreRowMove(db, fs, a, th, act);
    } else {
      StoreFileMove(db, fs, a, th, act);
    }
  }

  lemma RecoverStepSafe(w: World, p: Process, act: RecoveryAct)
    requires Safe(w) && RecoverStep(w, p, act).Some? && Calm(Recover(p, act))
    ensures Safe(RecoverStep(w, p, act).value) && Grows(w.db, RecoverStep(w, p, act).value.db)
  {
    var m := RecoveryMove(w.db, w.fs, p, Alive(w, p), act).value;
    hide RowsAndFiles, ThreadAgrees, RecoveryMove, Grows, FilesGrow, IntentFree, LinkFree, LinkCount;
    RecoveryMoveKept(w.db, w.fs, p, Alive(w, p), act);
    forall a | a in w.stores ensures Undisturbed(w.db, w.fs, m.db, m.fs, a, w.stores[a].staging) {
      assert ThreadAgrees(w.db, w.fs, a, w.stores[a]);
      UndisturbedByRecovery(w.db, w.fs, m, a, w.stores[a]);
    }
    hide Undisturbed, RecoveryAgrees;
    OthersKept(w, m.db, m.fs, {});
  }

  lemma UndisturbedByRecovery(db: Db, fs: Files, m: Move<RecoveryPc>, a: AttemptId, th: StoreThread)
    requires ThreadAgrees(db, fs, a, th) && RecoveryMoveSafe(db, fs, m)
    ensures Undisturbed(db, fs, m.db, m.fs, a, th.staging)
  {
    hide RowsAndFiles, NoIntent, Linked, Grows, FilesGrow, PcAgrees, RecoveryAgrees;
  }

  lemma BeginStepSafe(w: World, p: Process, a: AttemptId, row: Attempt, response: string)
    requires Safe(w) && BeginStep(w, p, a, row, response).Some?
    ensures Safe(BeginStep(w, p, a, row, response).value)
    ensures Grows(w.db, BeginStep(w, p, a, row, response).value.db)
  {
    var db := RecordAttempt(w.db, p, a, row).value;
    assert db.evidence.attempts[a] == row;
    hide RowsAndFiles, RecoveryAgrees, RecordAttempt, Grows, FilesGrow, IntentFree, NoIntent;
    BeginSafe(w.db, w.fs, p, a, row);
    SameFiles(w.fs);
    forall b | b in w.stores && b !in {a} ensures Undisturbed(w.db, w.fs, db, w.fs, b, w.stores[b].staging) {
      SameUndisturbed(w.db, w.fs, db, b, w.stores[b].staging);
    }
    FilesFreeGrow(w.fs, w.fs, {});
    hide Undisturbed;
    OthersKept(w, db, w.fs, {a});
  }

  lemma SameUndisturbed(db: Db, fs: Files, next: Db, a: AttemptId, s: StagingId)
    requires Grows(db, next) && IntentFree(db, next, {})
    ensures Undisturbed(db, fs, next, fs, a, s)
  {
    hide NoIntent, Grows;
  }

  /** A calm step keeps the vault safe and only ever adds rows. */
  lemma StepSafe(w: World, e: Event)
    requires Safe(w) && Step(w, e).Some? && Calm(e)
    ensures Safe(Step(w, e).value) && Grows(w.db, Step(w, e).value.db)
  {
    hide RowsAndFiles, ThreadAgrees, RecoveryAgrees, Calm, CrashStep, BeginStep, StoreStep, RecoverStep;
    SameDb(w.db);
    match e
    case Claim(p) => ClaimSafe(w, Some(p));
    case Release(_) => ClaimSafe(w, None);
    case Crash(p) => CrashSafe(w, p);
    case Begin(p, a, row, response) => BeginStepSafe(w, p, a, row, response);
    case Store(a, act) => StoreStepSafe(w, a, act);
    case Stop(_) => {}
    case Recover(p, act) => RecoverStepSafe(w, p, act);
    case Abandon(_) => {}
  }

  predicate CalmRun(es: seq<Event>) {
    forall k :: 0 <= k < |es| ==> Calm(es[k])
  }

  lemma EmptySafe()
    ensures Safe(EMPTY_WORLD)
  {
  }

  lemma {:induction false} RunSafe(w: World, es: seq<Event>)
    requires Safe(w) && Run(w, es).Some? && CalmRun(es)
    ensures Safe(Run(w, es).value) && Grows(w.db, Run(w, es).value.db)
    decreases |es|
  {
    hide Safe, Step, Calm;
    if es == [] {
    } else {
      StepSafe(w, es[0]);
      RunSafe(Step(w, es[0]).value, es[1..]);
      GrowsOn(w.db, Step(w, es[0]).value.db, Run(w, es).value.db);
    }
  }

  lemma GrowsOn(a: Db, b: Db, c: Db)
    requires Grows(a, b) && Grows(b, c)
    ensures Grows(a, c)
  {
  }

  // ----- The guarantees, read off the invariant -----

  /** The content file named by a digest exists and holds exactly those bytes. */
  predicate ContentHolds(fs: Files, d: Bytes) {
    d in fs.content && fs.content[d] in fs.data && fs.data[fs.content[d]] == d
  }

  /**
    Over every run that is calm: each blob row has a content file with exactly its bytes, an attempt
    has succeeded exactly when it was observed, an observation has its blob, no intent is both
    committed and aborted, and a committed intent left the observation it was prepared with.
   */
  lemma VaultSafe(es: seq<Event>)
    requires Run(EMPTY_WORLD, es).Some? && CalmRun(es)
    ensures var w := Run(EMPTY_WORLD, es).value;
            var e := w.db.evidence;
            var n := w.db.installs;
            && (forall d :: d in e.blobs ==> ContentHolds(w.fs, d))
            && (forall a :: a in e.observations <==> a in e.outcomes && e.outcomes[a].kind.Succeeded?)
            && (forall a :: a in e.observations ==> e.observations[a].digest in e.blobs)
            && (forall i :: Marked(n, i, EvidenceCommitted) ==>
                  !Marked(n, i, Aborted) && i in n.intents
                  && Completed(e, n.intents[i].attempt) == Some(n.intents[i].observation))
  {
    EmptySafe();
    RunSafe(EMPTY_WORLD, es);
    var w := Run(EMPTY_WORLD, es).value;
    hide Run, CalmRun, StoresAgree, RecoveriesAgree;
    forall i | Marked(w.db.installs, i, EvidenceCommitted) ensures !Marked(w.db.installs, i, Aborted) {
      NeverBoth(w.db, i);
    }
  }

  /** Whatever happens later, an outcome never changes and a redelivery is answered the same way. */
  lemma OutcomesFinal(w: World, es: seq<Event>, a: AttemptId)
    requires Safe(w) && Run(w, es).Some? && CalmRun(es)
    ensures var later := Run(w, es).value.db.evidence;
            && (a in w.db.evidence.outcomes ==> a in later.outcomes && later.outcomes[a] == w.db.evidence.outcomes[a])
            && (Completed(w.db.evidence, a).Some? ==> Completed(later, a) == Completed(w.db.evidence, a))
  {
    RunSafe(w, es);
    hide Run, CalmRun, Safe;
  }
}
