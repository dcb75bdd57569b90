/**
  The artifact vault's database: its tables, and each transaction of the repository as a function
  that returns the new tables, or `None` where the transaction throws and rolls back.

  SHA-256 is taken to be injective, so a digest is represented by the bytes it is the digest of, and
  a size never needs a column of its own. Rows that no check compares are packed in strings.
 */
module VaultDatabase {
  import opened Base

  type AttemptId = nat
  type StagingId = nat
  type IntentId = nat
  type Process = nat
  type Bytes = seq<nat>

  datatype OutcomeKind = Succeeded | Failed | Abandoned | Expired

  datatype Outcome = Outcome(kind: OutcomeKind, reason: Option<string>, detail: Option<nat>)

  const SUCCESS := Outcome(Succeeded, None, None)
  const STAGE_EXPIRED := Outcome(Expired, Some("stage-expired"), None)
  const STAGE_MISSING := Outcome(Expired, Some("stage-missing"), None)
  const CONTENT_MISSING := Outcome(Expired, Some("install-content-missing"), None)

  /** `draft` stands for the provider, record, revision and request of an attempt. */
  datatype Attempt = Attempt(staging: StagingId, draft: string)

  datatype Observation = Observation(digest: Bytes, draft: string, response: string)

  datatype Provenance = Retrieval | RecoveredOrphan

  datatype Disposition = NewContent | PreexistingVerified

  datatype Intent = Intent(
    attempt: AttemptId, staging: StagingId, digest: Bytes, disposition: Disposition, observation: Observation)

  datatype Mark = ContentInstalled | EvidenceCommitted | StageCleaned | Aborted

  /** A reconciliation action that has been planned and must be applied before anything else. */
  datatype Plan =
    | QuarantineStage(staging: StagingId, bytes: Bytes, expires: Option<AttemptId>)
    | QuarantineContent(digest: Bytes, inode: StagingId)
    | ExpireAttempt(attempt: AttemptId)
    | AdoptOrphan(digest: Bytes)

  datatype Phase = Intents(after: int) | Staging | OpenAttempts | Content

  datatype Evidence = Evidence(
    attempts: map<AttemptId, Attempt>, outcomes: map<AttemptId, Outcome>,
    blobs: map<Bytes, Provenance>, observations: map<AttemptId, Observation>)

  datatype Installs = Installs(intents: map<IntentId, Intent>, marks: set<(IntentId, Mark)>)

  datatype Db = Db(
    fence: Option<Process>, phase: Phase, plan: Option<Plan>, evidence: Evidence, installs: Installs)

  const EMPTY_DB := Db(None, Intents(-1), None, Evidence(map[], map[], map[], map[]), Installs(map[], {}))

  // ----- Reading -----

  predicate Marked(n: Installs, i: IntentId, m: Mark) {
    (i, m) in n.marks
  }

  /** The rows `readPendingIntentPage` selects. */
  predicate Pending(n: Installs, i: IntentId) {
    i in n.intents && !Marked(n, i, StageCleaned) && !Marked(n, i, Aborted)
  }

  /** What a redelivered attempt is answered with. */
  function Completed(e: Evidence, a: AttemptId): Option<Observation> {
    if a in e.outcomes && e.outcomes[a].kind.Succeeded? && a in e.observations then Some(e.observations[a]) else None
  }

  predicate StagingKnown(e: Evidence, s: StagingId) {
    exists a :: a in e.attempts && e.attempts[a].staging == s
  }

  // ----- Evidence -----

  function InsertAttempt(e: Evidence, a: AttemptId, attempt: Attempt): Option<Evidence> {
    if a in e.attempts || StagingKnown(e, attempt.staging) then None
    else Some(e.(attempts := e.attempts[a := attempt]))
  }

  /** A row is inserted once: the attempt must be known and must have no outcome. */
  function InsertOutcome(e: Evidence, a: AttemptId, o: Outcome): Option<Evidence> {
    if a !in e.attempts || a in e.outcomes then None else Some(e.(outcomes := e.outcomes[a := o]))
  }

  /** Insert an outcome, or accept that the very same one is already there. */
  function SettleOutcome(e: Evidence, a: AttemptId, o: Outcome): Option<Evidence> {
    if a !in e.outcomes then InsertOutcome(e, a, o)
    else if e.outcomes[a] == o then Some(e)
    else None
  }

  function InsertSuccess(e: Evidence, a: AttemptId, v: Observation): Option<Evidence> {
    if a !in e.attempts || e.attempts[a].draft != v.draft then None
    else
      var blobs := if v.digest in e.blobs then e.blobs else e.blobs[v.digest := Retrieval];
      var settled := InsertOutcome(e, a, SUCCESS);
      if settled.None? || a in e.observations then None
      else Some(settled.value.(blobs := blobs, observations := e.observations[a := v]))
  }

  function Adopt(e: Evidence, digest: Bytes): Option<Evidence> {
    if digest !in e.blobs then Some(e.(blobs := e.blobs[digest := RecoveredOrphan]))
    else if e.blobs[digest] == RecoveredOrphan then Some(e)
    else None
  }

  // ----- Transactions -----

  function RecordAttempt(db: Db, p: Process, a: AttemptId, attempt: Attempt): Option<Db> {
    if db.fence != Some(p) then None
    else
      var e := InsertAttempt(db.evidence, a, attempt);
      if e.None? then None else Some(db.(evidence := e.value))
  }

  predicate IntentClash(n: Installs, intent: Intent) {
    exists j :: j in n.intents && (n.intents[j].attempt == intent.attempt || n.intents[j].staging == intent.staging)
  }

  /** The source does not ask here whether the attempt already has an outcome. */
  function PrepareIntent(db: Db, p: Process, i: IntentId, intent: Intent): Option<Db> {
    if db.fence != Some(p) || intent.attempt !in db.evidence.attempts then None
    else if intent.staging != db.evidence.attempts[intent.attempt].staging
            || intent.observation.digest != intent.digest then None
    else if i in db.installs.intents then (if db.installs.intents[i] == intent then Some(db) else None)
    else if IntentClash(db.installs, intent) then None
    else Some(db.(installs := db.installs.(intents := db.installs.intents[i := intent])))
  }

  function SetMark(db: Db, i: IntentId, m: Mark): Db {
    db.(installs := db.installs.(marks := db.installs.marks + {(i, m)}))
  }

  function MarkIntent(db: Db, p: Process, i: IntentId, m: Mark): Option<Db> {
    if db.fence != Some(p) || i !in db.installs.intents then None else Some(SetMark(db, i, m))
  }

  function CommitIntent(db: Db, p: Process, i: IntentId): Option<Db> {
    if db.fence != Some(p) || i !in db.installs.intents || Marked(db.installs, i, Aborted) then None
    else
      var intent := db.installs.intents[i];
      var completed := Completed(db.evidence, intent.attempt);
      if completed.Some? then
        (if completed.value == intent.observation then Some(SetMark(db, i, EvidenceCommitted)) else None)
      else
        var e := InsertSuccess(db.evidence, intent.attempt, intent.observation);
        if e.None? then None else Some(SetMark(db.(evidence := e.value), i, EvidenceCommitted))
  }

  function AbortIntent(db: Db, p: Process, i: IntentId, o: Outcome): Option<Db> {
    if db.fence != Some(p) || i !in db.installs.intents || Marked(db.installs, i, EvidenceCommitted) then None
    else
      var e := SettleOutcome(db.evidence, db.installs.intents[i].attempt, o);
      if e.None? then None else Some(SetMark(db.(evidence := e.value), i, Aborted))
  }

  function FinishAttempt(db: Db, p: Process, a: AttemptId, o: Outcome): Option<Db> {
    if db.fence != Some(p) || a !in db.evidence.attempts then None
    else
      var e := SettleOutcome(db.evidence, a, o);
      if e.None? then None else Some(db.(evidence := e.value))
  }

  function AdvancePhase(db: Db, p: Process, next: Phase): Option<Db> {
    if db.fence != Some(p) then None else Some(db.(phase := next))
  }

  function PlanAction(db: Db, p: Process, plan: Plan): Option<Db> {
    if db.fence != Some(p) || (db.plan.Some? && db.plan.value != plan) then None else Some(db.(plan := Some(plan)))
  }

  /** The attempt a plan gives an outcome to. */
  function Expires(plan: Plan): Option<AttemptId> {
    match plan
    case QuarantineStage(_, _, expires) => expires
    case ExpireAttempt(a) => Some(a)
    case _ => None
  }

  function ApplyEvidence(e: Evidence, plan: Plan): Option<Evidence> {
    match plan
    case QuarantineStage(_, _, expires) => if expires.Some? then SettleOutcome(e, expires.value, STAGE_EXPIRED) else Some(e)
    case QuarantineContent(_, _) => Some(e)
    case ExpireAttempt(a) => SettleOutcome(e, a, STAGE_MISSING)
    case AdoptOrphan(digest) => Adopt(e, digest)
  }

  function ApplyPlan(db: Db, p: Process, plan: Plan): Option<Db> {
    if db.fence != Some(p) || db.plan != Some(plan) then None
    else
      var e := ApplyEvidence(db.evidence, plan);
      if e.None? then None else Some(db.(evidence := e.value, plan := None))
  }

  // ----- What the tables always satisfy -----

  /** An attempt has succeeded exactly when it has an observation, whose blob is then recorded. */
  ghost predicate EvidenceAgrees(e: Evidence) {
    && (forall a :: a in e.outcomes ==> a in e.attempts)
    && (forall a :: a in e.observations <==> a in e.outcomes && e.outcomes[a].kind.Succeeded?)
    && (forall a :: a in e.observations ==> e.observations[a].digest in e.blobs && e.outcomes[a] == SUCCESS)
  }

  ghost predicate StagingUnique(e: Evidence) {
    forall a, b {:trigger e.attempts[a], e.attempts[b]} ::
      a in e.attempts && b in e.attempts && e.attempts[a].staging == e.attempts[b].staging ==> a == b
  }

  ghost predicate IntentsMatch(e: Evidence, n: Installs) {
    forall i :: i in n.intents ==>
      && n.intents[i].attempt in e.attempts
      && e.attempts[n.intents[i].attempt].staging == n.intents[i].staging
      && n.intents[i].observation.digest == n.intents[i].digest
      && n.intents[i].observation.draft == e.attempts[n.intents[i].attempt].draft
  }

  ghost predicate OneIntentEach(n: Installs) {
    forall i, j {:trigger n.intents[i], n.intents[j]} ::
      i in n.intents && j in n.intents && n.intents[i].attempt == n.intents[j].attempt ==> i == j
  }

  /** A committed intent has its own observation on record. */
  ghost predicate CommitsBacked(e: Evidence, n: Installs) {
    forall i :: Marked(n, i, EvidenceCommitted) ==>
      && i in n.intents
      && n.intents[i].attempt in e.observations
      && e.observations[n.intents[i].attempt] == n.intents[i].observation
  }

  /** An intent whose attempt has been observed is committed. */
  ghost predicate ObservedCommitted(e: Evidence, n: Installs) {
    forall i :: i in n.intents && n.intents[i].attempt in e.observations ==> Marked(n, i, EvidenceCommitted)
  }

  /** An aborted intent has an outcome that is not success. */
  ghost predicate AbortsBacked(e: Evidence, n: Installs) {
    forall i :: Marked(n, i, Aborted) ==>
      && i in n.intents
      && n.intents[i].attempt in e.outcomes
      && !e.outcomes[n.intents[i].attempt].kind.Succeeded?
  }

  ghost predicate CleansCommitted(n: Installs) {
    forall i :: Marked(n, i, StageCleaned) ==> Marked(n, i, EvidenceCommitted)
  }

  ghost predicate InstallsAgree(e: Evidence, n: Installs) {
    && IntentsMatch(e, n)
    && OneIntentEach(n)
    && CommitsBacked(e, n)
    && ObservedCommitted(e, n)
    && AbortsBacked(e, n)
    && CleansCommitted(n)
  }

  ghost predicate DbAgrees(db: Db) {
    && EvidenceAgrees(db.evidence)
    && StagingUnique(db.evidence)
    && InstallsAgree(db.evidence, db.installs)
  }

  /** Rows are only ever added: nothing already recorded changes. */
  predicate EvidenceGrows(e: Evidence, f: Evidence) {
    && (forall a :: a in e.attempts ==> a in f.attempts && f.attempts[a] == e.attempts[a])
    && (forall a :: a in e.outcomes ==> a in f.outcomes && f.outcomes[a] == e.outcomes[a])
    && (forall a :: a in e.observations ==> a in f.observations && f.observations[a] == e.observations[a])
    && (forall d :: d in e.blobs ==> d in f.blobs && f.blobs[d] == e.blobs[d])
  }

  predicate InstallsGrow(n: Installs, m: Installs) {
    && (forall i :: i in n.intents ==> i in m.intents && m.intents[i] == n.intents[i])
    && n.marks <= m.marks
  }

  predicate Grows(db: Db, next: Db) {
    EvidenceGrows(db.evidence, next.evidence) && InstallsGrow(db.installs, next.installs)
  }

  /** No intent is both aborted and committed. */
  lemma NeverBoth(db: Db, i: IntentId)
    requires DbAgrees(db)
    ensures !(Marked(db.installs, i, EvidenceCommitted) && Marked(db.installs, i, Aborted))
  {
  }

  // ----- Each transaction keeps the tables in agreement -----

  lemma RecordAttemptKept(db: Db, p: Process, a: AttemptId, attempt: Attempt)
    requires DbAgrees(db) && RecordAttempt(db, p, a, attempt).Some?
    ensures var next := RecordAttempt(db, p, a, attempt).value; DbAgrees(next) && Grows(db, next)
  {
    var next := RecordAttempt(db, p, a, attempt).value;
    assert IntentsMatch(next.evidence, next.installs);
  }

  lemma PrepareIntentKept(db: Db, p: Process, i: IntentId, intent: Intent)
    requires DbAgrees(db) && PrepareIntent(db, p, i, intent).Some?
    requires intent.attempt in db.evidence.attempts ==> db.evidence.attempts[intent.attempt].draft == intent.observation.draft
    requires i !in db.installs.intents ==> intent.attempt !in db.evidence.observations
    ensures var next := PrepareIntent(db, p, i, intent).value; DbAgrees(next) && Grows(db, next)
  {
    hide EvidenceAgrees, StagingUnique, InstallsAgree, EvidenceGrows, IntentClash;
    var next := PrepareIntent(db, p, i, intent).value;
    if i !in db.installs.intents {
      IntentInserted(db.evidence, db.installs, i, intent);
    }
    EvidenceSame(db.evidence);
  }

  lemma EvidenceSame(e: Evidence)
    ensures EvidenceGrows(e, e)
  {
  }

  lemma IntentInserted(e: Evidence, n: Installs, i: IntentId, intent: Intent)
    requires InstallsAgree(e, n) && i !in n.intents && !IntentClash(n, intent)
    requires intent.attempt in e.attempts && e.attempts[intent.attempt].staging == intent.staging
    requires intent.observation.digest == intent.digest && intent.observation.draft == e.attempts[intent.attempt].draft
    requires intent.attempt !in e.observations
    ensures InstallsAgree(e, n.(intents := n.intents[i := intent]))
  {
    var m := n.(intents := n.intents[i := intent]);
    forall k, j {:trigger m.intents[k], m.intents[j]}
      | k in m.intents && j in m.intents && m.intents[k].attempt == m.intents[j].attempt ensures k == j {
      if k != i && j != i {
        assert n.intents[k].attempt == n.intents[j].attempt;
      }
    }
  }

  lemma MarkAdded(e: Evidence, n: Installs, i: IntentId, m: Mark)
    requires InstallsAgree(e, n) && i in n.intents && !m.EvidenceCommitted?
    requires m.StageCleaned? ==> Marked(n, i, EvidenceCommitted)
    requires m.Aborted? ==> n.intents[i].attempt in e.outcomes && !e.outcomes[n.intents[i].attempt].kind.Succeeded?
    ensures InstallsAgree(e, n.(marks := n.marks + {(i, m)}))
    ensures InstallsGrow(n, n.(marks := n.marks + {(i, m)}))
  {
    var k := n.(marks := n.marks + {(i, m)});
    assert forall j, x :: Marked(k, j, x) <==> Marked(n, j, x) || (j == i && x == m);
  }

  lemma MarkInstalledKept(db: Db, p: Process, i: IntentId)
    requires DbAgrees(db) && MarkIntent(db, p, i, ContentInstalled).Some?
    ensures var next := MarkIntent(db, p, i, ContentInstalled).value; DbAgrees(next) && Grows(db, next)
  {
    hide EvidenceAgrees, StagingUnique, InstallsAgree, EvidenceGrows, InstallsGrow;
    EvidenceSame(db.evidence);
    MarkAdded(db.evidence, db.installs, i, ContentInstalled);
  }

  lemma MarkCleanedKept(db: Db, p: Process, i: IntentId)
    requires DbAgrees(db) && MarkIntent(db, p, i, StageCleaned).Some?
    requires Marked(db.installs, i, EvidenceCommitted)
    ensures var next := MarkIntent(db, p, i, StageCleaned).value; DbAgrees(next) && Grows(db, next)
  {
    hide EvidenceAgrees, StagingUnique, InstallsAgree, EvidenceGrows, InstallsGrow;
    EvidenceSame(db.evidence);
    MarkAdded(db.evidence, db.installs, i, StageCleaned);
  }

  lemma SuccessInserted(e: Evidence, a: AttemptId, v: Observation)
    requires EvidenceAgrees(e) && InsertSuccess(e, a, v).Some?
    ensures var f := InsertSuccess(e, a, v).value;
            && EvidenceAgrees(f) && EvidenceGrows(e, f) && f.attempts == e.attempts
            && a !in e.observations && f.observations == e.observations[a := v]
            && a !in e.outcomes && f.outcomes == e.outcomes[a := SUCCESS]
            && (forall d :: d in f.blobs ==> d in e.blobs || d == v.digest)
  {
  }

  lemma CommitMarked(e: Evidence, f: Evidence, n: Installs, i: IntentId)
    requires InstallsAgree(e, n) && i in n.intents && !Marked(n, i, Aborted)
    requires f.attempts == e.attempts
    requires var a := n.intents[i].attempt;
             || (f == e && a in e.observations && e.observations[a] == n.intents[i].observation)
             || (&& a !in e.outcomes && f.outcomes == e.outcomes[a := SUCCESS]
                 && a !in e.observations && f.observations == e.observations[a := n.intents[i].observation])
    ensures InstallsAgree(f, n.(marks := n.marks + {(i, EvidenceCommitted)}))
  {
    var m := n.(marks := n.marks + {(i, EvidenceCommitted)});
    var a := n.intents[i].attempt;
    forall j | j in n.intents && j != i ensures n.intents[j].attempt != a {
      assert n.intents[i].attempt == a && n.intents[j] == n.intents[j];
    }
    assert AbortsBacked(f, m) by {
      forall j | Marked(m, j, Aborted)
        ensures j in n.intents && n.intents[j].attempt in f.outcomes && !f.outcomes[n.intents[j].attempt].kind.Succeeded? {
        assert Marked(n, j, Aborted);
      }
    }
    assert CommitsBacked(f, m) by {
      forall j | Marked(m, j, EvidenceCommitted)
        ensures j in n.intents && n.intents[j].attempt in f.observations
                && f.observations[n.intents[j].attempt] == n.intents[j].observation {
        assert j == i || Marked(n, j, EvidenceCommitted);
      }
    }
    assert ObservedCommitted(f, m) by {
      forall j | j in n.intents && n.intents[j].attempt in f.observations ensures Marked(m, j, EvidenceCommitted) {
        if j != i { assert Marked(n, j, EvidenceCommitted); }
      }
    }
    assert CleansCommitted(m) by {
      forall j | Marked(m, j, StageCleaned) ensures Marked(m, j, EvidenceCommitted) {
        assert Marked(n, j, StageCleaned);
      }
    }
  }

  lemma CommitIntentKept(db: Db, p: Process, i: IntentId)
    requires DbAgrees(db) && CommitIntent(db, p, i).Some?
    ensures var next := CommitIntent(db, p, i).value;
            && DbAgrees(next) && Grows(db, next)
            && Marked(next.installs, i, EvidenceCommitted)
            && next.evidence.attempts == db.evidence.attempts && next.installs.intents == db.installs.intents
            && (forall d :: d in next.evidence.blobs ==> d in db.evidence.blobs || d == db.installs.intents[i].digest)
  {
    hide EvidenceAgrees, InstallsAgree, EvidenceGrows, InsertSuccess;
    var next := CommitIntent(db, p, i).value;
    var intent := db.installs.intents[i];
    if Completed(db.evidence, intent.attempt).None? {
      SuccessInserted(db.evidence, intent.attempt, intent.observation);
      IntentDigest(db, i);
    } else {
      EvidenceSame(db.evidence);
    }
    CommitMarked(db.evidence, next.evidence, db.installs, i);
  }

  lemma IntentDigest(db: Db, i: IntentId)
    requires DbAgrees(db) && i in db.installs.intents
    ensures db.installs.intents[i].observation.digest == db.installs.intents[i].digest
  {
  }

  lemma SettledEvidence(e: Evidence, a: AttemptId, o: Outcome)
    requires EvidenceAgrees(e) && SettleOutcome(e, a, o).Some? && !o.kind.Succeeded?
    ensures var f := SettleOutcome(e, a, o).value;
            && EvidenceAgrees(f) && EvidenceGrows(e, f)
            && f == e.(outcomes := f.outcomes) && a in f.outcomes && !f.outcomes[a].kind.Succeeded?
  {
  }

  lemma SettledInstalls(e: Evidence, f: Evidence, n: Installs)
    requires InstallsAgree(e, n) && EvidenceGrows(e, f) && f == e.(outcomes := f.outcomes)
    ensures InstallsAgree(f, n)
  {
    hide OneIntentEach, CleansCommitted;
  }

  lemma OutcomeSettled(e: Evidence, n: Installs, a: AttemptId, o: Outcome)
    requires EvidenceAgrees(e) && StagingUnique(e) && InstallsAgree(e, n)
    requires SettleOutcome(e, a, o).Some? && !o.kind.Succeeded?
    ensures var f := SettleOutcome(e, a, o).value;
            && EvidenceAgrees(f) && StagingUnique(f) && InstallsAgree(f, n) && EvidenceGrows(e, f)
            && f == e.(outcomes := f.outcomes) && a in f.outcomes && !f.outcomes[a].kind.Succeeded?
  {
    hide EvidenceAgrees, InstallsAgree, EvidenceGrows, SettleOutcome;
    SettledEvidence(e, a, o);
    SettledInstalls(e, SettleOutcome(e, a, o).value, n);
  }

  lemma AbortIntentKept(db: Db, p: Process, i: IntentId, o: Outcome)
    requires DbAgrees(db) && AbortIntent(db, p, i, o).Some? && !o.kind.Succeeded?
    ensures var next := AbortIntent(db, p, i, o).value;
            && DbAgrees(next) && Grows(db, next) && Marked(next.installs, i, Aborted)
            && next.evidence == db.evidence.(outcomes := next.evidence.outcomes)
            && next.installs.intents == db.installs.intents
  {
    hide EvidenceAgrees, StagingUnique, InstallsAgree, EvidenceGrows, InstallsGrow, SettleOutcome;
    OutcomeSettled(db.evidence, db.installs, db.installs.intents[i].attempt, o);
    MarkAdded(SettleOutcome(db.evidence, db.installs.intents[i].attempt, o).value, db.installs, i, Aborted);
  }

  lemma SettleKept(db: Db, a: AttemptId, o: Outcome)
    requires DbAgrees(db) && SettleOutcome(db.evidence, a, o).Some? && !o.kind.Succeeded?
    ensures var next := db.(evidence := SettleOutcome(db.evidence, a, o).value); DbAgrees(next) && Grows(db, next)
  {
    hide EvidenceAgrees, StagingUnique, InstallsAgree, EvidenceGrows, SettleOutcome;
    OutcomeSettled(db.evidence, db.installs, a, o);
  }

  lemma Adopted(e: Evidence, digest: Bytes)
    requires EvidenceAgrees(e) && Adopt(e, digest).Some?
    ensures var f := Adopt(e, digest).value;
            EvidenceAgrees(f) && EvidenceGrows(e, f) && f == e.(blobs := f.blobs)
            && (forall d :: d in f.blobs ==> d in e.blobs || d == digest)
  {
  }

  lemma ApplyPlanKept(db: Db, p: Process, plan: Plan)
    requires DbAgrees(db) && ApplyPlan(db, p, plan).Some?
    ensures var next := ApplyPlan(db, p, plan).value;
            && DbAgrees(next) && Grows(db, next) && next.installs == db.installs
            && (forall d :: d in next.evidence.blobs ==> d in db.evidence.blobs || plan == AdoptOrphan(d))
  {
    hide EvidenceAgrees, EvidenceGrows, SettleOutcome, Adopt;
    EvidenceSame(db.evidence);
    match plan
    case QuarantineStage(_, _, expires) =>
      if expires.Some? { OutcomeSettled(db.evidence, db.installs, expires.value, STAGE_EXPIRED); }
    case ExpireAttempt(a) => OutcomeSettled(db.evidence, db.installs, a, STAGE_MISSING);
    case AdoptOrphan(d) => Adopted(db.evidence, d);
    case QuarantineContent(_, _) => {}
  }
}
