/**
  The vault as a protocol over its tables and a small file map. Every `store` call and every
  process's reconciliation is a thread whose steps are the awaits and transactions of the source;
  threads of all processes interleave, and a crash removes the threads of a process and nothing else.

  A staging file is created once under a fresh name, so its name also names its inode. A content
  file is a hard link to the inode of some staging file.
 */
module VaultProtocol {
  import opened Base
  import opened VaultDatabase

  // ----- Files -----

  datatype Files = Files(
    data: map<StagingId, Bytes>, stage: set<StagingId>, content: map<Bytes, StagingId>, quarantine: set<StagingId>)

  const NO_FILES := Files(map[], {}, map[], {})

  predicate Linked(fs: Files, s: StagingId) {
    s in fs.content.Values
  }

  /** The link count of an inode. A content name is the digest of its bytes, so one inode has at most one. */
  function LinkCount(fs: Files, s: StagingId): nat {
    (if s in fs.stage then 1 else 0) + (if Linked(fs, s) then 1 else 0) + (if s in fs.quarantine then 1 else 0)
  }

  datatype Hash = Missing | Unsafe | Digest(value: Bytes)

  /** `hashTrustedFile`: the digest of a file, refused when the inode has too many links. */
  function HashFile(fs: Files, inode: Option<StagingId>, maxLinks: nat): Hash {
    if inode.None? then Missing
    else if inode.value !in fs.data || LinkCount(fs, inode.value) > maxLinks then Unsafe
    else Digest(fs.data[inode.value])
  }

  function StageFile(fs: Files, s: StagingId): Option<StagingId> {
    if s in fs.stage then Some(s) else None
  }

  function QuarantineFile(fs: Files, s: StagingId): Option<StagingId> {
    if s in fs.quarantine then Some(s) else None
  }

  function ContentFile(fs: Files, d: Bytes): Option<StagingId> {
    if d in fs.content then Some(fs.content[d]) else None
  }

  function LinkContent(fs: Files, s: StagingId, d: Bytes): Files {
    fs.(content := fs.content[d := s])
  }

  function RemoveStageFile(fs: Files, s: StagingId): Files {
    fs.(stage := fs.stage - {s})
  }

  // ----- Threads -----

  datatype StorePc =
    | Recorded
    | Writing
    | Closed
    | Checked(disposition: Disposition)
    | Prepared(id: IntentId, disposition: Disposition)
    | Placed(id: IntentId)
    | Verified(id: IntentId)
    | Installed(id: IntentId)
    | Committed(id: IntentId)
    | Removed(id: IntentId)
    | Failing(outcome: Outcome)
    | Aborting(id: IntentId, outcome: Outcome)

  datatype StoreThread = StoreThread(process: Process, staging: StagingId, draft: string, response: string, pc: StorePc)

  datatype StoreAct =
    | CreateStage
    | WriteChunk(chunk: Bytes)
    | CloseStage
    | CheckExisting
    | Prepare(id: IntentId)
    | Place
    | VerifyInstalled
    | MarkInstalled
    | Commit
    | RemoveStage
    | MarkCleaned
    | Fail(outcome: Outcome)
    | RemoveFailed
    | Finish
    | AbortInstall

  datatype RecoveryPc =
    | Idle
    | Loaded(id: IntentId)
    | ContentSeen(id: IntentId, content: bool)
    | BothSeen(id: IntentId, content: bool, stage: bool)
    | InPlace(id: IntentId)
    | MarkedInstalled(id: IntentId)
    | EvidenceIn(id: IntentId)
    | StageGone(id: IntentId)
    | Settled(id: IntentId)
    | ContentRefused(digest: Bytes)
    | Planning(plan: Plan)
    | Holding(plan: Plan)
    | QuarantineLinked(plan: Plan)
    | SourceGone(plan: Plan)
    | Ready(plan: Plan)

  datatype RecoveryAct =
    | Load(id: IntentId)
    | HashContent
    | HashStage
    | AbortMissing
    | LinkStage
    | RecoverInstalled
    | RecoverCommit
    | RecoverRemove
    | RecoverCleaned
    | NextIntent
    | NextPhase
    | InspectStage(staging: StagingId, owner: Option<AttemptId>)
    | InspectAttempt(attempt: AttemptId)
    | InspectContent(digest: Bytes)
    | HashAgain
    | Persist
    | Resume
    | QuarantineLink
    | QuarantineRemove
    | HashTarget
    | Rehash
    | Apply

  datatype Event =
    | Claim(process: Process)
    | Release(process: Process)
    | Crash(process: Process)
    | Begin(process: Process, attempt: AttemptId, row: Attempt, response: string)
    | Store(attempt: AttemptId, act: StoreAct)
    | Stop(attempt: AttemptId)
    | Recover(process: Process, recovery: RecoveryAct)
    | Abandon(process: Process)

  datatype World = World(
    db: Db, fs: Files, stores: map<AttemptId, StoreThread>, recoveries: map<Process, RecoveryPc>)

  const EMPTY_WORLD := World(EMPTY_DB, NO_FILES, map[], map[])

  /** What one step does: the new tables, the new files, and where the thread goes (or that it ends). */
  datatype Move<+P> = Move(db: Db, fs: Files, pc: Option<P>)

  function Moved<P>(db: Option<Db>, fs: Files, pc: Option<P>): Option<Move<P>> {
    if db.None? then None else Some(Move(db.value, fs, pc))
  }

  // ----- The steps of `store` -----

  function ThreadIntent(fs: Files, a: AttemptId, th: StoreThread, disposition: Disposition): Intent
    requires th.staging in fs.data
  {
    var d := fs.data[th.staging];
    Intent(a, th.staging, d, disposition, Observation(d, th.draft, th.response))
  }

  function CheckMove(db: Db, fs: Files, th: StoreThread): Option<Move<StorePc>> {
    if th.staging !in fs.data then None
    else
      var d := fs.data[th.staging];
      match HashFile(fs, ContentFile(fs, d), 1)
      case Missing => Some(Move(db, fs, Some(Checked(NewContent))))
      case Unsafe => None
      case Digest(b) => if b == d then Some(Move(db, fs, Some(Checked(PreexistingVerified)))) else None
  }

  /** `link`, where an existing destination is accepted if it verifies, and a missing source is not. */
  function PlaceMove(db: Db, fs: Files, th: StoreThread, i: IntentId, disposition: Disposition): Option<Move<StorePc>> {
    if th.staging !in fs.data then None
    else
      var d := fs.data[th.staging];
      if disposition.PreexistingVerified? then Some(Move(db, fs, Some(Placed(i))))
      else if th.staging !in fs.stage then None
      else if d !in fs.content then Some(Move(db, LinkContent(fs, th.staging, d), Some(Placed(i))))
      else if HashFile(fs, ContentFile(fs, d), 2) == Digest(d) then Some(Move(db, fs, Some(Placed(i))))
      else None
  }

  function StoreMove(db: Db, fs: Files, a: AttemptId, th: StoreThread, act: StoreAct): Option<Move<StorePc>> {
    match act
    case CreateStage =>
      if !th.pc.Recorded? || th.staging in fs.data then None
      else Some(Move(db, fs.(data := fs.data[th.staging := []], stage := fs.stage + {th.staging}), Some(Writing)))
    case WriteChunk(chunk) =>
      if !th.pc.Writing? || th.staging !in fs.data then None
      else Some(Move(db, fs.(data := fs.data[th.staging := fs.data[th.staging] + chunk]), Some(Writing)))
    case CloseStage => if th.pc.Writing? then Some(Move(db, fs, Some(Closed))) else None
    case CheckExisting => if th.pc.Closed? then CheckMove(db, fs, th) else None
    case Prepare(i) =>
      if !th.pc.Checked? || th.staging !in fs.data then None
      else Moved(PrepareIntent(db, th.process, i, ThreadIntent(fs, a, th, th.pc.disposition)), fs, Some(Prepared(i, th.pc.disposition)))
    case Place => if th.pc.Prepared? then PlaceMove(db, fs, th, th.pc.id, th.pc.disposition) else None
    case VerifyInstalled =>
      if !th.pc.Placed? || th.staging !in fs.data then None
      else
        var d := fs.data[th.staging];
        if HashFile(fs, ContentFile(fs, d), 2) == Digest(d) then Some(Move(db, fs, Some(Verified(th.pc.id)))) else None
    case MarkInstalled =>
      if th.pc.Verified? then Moved(MarkIntent(db, th.process, th.pc.id, ContentInstalled), fs, Some(Installed(th.pc.id))) else None
    case Commit => if th.pc.Installed? then Moved(CommitIntent(db, th.process, th.pc.id), fs, Some(Committed(th.pc.id))) else None
    case RemoveStage => if th.pc.Committed? then Some(Move(db, RemoveStageFile(fs, th.staging), Some(Removed(th.pc.id)))) else None
    case MarkCleaned => if th.pc.Removed? then Moved(MarkIntent(db, th.process, th.pc.id, StageCleaned), fs, None) else None
    case Fail(o) =>
      if (!o.kind.Failed? && !o.kind.Abandoned?) || th.pc.Failing? || th.pc.Aborting? then None
      else if th.pc.Recorded? || th.pc.Writing? || th.pc.Closed? || th.pc.Checked? then Some(Move(db, fs, Some(Failing(o))))
      else Some(Move(db, fs, Some(Aborting(th.pc.id, o))))
    case RemoveFailed => if th.pc.Failing? then Some(Move(db, RemoveStageFile(fs, th.staging), Some(th.pc))) else None
    case Finish => if th.pc.Failing? then Moved(FinishAttempt(db, th.process, a, th.pc.outcome), fs, None) else None
    case AbortInstall => if th.pc.Aborting? then Moved(AbortIntent(db, th.process, th.pc.id, th.pc.outcome), fs, None) else None
  }

  // ----- The steps of `reconcile` -----

  /** `i` is the next row of the pending page. */
  predicate NextPending(n: Installs, after: int, i: IntentId) {
    after < i && Pending(n, i) && forall j :: j in n.intents && after < j < i ==> !Pending(n, j)
  }

  predicate PassDone(n: Installs, after: int) {
    forall j :: j in n.intents && after < j ==> !Pending(n, j)
  }

  function IntentMove(db: Db, fs: Files, p: Process, pc: RecoveryPc, act: RecoveryAct): Option<Move<RecoveryPc>> {
    match act
    case Load(i) =>
      if pc.Idle? && db.plan.None? && db.phase.Intents? && NextPending(db.installs, db.phase.after, i)
      then Some(Move(db, fs, Some(Loaded(i)))) else None
    case HashContent =>
      if !pc.Loaded? || pc.id !in db.installs.intents then None
      else
        var d := db.installs.intents[pc.id].digest;
        var hash := HashFile(fs, ContentFile(fs, d), 2);
        if hash.Unsafe? then None else Some(Move(db, fs, Some(ContentSeen(pc.id, hash == Digest(d)))))
    case HashStage =>
      if !pc.ContentSeen? || pc.id !in db.installs.intents then None
      else
        var intent := db.installs.intents[pc.id];
        var hash := HashFile(fs, StageFile(fs, intent.staging), 2);
        if hash.Unsafe? then None else Some(Move(db, fs, Some(BothSeen(pc.id, pc.content, hash == Digest(intent.digest)))))
    case AbortMissing =>
      if !pc.BothSeen? || pc.content || pc.stage then None
      else Moved(AbortIntent(db, p, pc.id, CONTENT_MISSING), fs, Some(Settled(pc.id)))
    case LinkStage =>
      if !pc.BothSeen? || (!pc.content && !pc.stage) || pc.id !in db.installs.intents then None
      else if pc.content then Some(Move(db, fs, Some(InPlace(pc.id))))
      else
        var intent := db.installs.intents[pc.id];
        if intent.staging !in fs.stage || intent.digest in fs.content then None
        else Some(Move(db, LinkContent(fs, intent.staging, intent.digest), Some(InPlace(pc.id))))
    case RecoverInstalled =>
      if pc.InPlace? then Moved(MarkIntent(db, p, pc.id, ContentInstalled), fs, Some(MarkedInstalled(pc.id))) else None
    case RecoverCommit => if pc.MarkedInstalled? then Moved(CommitIntent(db, p, pc.id), fs, Some(EvidenceIn(pc.id))) else None
    case RecoverRemove =>
      if !pc.EvidenceIn? || pc.id !in db.installs.intents then None
      else Some(Move(db, RemoveStageFile(fs, db.installs.intents[pc.id].staging), Some(StageGone(pc.id))))
    case RecoverCleaned => if pc.StageGone? then Moved(MarkIntent(db, p, pc.id, StageCleaned), fs, Some(Settled(pc.id))) else None
    case NextIntent => if pc.Settled? then Moved(AdvancePhase(db, p, Intents(pc.id)), fs, Some(Idle)) else None
    case _ => None
  }

  /** From one phase to the next; the pass over intents ends when no pending row is left after its key. */
  function NextPhaseDb(db: Db, p: Process): Option<Db> {
    match db.phase
    case Intents(after) => if PassDone(db.installs, after) then AdvancePhase(db, p, Staging) else None
    case Staging => AdvancePhase(db, p, OpenAttempts)
    case OpenAttempts => AdvancePhase(db, p, Content)
    case Content => AdvancePhase(db, p, Intents(-1))
  }

  /** Plan for a staging file: one nobody recorded, one whose attempt has ended, or one that has expired. */
  function StagePlan(e: Evidence, s: StagingId, bytes: Bytes, owner: Option<AttemptId>): Option<Plan> {
    if owner.None? then (if StagingKnown(e, s) then None else Some(QuarantineStage(s, bytes, None)))
    else if owner.value !in e.attempts || e.attempts[owner.value].staging != s then None
    else Some(QuarantineStage(s, bytes, if owner.value in e.outcomes then None else owner))
  }

  function InspectMove(db: Db, fs: Files, act: RecoveryAct): Option<Move<RecoveryPc>> {
    match act
    case InspectStage(s, owner) =>
      var hash := HashFile(fs, StageFile(fs, s), 1);
      if !db.phase.Staging? || !hash.Digest? then None
      else
        var plan := StagePlan(db.evidence, s, hash.value, owner);
        if plan.None? then None else Some(Move(db, fs, Some(Planning(plan.value))))
    case InspectAttempt(a) =>
      if db.phase.OpenAttempts? && a in db.evidence.attempts && a !in db.evidence.outcomes
         && db.evidence.attempts[a].staging !in fs.stage
      then Some(Move(db, fs, Some(Planning(ExpireAttempt(a))))) else None
    case InspectContent(d) =>
      if !db.phase.Content? || d !in fs.content then None
      else if HashFile(fs, ContentFile(fs, d), 1) != Digest(d) then Some(Move(db, fs, Some(ContentRefused(d))))
      else if d in db.evidence.blobs then Some(Move(db, fs, Some(Idle)))
      else Some(Move(db, fs, Some(Planning(AdoptOrphan(d)))))
    case _ => None
  }

  /**
    `#replayQuarantine` and its like: a file is only moved if it still is what was planned, and the
    moved file is hashed, which refuses it if its inode has a further name.
   */
  function PlanMove(db: Db, fs: Files, p: Process, plan: Plan, act: RecoveryAct, pc: RecoveryPc): Option<Move<RecoveryPc>> {
    match act
    case QuarantineLink =>
      if !pc.Holding? then None
      else if plan.QuarantineStage? then
        var s := plan.staging;
        if (s !in fs.stage && s !in fs.quarantine) || s !in fs.data || fs.data[s] != plan.bytes then None
        else Some(Move(db, fs.(quarantine := fs.quarantine + {s}), Some(QuarantineLinked(plan))))
      else if plan.QuarantineContent? then
        var s := plan.inode;
        if ContentFile(fs, plan.digest) != Some(s) && s !in fs.quarantine then None
        else Some(Move(db, fs.(quarantine := fs.quarantine + {s}), Some(QuarantineLinked(plan))))
      else None
    case QuarantineRemove =>
      if !pc.QuarantineLinked? then None
      else if plan.QuarantineStage? then Some(Move(db, RemoveStageFile(fs, plan.staging), Some(SourceGone(plan))))
      else if plan.QuarantineContent? then Some(Move(db, fs.(content := fs.content - {plan.digest}), Some(SourceGone(plan))))
      else None
    case HashTarget =>
      if !pc.SourceGone? then None
      else if plan.QuarantineStage? && HashFile(fs, QuarantineFile(fs, plan.staging), 1) == Digest(plan.bytes) then Some(Move(db, fs, Some(Ready(plan))))
      else if plan.QuarantineContent? && HashFile(fs, QuarantineFile(fs, plan.inode), 1).Digest? then Some(Move(db, fs, Some(Ready(plan))))
      else None
    case Rehash =>
      if !pc.Holding? then None
      else if plan.ExpireAttempt? then Some(Move(db, fs, Some(Ready(plan))))
      else if plan.AdoptOrphan? && HashFile(fs, ContentFile(fs, plan.digest), 1) == Digest(plan.digest) then Some(Move(db, fs, Some(Ready(plan))))
      else None
    case Apply => if pc.Ready? then Moved(ApplyPlan(db, p, plan), fs, Some(Idle)) else None
    case _ => None
  }

  function RestMove(db: Db, fs: Files, p: Process, act: RecoveryAct): Option<Move<RecoveryPc>> {
    if act.NextPhase? then (if db.plan.Some? then None else Moved(NextPhaseDb(db, p), fs, Some(Idle)))
    else if act.Resume? then (if db.plan.None? then None else Some(Move(db, fs, Some(Holding(db.plan.value)))))
    else if act.InspectStage? || act.InspectAttempt? || act.InspectContent? then (if db.plan.Some? then None else InspectMove(db, fs, act))
    else IntentMove(db, fs, p, Idle, act)
  }

  function RecoveryMove(db: Db, fs: Files, p: Process, pc: RecoveryPc, act: RecoveryAct): Option<Move<RecoveryPc>> {
    match pc
    case Idle => RestMove(db, fs, p, act)
    case Holding(plan) => PlanMove(db, fs, p, plan, act, pc)
    case QuarantineLinked(plan) => PlanMove(db, fs, p, plan, act, pc)
    case SourceGone(plan) => PlanMove(db, fs, p, plan, act, pc)
    case Ready(plan) => PlanMove(db, fs, p, plan, act, pc)
    case Planning(plan) => if act.Persist? then Moved(PlanAction(db, p, plan), fs, Some(Holding(plan))) else None
    case ContentRefused(d) =>
      if act.HashAgain? && d in fs.content && HashFile(fs, ContentFile(fs, d), 1).Digest?
      then Some(Move(db, fs, Some(Planning(QuarantineContent(d, fs.content[d]))))) else None
    case _ => IntentMove(db, fs, p, pc, act)
  }

  // ----- The whole machine -----

  function Alive(w: World, p: Process): RecoveryPc {
    if p in w.recoveries then w.recoveries[p] else Idle
  }

  function CrashStep(w: World, p: Process): World {
    w.(stores := map a | a in w.stores && w.stores[a].process != p :: w.stores[a], recoveries := w.recoveries - {p})
  }

  function BeginStep(w: World, p: Process, a: AttemptId, row: Attempt, response: string): Option<World> {
    var db := RecordAttempt(w.db, p, a, row);
    if db.None? || row.staging in w.fs.data then None
    else Some(w.(db := db.value, stores := w.stores[a := StoreThread(p, row.staging, row.draft, response, Recorded)]))
  }

  function StoreStep(w: World, a: AttemptId, act: StoreAct): Option<World> {
    if a !in w.stores then None
    else
      var move := StoreMove(w.db, w.fs, a, w.stores[a], act);
      if move.None? then None
      else
        var m := move.value;
        Some(World(m.db, m.fs,
                   if m.pc.None? then w.stores - {a} else w.stores[a := w.stores[a].(pc := m.pc.value)],
                   w.recoveries))
  }

  function RecoverStep(w: World, p: Process, act: RecoveryAct): Option<World> {
    var move := RecoveryMove(w.db, w.fs, p, Alive(w, p), act);
    if move.None? then None
    else
      var m := move.value;
      Some(World(m.db, m.fs, w.stores, if m.pc.None? then w.recoveries - {p} else w.recoveries[p := m.pc.value]))
  }

  /** A step of the machine, or `None` where it cannot be taken. */
  function Step(w: World, e: Event): Option<World> {
    match e
    case Claim(p) => Some(w.(db := w.db.(fence := Some(p))))
    case Release(p) => if w.db.fence == Some(p) then Some(w.(db := w.db.(fence := None))) else None
    case Crash(p) => Some(CrashStep(w, p))
    case Begin(p, a, row, response) => BeginStep(w, p, a, row, response)
    case Store(a, act) => StoreStep(w, a, act)
    case Stop(a) => Some(w.(stores := w.stores - {a}))
    case Recover(p, act) => RecoverStep(w, p, act)
    case Abandon(p) => Some(w.(recoveries := w.recoveries - {p}))
  }

  function Run(w: World, es: seq<Event>): Option<World> {
    Fold(Step, w, es)
  }

  /** A run given by the world before and after each of its steps. */
  lemma {:induction false} TraceRuns(worlds: seq<World>, es: seq<Event>)
    requires |worlds| == |es| + 1
    requires forall k :: 0 <= k < |es| ==> Step(worlds[k], es[k]) == Some(worlds[k + 1])
    ensures Run(worlds[0], es) == Some(worlds[|es|])
    decreases |es|
  {
    hide Step;
    if es != [] {
      assert Step(worlds[0], es[0]) == Some(worlds[1]);
      TraceRuns(worlds[1..], es[1..]);
    }
  }
}
