/** Runs that show why the conditions of the vault's theorems are needed. */
module VaultLimits {
  import opened Base
  import opened VaultDatabase
  import opened VaultProtocol
  import opened VaultSafety
  import opened VaultRecovery
  import opened VaultConvergence
  import opened VaultPlans
  import opened VaultScan

  const NIL: Bytes := []
  const ROW := Attempt(7, "request")
  const SEEN := Observation([], "request", "response")
  const INTENT := Intent(1, 7, [], NewContent, SEEN)
  const KNOWN := Evidence(map[1 := ROW], map[], map[], map[])
  const STORED := Evidence(map[1 := ROW], map[1 := SUCCESS], map[[] := Retrieval], map[1 := SEEN])
  const STAGED := Files(map[7 := []], {7}, map[], {})
  const TWINNED := Files(map[7 := []], {7}, map[[] := 7], {})
  const ALONE := Files(map[7 := []], {}, map[[] := 7], {})
  const MOVING := Files(map[7 := []], {}, map[[] := 7], {7})
  const LOST := Files(map[7 := []], {}, map[], {7})
  const PLAN := QuarantineContent([], 7)

  function Head(phase: Phase, plan: Option<Plan>, e: Evidence, intents: map<IntentId, Intent>, marks: set<(IntentId, Mark)>): Db {
    Db(Some(1), phase, plan, e, Installs(intents, marks))
  }

  function OneStore(pc: StorePc): map<AttemptId, StoreThread> {
    map[1 := StoreThread(1, 7, "request", "response", pc)]
  }

  // Process 1 has reached the content scan; it then stores the empty body up to the link.

  function Before(phase: Phase): World {
    World(Head(phase, None, EMPTY_DB.evidence, map[], {}), NO_FILES, map[], map[1 := Idle])
  }

  function Staging1(phase: Phase, pc: StorePc, fs: Files): World {
    World(Head(phase, None, KNOWN, map[], {}), fs, OneStore(pc), map[1 := Idle])
  }

  function Linked1(phase: Phase, pc: StorePc, e: Evidence, marks: set<(IntentId, Mark)>, fs: Files, plan: Option<Plan>, scan: RecoveryPc): World {
    World(Head(phase, plan, e, map[5 := INTENT], marks), fs, OneStore(pc), map[1 := scan])
  }

  const MARKED: set<(IntentId, Mark)> := {(5, ContentInstalled)}
  const COMMITTED: set<(IntentId, Mark)> := {(5, ContentInstalled), (5, EvidenceCommitted)}

  lemma StartStep()
    ensures Step(EMPTY_WORLD, Claim(1)) == Some(World(Head(Intents(-1), None, EMPTY_DB.evidence, map[], {}), NO_FILES, map[], map[]))
  {
  }

  lemma PhaseSteps()
    ensures Step(World(Head(Intents(-1), None, EMPTY_DB.evidence, map[], {}), NO_FILES, map[], map[]), Recover(1, NextPhase)) == Some(Before(Staging))
    ensures Step(Before(Staging), Recover(1, NextPhase)) == Some(Before(OpenAttempts))
    ensures Step(Before(OpenAttempts), Recover(1, NextPhase)) == Some(Before(Content))
  {
    assert map[1 := Idle][1 := Idle] == map[1 := RecoveryPc.Idle];
    assert map[][1 := Idle] == map[1 := RecoveryPc.Idle];
  }

  lemma Turn(pc: StorePc, next: StorePc)
    ensures OneStore(pc)[1 := OneStore(pc)[1].(pc := next)] == OneStore(next)
  {
  }

  lemma Scan(pc: RecoveryPc, next: RecoveryPc)
    ensures map[1 := pc][1 := next] == map[1 := next]
  {
  }

  lemma BeginStep(phase: Phase)
    ensures Step(Before(phase), Begin(1, 1, ROW, "response"))
              == Some(Staging1(phase, Recorded, NO_FILES))
  {
    assert map[][1 := ROW] == map[1 := ROW];
    assert map[][1 := StoreThread(1, 7, "request", "response", Recorded)] == OneStore(Recorded);
  }

  lemma CreateStep(phase: Phase)
    ensures Step(Staging1(phase, Recorded, NO_FILES), Store(1, CreateStage))
              == Some(Staging1(phase, Writing, STAGED))
  {
    assert {} + {7} == {7} && map[][7 := NIL] == map[7 := NIL];
    Turn(Recorded, Writing);
  }

  lemma CloseStep(phase: Phase)
    ensures Step(Staging1(phase, Writing, STAGED), Store(1, CloseStage))
              == Some(Staging1(phase, Closed, STAGED))
  {
    Turn(Writing, Closed);
  }

  lemma CheckStep(phase: Phase)
    ensures Step(Staging1(phase, Closed, STAGED), Store(1, CheckExisting))
              == Some(Staging1(phase, Checked(NewContent), STAGED))
  {
    Turn(Closed, Checked(NewContent));
  }

  lemma PrepareStep(phase: Phase)
    ensures Step(Staging1(phase, Checked(NewContent), STAGED), Store(1, Prepare(5)))
              == Some(Linked1(phase, Prepared(5, NewContent), KNOWN, {}, STAGED, None, Idle))
  {
    assert map[][5 := INTENT] == map[5 := INTENT];
    Turn(Checked(NewContent), Prepared(5, NewContent));
  }

  lemma PlaceStep()
    ensures Step(Linked1(Content, Prepared(5, NewContent), KNOWN, {}, STAGED, None, Idle), Store(1, Place))
              == Some(Linked1(Content, Placed(5), KNOWN, {}, TWINNED, None, Idle))
  {
    assert map[][NIL := 7] == map[NIL := 7];
    Turn(Prepared(5, NewContent), Placed(5));
  }

  /** The content scan hashes the file once and refuses it, because it still has two links. */
  lemma RefuseStep()
    ensures Step(Linked1(Content, Placed(5), KNOWN, {}, TWINNED, None, Idle), Recover(1, InspectContent([])))
              == Some(Linked1(Content, Placed(5), KNOWN, {}, TWINNED, None, ContentRefused([])))
  {
    assert Linked(TWINNED, 7) by { assert TWINNED.content[[]] == 7; }
    Scan(Idle, ContentRefused([]));
  }

  lemma VerifyStep()
    ensures Step(Linked1(Content, Placed(5), KNOWN, {}, TWINNED, None, ContentRefused([])), Store(1, VerifyInstalled))
              == Some(Linked1(Content, Verified(5), KNOWN, {}, TWINNED, None, ContentRefused([])))
  {
    Turn(Placed(5), Verified(5));
  }

  lemma InstallStep()
    ensures Step(Linked1(Content, Verified(5), KNOWN, {}, TWINNED, None, ContentRefused([])), Store(1, MarkInstalled))
              == Some(Linked1(Content, Installed(5), KNOWN, MARKED, TWINNED, None, ContentRefused([])))
  {
    assert {} + {(5, ContentInstalled)} == MARKED;
    Turn(Verified(5), Installed(5));
  }

  /** The store then commits the blob and removes its staging name. */
  lemma CommitStep()
    ensures Step(Linked1(Content, Installed(5), KNOWN, MARKED, TWINNED, None, ContentRefused([])), Store(1, Commit))
              == Some(Linked1(Content, Committed(5), STORED, COMMITTED, TWINNED, None, ContentRefused([])))
  {
    assert MARKED + {(5, EvidenceCommitted)} == COMMITTED && map[][NIL := Retrieval] == map[NIL := Retrieval];
    assert map[][1 := SUCCESS] == map[1 := SUCCESS] && map[][1 := SEEN] == map[1 := SEEN];
    Turn(Installed(5), Committed(5));
  }

  lemma RemoveStep()
    ensures Step(Linked1(Content, Committed(5), STORED, COMMITTED, TWINNED, None, ContentRefused([])), Store(1, RemoveStage))
              == Some(Linked1(Content, Removed(5), STORED, COMMITTED, ALONE, None, ContentRefused([])))
  {
    assert {7} - {7} == {};
    Turn(Committed(5), Removed(5));
  }

  /** The second hash now succeeds, and the scan quarantines a file it believes invalid. */
  lemma HashAgainStep()
    ensures Step(Linked1(Content, Removed(5), STORED, COMMITTED, ALONE, None, ContentRefused([])), Recover(1, HashAgain))
              == Some(Linked1(Content, Removed(5), STORED, COMMITTED, ALONE, None, Planning(PLAN)))
  {
    Scan(ContentRefused([]), Planning(PLAN));
  }

  lemma PersistStep()
    ensures Step(Linked1(Content, Removed(5), STORED, COMMITTED, ALONE, None, Planning(PLAN)), Recover(1, Persist))
              == Some(Linked1(Content, Removed(5), STORED, COMMITTED, ALONE, Some(PLAN), Holding(PLAN)))
  {
    Scan(Planning(PLAN), Holding(PLAN));
  }

  lemma QuarantineLinkStep()
    ensures Step(Linked1(Content, Removed(5), STORED, COMMITTED, ALONE, Some(PLAN), Holding(PLAN)), Recover(1, QuarantineLink))
              == Some(Linked1(Content, Removed(5), STORED, COMMITTED, MOVING, Some(PLAN), QuarantineLinked(PLAN)))
  {
    assert {} + {7} == {7};
    Scan(Holding(PLAN), QuarantineLinked(PLAN));
  }

  lemma QuarantineRemoveStep()
    ensures Step(Linked1(Content, Removed(5), STORED, COMMITTED, MOVING, Some(PLAN), QuarantineLinked(PLAN)), Recover(1, QuarantineRemove))
              == Some(Linked1(Content, Removed(5), STORED, COMMITTED, LOST, Some(PLAN), SourceGone(PLAN)))
  {
    assert map[NIL := 7] - {NIL} == map[];
    Scan(QuarantineLinked(PLAN), SourceGone(PLAN));
  }

  /** The store up to its link, with the scan waiting. */
  lemma FirstHalf() returns (es: seq<Event>)
    ensures Run(EMPTY_WORLD, es) == Some(Linked1(Content, Placed(5), KNOWN, {}, TWINNED, None, Idle))
  {
    hide *;
    es := [
      Claim(1), Recover(1, NextPhase), Recover(1, NextPhase), Recover(1, NextPhase),
      Begin(1, 1, ROW, "response"),
      Store(1, CreateStage),
      Store(1, CloseStage),
      Store(1, CheckExisting),
      Store(1, Prepare(5)),
      Store(1, Place)];
    var worlds := [
      EMPTY_WORLD, World(Head(Intents(-1), None, EMPTY_DB.evidence, map[], {}), NO_FILES, map[], map[]),
      Before(Staging), Before(OpenAttempts), Before(Content),
      Staging1(Content, Recorded, NO_FILES),
      Staging1(Content, Writing, STAGED),
      Staging1(Content, Closed, STAGED),
      Staging1(Content, Checked(NewContent), STAGED),
      Linked1(Content, Prepared(5, NewContent), KNOWN, {}, STAGED, None, Idle),
      Linked1(Content, Placed(5), KNOWN, {}, TWINNED, None, Idle)];
    StartStep();
    PhaseSteps();
    BeginStep(Content);
    CreateStep(Content);
    CloseStep(Content);
    CheckStep(Content);
    PrepareStep(Content);
    PlaceStep();
    TraceRuns(worlds, es);
  }

  /** The scan and the store interleaved. */
  lemma SecondHalf() returns (es: seq<Event>)
    ensures Run(Linked1(Content, Placed(5), KNOWN, {}, TWINNED, None, Idle), es) == Some(Linked1(Content, Removed(5), STORED, COMMITTED, LOST, Some(PLAN), SourceGone(PLAN)))
  {
    hide *;
    es := [
      Recover(1, InspectContent([])),
      Store(1, VerifyInstalled),
      Store(1, MarkInstalled),
      Store(1, Commit),
      Store(1, RemoveStage),
      Recover(1, HashAgain),
      Recover(1, Persist),
      Recover(1, QuarantineLink),
      Recover(1, QuarantineRemove)];
    var worlds := [
      Linked1(Content, Placed(5), KNOWN, {}, TWINNED, None, Idle),
      Linked1(Content, Placed(5), KNOWN, {}, TWINNED, None, ContentRefused([])),
      Linked1(Content, Verified(5), KNOWN, {}, TWINNED, None, ContentRefused([])),
      Linked1(Content, Installed(5), KNOWN, MARKED, TWINNED, None, ContentRefused([])),
      Linked1(Content, Committed(5), STORED, COMMITTED, TWINNED, None, ContentRefused([])),
      Linked1(Content, Removed(5), STORED, COMMITTED, ALONE, None, ContentRefused([])),
      Linked1(Content, Removed(5), STORED, COMMITTED, ALONE, None, Planning(PLAN)),
      Linked1(Content, Removed(5), STORED, COMMITTED, ALONE, Some(PLAN), Holding(PLAN)),
      Linked1(Content, Removed(5), STORED, COMMITTED, MOVING, Some(PLAN), QuarantineLinked(PLAN)),
      Linked1(Content, Removed(5), STORED, COMMITTED, LOST, Some(PLAN), SourceGone(PLAN))];
    RefuseStep();
    VerifyStep();
    InstallStep();
    CommitStep();
    RemoveStep();
    HashAgainStep();
    PersistStep();
    QuarantineLinkStep();
    QuarantineRemoveStep();
    TraceRuns(worlds, es);
  }

  /** A blob can lose its content when a store finishes while the content scan of the same process runs. */
  lemma DoubleHashLosesContent()
    ensures exists es :: Run(EMPTY_WORLD, es).Some? && !CalmRun(es)
                         && !BlobsBacked(Run(EMPTY_WORLD, es).value.db.evidence, Run(EMPTY_WORLD, es).value.fs)
  {
    var first := FirstHalf();
    var second := SecondHalf();
    var es := first + second;
    FoldConcat(Step, EMPTY_WORLD, first, second);
    var last := Linked1(Content, Removed(5), STORED, COMMITTED, LOST, Some(PLAN), SourceGone(PLAN));
    assert Run(EMPTY_WORLD, es) == Some(last);
    assert !BlobsBacked(last.db.evidence, last.fs) by {
      assert [] in STORED.blobs && [] !in LOST.content;
    }
    hide Step, BlobsBacked, CalmRun, Run, Safe;
    if CalmRun(es) {
      EmptySafe();
      RunSafe(EMPTY_WORLD, es);
      SafeBacks(last);
    }
  }

  lemma SafeBacks(w: World)
    requires Safe(w)
    ensures BlobsBacked(w.db.evidence, w.fs)
  {
  }

  // A staging scan that plans to expire attempt 1 while its staging file is still there.

  function Scene(
      p: Process, intents: map<IntentId, Intent>, stores: map<AttemptId, StoreThread>, plan: Option<Plan>, e: Evidence, fs: Files,
      scan: RecoveryPc): World {
    World(Db(Some(p), Staging, plan, e, Installs(intents, {})), fs, stores, map[p := scan])
  }

  const EXPIRING := QuarantineStage(7, [], Some(1))
  const STAGE_MOVING := Files(map[7 := []], {7}, map[], {7})
  const STAGE_LOST := Files(map[7 := []], {}, map[], {7})
  const EXPIRED := Evidence(map[1 := ROW], map[1 := STAGE_EXPIRED], map[], map[])

  lemma Rescan(p: Process, pc: RecoveryPc, next: RecoveryPc)
    ensures map[p := pc][p := next] == map[p := next]
  {
  }

  lemma InspectStep(p: Process, intents: map<IntentId, Intent>, stores: map<AttemptId, StoreThread>)
    ensures Step(Scene(p, intents, stores, None, KNOWN, STAGED, Idle), Recover(p, InspectStage(7, Some(1))))
              == Some(Scene(p, intents, stores, None, KNOWN, STAGED, Planning(EXPIRING)))
  {
    Rescan(p, Idle, Planning(EXPIRING));
  }

  lemma ExpirePersistStep(p: Process, intents: map<IntentId, Intent>, stores: map<AttemptId, StoreThread>)
    ensures Step(Scene(p, intents, stores, None, KNOWN, STAGED, Planning(EXPIRING)), Recover(p, Persist))
              == Some(Scene(p, intents, stores, Some(EXPIRING), KNOWN, STAGED, Holding(EXPIRING)))
  {
    Rescan(p, Planning(EXPIRING), Holding(EXPIRING));
  }

  lemma ExpireMoveSteps(p: Process, intents: map<IntentId, Intent>, stores: map<AttemptId, StoreThread>)
    ensures Step(Scene(p, intents, stores, Some(EXPIRING), KNOWN, STAGED, Holding(EXPIRING)), Recover(p, QuarantineLink))
              == Some(Scene(p, intents, stores, Some(EXPIRING), KNOWN, STAGE_MOVING, QuarantineLinked(EXPIRING)))
    ensures Step(Scene(p, intents, stores, Some(EXPIRING), KNOWN, STAGE_MOVING, QuarantineLinked(EXPIRING)), Recover(p, QuarantineRemove))
              == Some(Scene(p, intents, stores, Some(EXPIRING), KNOWN, STAGE_LOST, SourceGone(EXPIRING)))
  {
    assert {} + {7} == {7} && {7} - {7} == {};
    Rescan(p, Holding(EXPIRING), QuarantineLinked(EXPIRING));
    Rescan(p, QuarantineLinked(EXPIRING), SourceGone(EXPIRING));
  }

  lemma ExpireHashStep(p: Process, intents: map<IntentId, Intent>, stores: map<AttemptId, StoreThread>)
    ensures Step(Scene(p, intents, stores, Some(EXPIRING), KNOWN, STAGE_LOST, SourceGone(EXPIRING)), Recover(p, HashTarget))
              == Some(Scene(p, intents, stores, Some(EXPIRING), KNOWN, STAGE_LOST, Ready(EXPIRING)))
  {
    Rescan(p, SourceGone(EXPIRING), Ready(EXPIRING));
  }

  lemma ExpireApplyStep(p: Process, intents: map<IntentId, Intent>, stores: map<AttemptId, StoreThread>)
    ensures Step(Scene(p, intents, stores, Some(EXPIRING), KNOWN, STAGE_LOST, Ready(EXPIRING)), Recover(p, Apply))
              == Some(Scene(p, intents, stores, None, EXPIRED, STAGE_LOST, Idle))
  {
    assert map[][1 := STAGE_EXPIRED] == map[1 := STAGE_EXPIRED];
    Rescan(p, Ready(EXPIRING), Idle);
  }

  function Expiry(p: Process): seq<Event> {
    [Recover(p, InspectStage(7, Some(1))), Recover(p, Persist), Recover(p, QuarantineLink), Recover(p, QuarantineRemove),
     Recover(p, HashTarget), Recover(p, Apply)]
  }

  lemma ExpiryRun(p: Process, intents: map<IntentId, Intent>, stores: map<AttemptId, StoreThread>)
    ensures Run(Scene(p, intents, stores, None, KNOWN, STAGED, Idle), Expiry(p))
              == Some(Scene(p, intents, stores, None, EXPIRED, STAGE_LOST, Idle))
  {
    hide Step, Scene, Run;
    InspectStep(p, intents, stores);
    ExpirePersistStep(p, intents, stores);
    ExpireMoveSteps(p, intents, stores);
    ExpireHashStep(p, intents, stores);
    ExpireApplyStep(p, intents, stores);
    TraceRuns([Scene(p, intents, stores, None, KNOWN, STAGED, Idle),
               Scene(p, intents, stores, None, KNOWN, STAGED, Planning(EXPIRING)),
               Scene(p, intents, stores, Some(EXPIRING), KNOWN, STAGED, Holding(EXPIRING)),
               Scene(p, intents, stores, Some(EXPIRING), KNOWN, STAGE_MOVING, QuarantineLinked(EXPIRING)),
               Scene(p, intents, stores, Some(EXPIRING), KNOWN, STAGE_LOST, SourceGone(EXPIRING)),
               Scene(p, intents, stores, Some(EXPIRING), KNOWN, STAGE_LOST, Ready(EXPIRING)),
               Scene(p, intents, stores, None, EXPIRED, STAGE_LOST, Idle)], Expiry(p));
  }

  /** A store brought to a point before its intent, in a vault whose reconciliation stands at a given phase. */
  lemma StoreOpens(phase: Phase, es: seq<Event>)
    requires Run(EMPTY_WORLD, es) == Some(Before(phase))
    ensures var begun := es + [Begin(1, 1, ROW, "response"), Store(1, CreateStage)];
            && Run(EMPTY_WORLD, begun) == Some(Staging1(phase, Writing, STAGED))
            && Run(EMPTY_WORLD, begun + [Store(1, CloseStage), Store(1, CheckExisting)])
                 == Some(Staging1(phase, Checked(NewContent), STAGED))
  {
    hide *;
    BeginStep(phase);
    CreateStep(phase);
    CloseStep(phase);
    CheckStep(phase);
    var first, second := [Begin(1, 1, ROW, "response"), Store(1, CreateStage)], [Store(1, CloseStage), Store(1, CheckExisting)];
    TraceRuns([Before(phase), Staging1(phase, Recorded, NO_FILES), Staging1(phase, Writing, STAGED)], first);
    TraceRuns([Staging1(phase, Writing, STAGED), Staging1(phase, Closed, STAGED), Staging1(phase, Checked(NewContent), STAGED)], second);
    RunOn(EMPTY_WORLD, es, first);
    RunOn(EMPTY_WORLD, es + first, second);
  }

  lemma RunOn(w: World, a: seq<Event>, b: seq<Event>)
    requires Run(w, a).Some?
    ensures Run(w, a + b) == Run(Run(w, a).value, b)
  {
    FoldConcat(Step, w, a, b);
    hide Step;
  }

  lemma ToStaging()
    ensures Run(EMPTY_WORLD, [Claim(1), Recover(1, NextPhase)]) == Some(Before(Staging))
  {
    hide *;
    StartStep();
    PhaseSteps();
    TraceRuns([EMPTY_WORLD, World(Head(Intents(-1), None, EMPTY_DB.evidence, map[], {}), NO_FILES, map[], map[]), Before(Staging)],
              [Claim(1), Recover(1, NextPhase)]);
  }

  lemma StagingScene(pc: StorePc, fs: Files)
    ensures Staging1(Staging, pc, fs) == Scene(1, map[], OneStore(pc), None, KNOWN, fs, Idle)
  {
  }

  // ----- An attempt expired while its intent is pending -----

  lemma CrashedStep()
    ensures Step(Linked1(Staging, Prepared(5, NewContent), KNOWN, {}, STAGED, None, Idle), Crash(1))
              == Some(World(Head(Staging, None, KNOWN, map[5 := INTENT], {}), STAGED, map[], map[]))
  {
    assert map[1 := RecoveryPc.Idle] - {1} == map[];
    assert Step(Linked1(Staging, Prepared(5, NewContent), KNOWN, {}, STAGED, None, Idle), Crash(1)).value.stores == map[];
  }

  lemma TakenStep()
    ensures Step(World(Head(Staging, None, KNOWN, map[5 := INTENT], {}), STAGED, map[], map[]), Claim(2))
              == Some(World(Head(Staging, None, KNOWN, map[5 := INTENT], {}).(fence := Some(2)), STAGED, map[], map[]))
  {
  }

  /** Before its reconciliation has begun, process 2 scans as one that is idle. */
  lemma TakenScans(act: RecoveryAct)
    ensures var taken := World(Head(Staging, None, KNOWN, map[5 := INTENT], {}).(fence := Some(2)), STAGED, map[], map[]);
            Step(taken, Recover(2, act)) == Step(Scene(2, map[5 := INTENT], map[], None, KNOWN, STAGED, Idle), Recover(2, act))
  {
    var taken := World(Head(Staging, None, KNOWN, map[5 := INTENT], {}).(fence := Some(2)), STAGED, map[], map[]);
    FirstMove(taken, 2, act);
    assert map[][2 := Idle] == map[2 := RecoveryPc.Idle];
    assert At(taken, 2, taken.db, taken.fs, Idle) == Scene(2, map[5 := INTENT], map[], None, KNOWN, STAGED, Idle);
    hide Step;
  }

  lemma SameFirst(w: World, v: World, es: seq<Event>)
    requires es != [] && Step(w, es[0]) == Step(v, es[0])
    ensures Run(w, es) == Run(v, es)
  {
    hide Step;
  }

  /**
    One crash is enough to leave an intent that no pass can settle: the resumed staging scan expires
    the attempt of a pending intent, and from then on both ways of settling it are refused.
   */
  lemma ExpiryWedgesRecovery()
    ensures exists es :: Run(EMPTY_WORLD, es).Some? && CalmRun(es)
                         && !PatientRun(EMPTY_WORLD, es) && Conflicted(Run(EMPTY_WORLD, es).value.db, 5)
  {
    hide *;
    var start := [Claim(1), Recover(1, NextPhase)];
    var ready := start + [Begin(1, 1, ROW, "response"), Store(1, CreateStage)] + [Store(1, CloseStage), Store(1, CheckExisting)];
    ToStaging();
    StoreOpens(Staging, start);
    var taken := World(Head(Staging, None, KNOWN, map[5 := INTENT], {}).(fence := Some(2)), STAGED, map[], map[]);
    PrepareStep(Staging);
    CrashedStep();
    TakenStep();
    var more := [Store(1, Prepare(5)), Crash(1), Claim(2)];
    TraceRuns([Staging1(Staging, Checked(NewContent), STAGED), Linked1(Staging, Prepared(5, NewContent), KNOWN, {}, STAGED, None, Idle),
               World(Head(Staging, None, KNOWN, map[5 := INTENT], {}), STAGED, map[], map[]), taken], more);
    RunOn(EMPTY_WORLD, ready, more);
    ExpiryFirst();
    TakenScans(InspectStage(7, Some(1)));
    SameFirst(taken, Scene(2, map[5 := INTENT], map[], None, KNOWN, STAGED, Idle), Expiry(2));
    ExpiryRun(2, map[5 := INTENT], map[]);
    var es := ready + more + Expiry(2);
    RunOn(EMPTY_WORLD, ready + more, Expiry(2));
    WedgedAt(2);
    CalmParts(es);
    if PatientRun(EMPTY_WORLD, es) { PatientNeverConflicts(es); }
  }

  lemma ExpiryFirst()
    ensures Expiry(2) != [] && Expiry(2)[0] == Recover(2, InspectStage(7, Some(1)))
  {
  }

  lemma WedgedAt(p: Process)
    ensures Conflicted(Scene(p, map[5 := INTENT], map[], None, EXPIRED, STAGE_LOST, Idle).db, 5)
  {
  }

  lemma CalmParts(es: seq<Event>)
    ensures (forall e :: e in es ==> !(e.Recover? && e.recovery.HashAgain?)) ==> CalmRun(es)
    ensures forall p: Process, e: Event :: e in Expiry(p) ==> !(e.Recover? && e.recovery.HashAgain?)
  {
  }

  lemma PatientNeverConflicts(es: seq<Event>)
    requires Run(EMPTY_WORLD, es).Some? && CalmRun(es) && PatientRun(EMPTY_WORLD, es)
    ensures forall i :: !Conflicted(Run(EMPTY_WORLD, es).value.db, i)
  {
    EmptySafe();
    EmptyTidy();
    hide Run, CalmRun, PatientRun;
    PatientRunUnconflicted(EMPTY_WORLD, es);
  }

  // ----- An intent prepared for an attempt that has ended -----

  lemma LatePrepareStep()
    ensures Step(Scene(1, map[], OneStore(Checked(NewContent)), None, EXPIRED, STAGE_LOST, Idle), Store(1, Prepare(5)))
              == Some(Scene(1, map[5 := INTENT], OneStore(Prepared(5, NewContent)), None, EXPIRED, STAGE_LOST, Idle))
  {
    assert map[][5 := INTENT] == map[5 := INTENT];
    Turn(Checked(NewContent), Prepared(5, NewContent));
  }

  lemma LateConflict()
    ensures Conflicted(Scene(1, map[5 := INTENT], OneStore(Prepared(5, NewContent)), None, EXPIRED, STAGE_LOST, Idle).db, 5)
  {
  }

  /** Without any crash: the staging scan expires a slow store, which then prepares its intent all the same. */
  lemma PreparedAfterItsEnd()
    ensures exists es :: Run(EMPTY_WORLD, es).Some? && CalmRun(es) && Conflicted(Run(EMPTY_WORLD, es).value.db, 5)
  {
    hide *;
    var start := [Claim(1), Recover(1, NextPhase)];
    var ready := start + [Begin(1, 1, ROW, "response"), Store(1, CreateStage)] + [Store(1, CloseStage), Store(1, CheckExisting)];
    ToStaging();
    StoreOpens(Staging, start);
    StagingScene(Checked(NewContent), STAGED);
    ExpiryRun(1, map[], OneStore(Checked(NewContent)));
    RunOn(EMPTY_WORLD, ready, Expiry(1));
    LatePrepareStep();
    var last := [Store(1, Prepare(5))];
    TraceRuns([Scene(1, map[], OneStore(Checked(NewContent)), None, EXPIRED, STAGE_LOST, Idle),
               Scene(1, map[5 := INTENT], OneStore(Prepared(5, NewContent)), None, EXPIRED, STAGE_LOST, Idle)], last);
    var es := ready + Expiry(1) + last;
    RunOn(EMPTY_WORLD, ready + Expiry(1), last);
    LateConflict();
    CalmParts(es);
  }

  // ----- An action that can never be applied -----

  const FAILURE := Outcome(Failed, None, None)
  const FAILED := Evidence(map[1 := ROW], map[1 := FAILURE], map[], map[])

  lemma FailSteps()
    ensures Step(Scene(1, map[], OneStore(Writing), Some(EXPIRING), KNOWN, STAGED, Holding(EXPIRING)), Store(1, Fail(FAILURE)))
              == Some(Scene(1, map[], OneStore(Failing(FAILURE)), Some(EXPIRING), KNOWN, STAGED, Holding(EXPIRING)))
    ensures Step(Scene(1, map[], OneStore(Failing(FAILURE)), Some(EXPIRING), KNOWN, STAGED, Holding(EXPIRING)), Store(1, Finish))
              == Some(Scene(1, map[], map[], Some(EXPIRING), FAILED, STAGED, Holding(EXPIRING)))
  {
    Turn(Writing, Failing(FAILURE));
    assert map[][1 := FAILURE] == map[1 := FAILURE] && OneStore(Failing(FAILURE)) - {1} == map[];
  }

  lemma StuckHere()
    ensures Stuck(Scene(1, map[], map[], Some(EXPIRING), FAILED, STAGED, Holding(EXPIRING)), EXPIRING)
  {
  }

  /**
    A store that fails between the plan to expire it and that plan's application leaves an action no process
    can ever apply, and so a reconciliation that never goes on. Nothing crashed, and no attempt was expired.
   */
  lemma FailureWedgesPlan()
    ensures exists es :: Run(EMPTY_WORLD, es).Some? && CalmRun(es) && PatientRun(EMPTY_WORLD, es)
                         && Stuck(Run(EMPTY_WORLD, es).value, EXPIRING)
  {
    hide *;
    var start := [Claim(1), Recover(1, NextPhase)];
    var ready := start + [Begin(1, 1, ROW, "response"), Store(1, CreateStage)];
    ToStaging();
    StoreOpens(Staging, start);
    StagingScene(Writing, STAGED);
    InspectStep(1, map[], OneStore(Writing));
    ExpirePersistStep(1, map[], OneStore(Writing));
    FailSteps();
    var more := [Recover(1, InspectStage(7, Some(1))), Recover(1, Persist), Store(1, Fail(FAILURE)), Store(1, Finish)];
    TraceRuns([Scene(1, map[], OneStore(Writing), None, KNOWN, STAGED, Idle),
               Scene(1, map[], OneStore(Writing), None, KNOWN, STAGED, Planning(EXPIRING)),
               Scene(1, map[], OneStore(Writing), Some(EXPIRING), KNOWN, STAGED, Holding(EXPIRING)),
               Scene(1, map[], OneStore(Failing(FAILURE)), Some(EXPIRING), KNOWN, STAGED, Holding(EXPIRING)),
               Scene(1, map[], map[], Some(EXPIRING), FAILED, STAGED, Holding(EXPIRING))], more);
    var es := ready + more;
    RunOn(EMPTY_WORLD, ready, more);
    StuckHere();
    CalmParts(es);
    NothingApplied(EMPTY_WORLD, es);
  }

  lemma {:induction false} NothingApplied(w: World, es: seq<Event>)
    requires forall e :: e in es ==> !(e.Recover? && e.recovery.Apply?)
    ensures PatientRun(w, es)
    decreases |es|
  {
    hide Step;
    if es != [] && Step(w, es[0]).Some? { NothingApplied(Step(w, es[0]).value, es[1..]); }
  }

  // ----- An intent behind the key of a pass -----

  const LATE := Attempt(8, "request")
  const SECOND := Intent(2, 8, [], PreexistingVerified, SEEN)
  const SETTLED: set<(IntentId, Mark)> := {(5, ContentInstalled), (5, EvidenceCommitted), (5, StageCleaned)}
  const BOTH_KNOWN := Evidence(map[1 := ROW, 2 := LATE], map[1 := SUCCESS], map[[] := Retrieval], map[1 := SEEN])
  const BOTH_STAGED := Files(map[7 := [], 8 := []], {8}, map[[] := 7], {})

  /** One intent has been settled, and the pass stands at its key; a second store is on its way. */
  function Behind(e: Evidence, intents: map<IntentId, Intent>, fs: Files, stores: map<AttemptId, StoreThread>): World {
    World(Head(Intents(5), None, e, intents, SETTLED), fs, stores, map[1 := Idle])
  }

  function LateStore(pc: StorePc): map<AttemptId, StoreThread> {
    map[2 := StoreThread(1, 8, "request", "response", pc)]
  }

  lemma LateTurn(pc: StorePc, next: StorePc)
    ensures LateStore(pc)[2 := LateStore(pc)[2].(pc := next)] == LateStore(next)
  {
  }

  lemma RoundStep()
    ensures Step(Before(Content), Recover(1, NextPhase)) == Some(Before(Intents(-1)))
  {
    assert map[1 := Idle][1 := Idle] == map[1 := RecoveryPc.Idle];
  }

  lemma StopStep()
    ensures Step(Linked1(Intents(-1), Prepared(5, NewContent), KNOWN, {}, STAGED, None, Idle), Stop(1))
              == Some(World(Head(Intents(-1), None, KNOWN, map[5 := INTENT], {}), STAGED, map[], map[1 := Idle]))
  {
    assert OneStore(Prepared(5, NewContent)) - {1} == map[];
  }

  /** What settling the first intent leaves. */
  lemma FirstSettled()
    ensures FinishOne(Head(Intents(-1), None, KNOWN, map[5 := INTENT], {}), STAGED, 1, 5)
              == Some((Head(Intents(-1), None, STORED, map[5 := INTENT], SETTLED), ALONE))
  {
    var db := Head(Intents(-1), None, KNOWN, map[5 := INTENT], {});
    FirstInstalled();
    assert LinkContent(STAGED, 7, []).content == map[[] := 7] by { assert map[][NIL := 7] == map[NIL := 7]; }
    assert RemoveStageFile(LinkContent(STAGED, 7, []), 7) == ALONE by { assert {7} - {7} == {}; }
    assert !Linked(STAGED, 7);
    hide Install;
  }

  lemma FirstInstalled()
    ensures Install(Head(Intents(-1), None, KNOWN, map[5 := INTENT], {}), 1, 5)
              == Some(Head(Intents(-1), None, STORED, map[5 := INTENT], SETTLED))
  {
    assert map[][NIL := Retrieval] == map[NIL := Retrieval] && map[][1 := SUCCESS] == map[1 := SUCCESS] && map[][1 := SEEN] == map[1 := SEEN];
    assert {} + {(5, ContentInstalled)} + {(5, EvidenceCommitted)} + {(5, StageCleaned)} == SETTLED;
  }

  lemma LateBeginStep()
    ensures Step(Behind(STORED, map[5 := INTENT], ALONE, map[]), Begin(1, 2, LATE, "response"))
              == Some(Behind(BOTH_KNOWN, map[5 := INTENT], ALONE, LateStore(Recorded)))
  {
    assert map[1 := ROW][2 := LATE] == map[1 := ROW, 2 := LATE];
    assert map[][2 := StoreThread(1, 8, "request", "response", Recorded)] == LateStore(Recorded);
  }

  lemma LateFileSteps()
    ensures Step(Behind(BOTH_KNOWN, map[5 := INTENT], ALONE, LateStore(Recorded)), Store(2, CreateStage))
              == Some(Behind(BOTH_KNOWN, map[5 := INTENT], BOTH_STAGED, LateStore(Writing)))
    ensures Step(Behind(BOTH_KNOWN, map[5 := INTENT], BOTH_STAGED, LateStore(Writing)), Store(2, CloseStage))
              == Some(Behind(BOTH_KNOWN, map[5 := INTENT], BOTH_STAGED, LateStore(Closed)))
  {
    assert {} + {8} == {8} && map[7 := NIL][8 := NIL] == map[7 := NIL, 8 := NIL];
    LateTurn(Recorded, Writing);
    LateTurn(Writing, Closed);
  }

  lemma LateIntentSteps()
    ensures Step(Behind(BOTH_KNOWN, map[5 := INTENT], BOTH_STAGED, LateStore(Closed)), Store(2, CheckExisting))
              == Some(Behind(BOTH_KNOWN, map[5 := INTENT], BOTH_STAGED, LateStore(Checked(PreexistingVerified))))
    ensures Step(Behind(BOTH_KNOWN, map[5 := INTENT], BOTH_STAGED, LateStore(Checked(PreexistingVerified))), Store(2, Prepare(3)))
              == Some(Behind(BOTH_KNOWN, map[5 := INTENT, 3 := SECOND], BOTH_STAGED, LateStore(Prepared(3, PreexistingVerified))))
  {
    assert map[5 := INTENT][3 := SECOND] == map[5 := INTENT, 3 := SECOND];
    LateTurn(Closed, Checked(PreexistingVerified));
    LateTurn(Checked(PreexistingVerified), Prepared(3, PreexistingVerified));
  }

  /** The crash of process 1, and process 2 in its place. */
  lemma LateCrashSteps()
    ensures var crashed := World(Head(Intents(5), None, BOTH_KNOWN, map[5 := INTENT, 3 := SECOND], SETTLED), BOTH_STAGED, map[], map[]);
            && Step(Behind(BOTH_KNOWN, map[5 := INTENT, 3 := SECOND], BOTH_STAGED, LateStore(Prepared(3, PreexistingVerified))), Crash(1))
                 == Some(crashed)
            && Step(crashed, Claim(2)) == Some(crashed.(db := crashed.db.(fence := Some(2))))
  {
    assert map[1 := RecoveryPc.Idle] - {1} == map[];
    assert Step(Behind(BOTH_KNOWN, map[5 := INTENT, 3 := SECOND], BOTH_STAGED, LateStore(Prepared(3, PreexistingVerified))), Crash(1))
             .value.stores == map[];
  }

  lemma ToIntents()
    ensures Run(EMPTY_WORLD, [Claim(1), Recover(1, NextPhase), Recover(1, NextPhase), Recover(1, NextPhase), Recover(1, NextPhase)])
              == Some(Before(Intents(-1)))
  {
    hide *;
    StartStep();
    PhaseSteps();
    RoundStep();
    TraceRuns([EMPTY_WORLD, World(Head(Intents(-1), None, EMPTY_DB.evidence, map[], {}), NO_FILES, map[], map[]), Before(Staging),
               Before(OpenAttempts), Before(Content), Before(Intents(-1))],
              [Claim(1), Recover(1, NextPhase), Recover(1, NextPhase), Recover(1, NextPhase), Recover(1, NextPhase)]);
  }

  /** The pass up to the key of the one intent there is. */
  lemma PassAtKey() returns (es: seq<Event>)
    ensures Run(EMPTY_WORLD, es) == Some(Behind(STORED, map[5 := INTENT], ALONE, map[]))
    ensures CalmRun(es) && forall e :: e in es ==> !(e.Recover? && e.recovery.Apply?)
  {
    hide *;
    var start := [Claim(1), Recover(1, NextPhase), Recover(1, NextPhase), Recover(1, NextPhase), Recover(1, NextPhase)];
    ToIntents();
    StoreOpens(Intents(-1), start);
    var ready := start + [Begin(1, 1, ROW, "response"), Store(1, CreateStage)] + [Store(1, CloseStage), Store(1, CheckExisting)];
    var waiting := World(Head(Intents(-1), None, KNOWN, map[5 := INTENT], {}), STAGED, map[], map[1 := Idle]);
    PrepareStep(Intents(-1));
    StopStep();
    var more := [Store(1, Prepare(5)), Stop(1)];
    TraceRuns([Staging1(Intents(-1), Checked(NewContent), STAGED),
               Linked1(Intents(-1), Prepared(5, NewContent), KNOWN, {}, STAGED, None, Idle), waiting], more);
    RunOn(EMPTY_WORLD, ready, more);
    CalmParts(ready + more);
    FirstNext();
    CrashThenRecover(ready + more, 1);
    FirstSettled();
    FinishIsRun(waiting, 1, 5);
    es := ready + more + Script(1, 5, Present(waiting.db.installs, waiting.fs, 5));
    RunOn(EMPTY_WORLD, ready + more, Script(1, 5, Present(waiting.db.installs, waiting.fs, 5)));
    ScriptCalm(1, 5);
    CalmParts(es);
  }

  lemma FirstNext()
    ensures var w := World(Head(Intents(-1), None, KNOWN, map[5 := INTENT], {}), STAGED, map[], map[1 := Idle]);
            && w.db.fence == Some(1) && w.db.plan.None? && w.db.phase == Intents(-1) && NextPending(w.db.installs, -1, 5)
            && 1 in w.recoveries && w.recoveries[1] == Idle && 5 in w.db.installs.intents
            && At(w, 1, Head(Intents(-1), None, STORED, map[5 := INTENT], SETTLED).(phase := Intents(5)), ALONE, Idle)
               == Behind(STORED, map[5 := INTENT], ALONE, map[])
  {
    assert map[1 := RecoveryPc.Idle][1 := Idle] == map[1 := RecoveryPc.Idle];
  }

  lemma ScriptCalm(p: Process, i: IntentId)
    ensures forall present, e :: e in Script(p, i, present) ==> e.Recover? && !e.recovery.HashAgain? && !e.recovery.Apply?
  {
  }

  /**
    A pass that stands at a key can be left with an intent behind it: a store prepares one with a smaller
    identifier, its process crashes, and the pass goes on from its key to the next phase with the intent pending.
   */
  lemma IntentBehindTheKey()
    ensures exists es :: Run(EMPTY_WORLD, es).Some? && CalmRun(es) && PatientRun(EMPTY_WORLD, es)
                         && var w := Run(EMPTY_WORLD, es).value;
                            && w.stores == map[] && w.recoveries == map[] && w.db.fence == Some(2) && w.db.plan.None?
                            && w.db.phase == Intents(5) && Pending(w.db.installs, 3) && !Conflicted(w.db, 3)
                            && PassDone(w.db.installs, 5)
  {
    hide *;
    var first := PassAtKey();
    var crashed := World(Head(Intents(5), None, BOTH_KNOWN, map[5 := INTENT, 3 := SECOND], SETTLED), BOTH_STAGED, map[], map[]);
    var last := crashed.(db := crashed.db.(fence := Some(2)));
    LateBeginStep();
    LateFileSteps();
    LateIntentSteps();
    LateCrashSteps();
    var second := [Begin(1, 2, LATE, "response"), Store(2, CreateStage), Store(2, CloseStage), Store(2, CheckExisting),
                   Store(2, Prepare(3)), Crash(1), Claim(2)];
    TraceRuns([Behind(STORED, map[5 := INTENT], ALONE, map[]), Behind(BOTH_KNOWN, map[5 := INTENT], ALONE, LateStore(Recorded)),
               Behind(BOTH_KNOWN, map[5 := INTENT], BOTH_STAGED, LateStore(Writing)),
               Behind(BOTH_KNOWN, map[5 := INTENT], BOTH_STAGED, LateStore(Closed)),
               Behind(BOTH_KNOWN, map[5 := INTENT], BOTH_STAGED, LateStore(Checked(PreexistingVerified))),
               Behind(BOTH_KNOWN, map[5 := INTENT, 3 := SECOND], BOTH_STAGED, LateStore(Prepared(3, PreexistingVerified))),
               crashed, last], second);
    var es := first + second;
    RunOn(EMPTY_WORLD, first, second);
    LeftBehind();
    CalmJoin(first, second);
    NothingApplied(EMPTY_WORLD, es);
  }

  lemma LeftBehind()
    ensures var db := Head(Intents(5), None, BOTH_KNOWN, map[5 := INTENT, 3 := SECOND], SETTLED).(fence := Some(2));
            && db.fence == Some(2) && db.plan.None? && db.phase == Intents(5)
            && Pending(db.installs, 3) && !Conflicted(db, 3) && PassDone(db.installs, 5)
  {
  }

  lemma CalmJoin(a: seq<Event>, b: seq<Event>)
    requires CalmRun(a) && forall e :: e in b ==> !(e.Recover? && e.recovery.HashAgain?)
    ensures CalmRun(a + b)
  {
  }
}
