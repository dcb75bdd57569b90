/**
  A store that nothing comes between: from every state a run can reach it goes through to the end exactly if
  its attempt is still open and its content is not held under a second name, and it leaves what was handed in.
 */
module VaultStores {
  import opened Base
  import opened VaultDatabase
  import opened VaultProtocol
  import opened VaultSafety

  // ----- The steps of one store -----

  function Writes(chunks: seq<Bytes>): (r: seq<StoreAct>)
    ensures |r| == |chunks| && forall j :: 0 <= j < |r| ==> r[j] == WriteChunk(chunks[j])
  {
    seq(|chunks|, j requires 0 <= j < |chunks| => WriteChunk(chunks[j]))
  }

  /** All of `store` after its attempt is recorded. */
  function StoreActs(chunks: seq<Bytes>, i: IntentId): seq<StoreAct> {
    [CreateStage] + Writes(chunks)
    + [CloseStage, CheckExisting, Prepare(i), Place, VerifyInstalled, MarkInstalled, Commit, RemoveStage, MarkCleaned]
  }

  function Concat(chunks: seq<Bytes>): Bytes {
    if chunks == [] then [] else Concat(chunks[..|chunks| - 1]) + chunks[|chunks| - 1]
  }

  type State = Move<StorePc>

  /** One step of the store, on rows, files and place alone. */
  function Turn(a: AttemptId, th: StoreThread, m: State, act: StoreAct): Option<State> {
    if m.pc.None? then None else StoreMove(m.db, m.fs, a, th.(pc := m.pc.value), act)
  }

  function Work(a: AttemptId, th: StoreThread, m: State, acts: seq<StoreAct>): Option<State>
    decreases |acts|
  {
    if acts == [] then Some(m)
    else
      var next := Turn(a, th, m, acts[0]);
      if next.None? then None else Work(a, th, next.value, acts[1..])
  }

  lemma WorkFirst(a: AttemptId, th: StoreThread, m: State, act: StoreAct, rest: seq<StoreAct>)
    ensures Work(a, th, m, [act] + rest) ==
              if Turn(a, th, m, act).None? then None else Work(a, th, Turn(a, th, m, act).value, rest)
  {
    assert ([act] + rest)[1..] == rest;
    hide Turn;
  }

  lemma {:induction false} WorkConcat(a: AttemptId, th: StoreThread, m: State, x: seq<StoreAct>, y: seq<StoreAct>)
    ensures Work(a, th, m, x + y) == if Work(a, th, m, x).None? then None else Work(a, th, Work(a, th, m, x).value, y)
    decreases |x|
  {
    hide Turn;
    if x == [] {
      assert x + y == y;
    } else {
      assert (x + y)[1..] == x[1..] + y;
      if Turn(a, th, m, x[0]).Some? { WorkConcat(a, th, Turn(a, th, m, x[0]).value, x[1..], y); }
    }
  }

  // ----- Writing -----

  function Written(fs: Files, s: StagingId, bytes: Bytes): Files {
    fs.(data := fs.data[s := bytes], stage := fs.stage + {s})
  }

  lemma {:induction false} WritesConcat(a: AttemptId, th: StoreThread, db: Db, fs: Files, chunks: seq<Bytes>)
    ensures Work(a, th, Move(db, Written(fs, th.staging, []), Some(Writing)), Writes(chunks))
              == Some(Move(db, Written(fs, th.staging, Concat(chunks)), Some(Writing)))
  {
    var s := th.staging;
    if chunks == [] {
      assert Writes(chunks) == [];
    } else {
      var front, last := chunks[..|chunks| - 1], chunks[|chunks| - 1];
      WritesConcat(a, th, db, fs, front);
      assert Writes(chunks) == Writes(front) + [WriteChunk(last)];
      var m := Move(db, Written(fs, s, Concat(front)), Some(Writing));
      WorkConcat(a, th, Move(db, Written(fs, s, []), Some(Writing)), Writes(front), [WriteChunk(last)]);
      OneChunk(a, th, db, fs, Concat(front), last);
      WorkFirst(a, th, m, WriteChunk(last), []);
      assert [WriteChunk(last)] + [] == [WriteChunk(last)];
    }
  }

  lemma OneChunk(a: AttemptId, th: StoreThread, db: Db, fs: Files, before: Bytes, chunk: Bytes)
    ensures Turn(a, th, Move(db, Written(fs, th.staging, before), Some(Writing)), WriteChunk(chunk))
              == Some(Move(db, Written(fs, th.staging, before + chunk), Some(Writing)))
  {
    var s := th.staging;
    assert fs.data[s := before][s := before + chunk] == fs.data[s := before + chunk];
  }

  // ----- The state a store starts from -----

  ghost predicate Starts(db: Db, fs: Files, a: AttemptId, th: StoreThread, i: IntentId) {
    && RowsAndFiles(db, fs) && ThreadAgrees(db, fs, a, th) && th.pc == Recorded
    && fs.quarantine <= fs.data.Keys && db.fence == Some(th.process) && i !in db.installs.intents
  }

  /** The content is there under a second name as well. */
  predicate Twinned(fs: Files, d: Bytes) {
    d in fs.content && LinkCount(fs, fs.content[d]) > 1
  }

  function Found(fs: Files, d: Bytes): Disposition {
    if d in fs.content then PreexistingVerified else NewContent
  }

  lemma FreshLinks(db: Db, fs: Files, a: AttemptId, th: StoreThread, i: IntentId, d: Bytes)
    requires Starts(db, fs, a, th, i)
    ensures var s, files := th.staging, Written(fs, th.staging, d);
            && s !in fs.data && s !in fs.stage && s !in fs.quarantine && !Linked(fs, s)
            && (forall t :: t != s ==> LinkCount(files, t) == LinkCount(fs, t))
            && LinkCount(files, s) == 1
            && (d !in fs.content ==> LinkCount(LinkContent(files, s, d), s) == 2)
  {
    hide DbAgrees, BlobsBacked, IntentsStaged, PlanAgrees;
    var s, files := th.staging, Written(fs, th.staging, d);
    assert forall e :: e in fs.content ==> fs.content[e] != s;
    assert files.content == fs.content;
    forall t | t != s ensures LinkCount(files, t) == LinkCount(fs, t) { assert Linked(files, t) <==> Linked(fs, t); }
    if d !in fs.content {
      assert LinkContent(files, s, d).content[d] == s;
    }
  }

  /** The check of existing content lets a store go on exactly if no second name is in the way. */
  lemma Checks(db: Db, fs: Files, a: AttemptId, th: StoreThread, i: IntentId, d: Bytes)
    requires Starts(db, fs, a, th, i)
    ensures Turn(a, th, Move(db, Written(fs, th.staging, d), Some(Closed)), CheckExisting)
              == if Twinned(fs, d) then None else Some(Move(db, Written(fs, th.staging, d), Some(Checked(Found(fs, d)))))
  {
    FreshLinks(db, fs, a, th, i, d);
    ContentOf(db, fs, d);
    hide LinkCount, Starts;
  }

  lemma ContentOf(db: Db, fs: Files, d: Bytes)
    requires RowsAndFiles(db, fs)
    ensures d in fs.content ==> fs.content[d] in fs.data && fs.data[fs.content[d]] == d
  {
  }

  // ----- The rows -----

  function Seen(th: StoreThread, d: Bytes): Observation {
    Observation(d, th.draft, th.response)
  }

  function IntentFor(fs: Files, a: AttemptId, th: StoreThread, d: Bytes): Intent {
    Intent(a, th.staging, d, Found(fs, d), Seen(th, d))
  }

  function WithIntent(db: Db, fs: Files, a: AttemptId, th: StoreThread, i: IntentId, d: Bytes): Db {
    db.(installs := db.installs.(intents := db.installs.intents[i := IntentFor(fs, a, th, d)]))
  }

  lemma Prepares(db: Db, fs: Files, a: AttemptId, th: StoreThread, i: IntentId, d: Bytes)
    requires Starts(db, fs, a, th, i)
    ensures Turn(a, th, Move(db, Written(fs, th.staging, d), Some(Checked(Found(fs, d)))), Prepare(i))
              == Some(Move(WithIntent(db, fs, a, th, i, d), Written(fs, th.staging, d), Some(Prepared(i, Found(fs, d)))))
  {
    NoClash(db, fs, a, th, i, d);
    hide Starts, IntentClash, LinkCount;
  }

  lemma NoClash(db: Db, fs: Files, a: AttemptId, th: StoreThread, i: IntentId, d: Bytes)
    requires Starts(db, fs, a, th, i)
    ensures !IntentClash(db.installs, IntentFor(fs, a, th, d)) && i !in db.installs.intents && db.fence == Some(th.process)
    ensures a in db.evidence.attempts && db.evidence.attempts[a].staging == th.staging
  {
    hide EvidenceAgrees, CommitsBacked, ObservedCommitted, AbortsBacked, CleansCommitted, FilesAgree, BlobsBacked;
    var n := db.installs;
    forall j | j in n.intents ensures n.intents[j].attempt != a && n.intents[j].staging != th.staging {
      assert db.evidence.attempts[n.intents[j].attempt].staging == n.intents[j].staging;
    }
  }

  /** The files once the content is in place. */
  function Installed2(fs: Files, s: StagingId, d: Bytes): Files {
    if d in fs.content then Written(fs, s, d) else LinkContent(Written(fs, s, d), s, d)
  }

  lemma Places(db: Db, fs: Files, a: AttemptId, th: StoreThread, i: IntentId, d: Bytes, rows: Db)
    requires Starts(db, fs, a, th, i)
    ensures Turn(a, th, Move(rows, Written(fs, th.staging, d), Some(Prepared(i, Found(fs, d)))), Place)
              == Some(Move(rows, Installed2(fs, th.staging, d), Some(Placed(i))))
  {
    hide Starts, LinkCount;
  }

  lemma Verifies(db: Db, fs: Files, a: AttemptId, th: StoreThread, i: IntentId, d: Bytes, rows: Db)
    requires Starts(db, fs, a, th, i) && !Twinned(fs, d)
    ensures Turn(a, th, Move(rows, Installed2(fs, th.staging, d), Some(Placed(i))), VerifyInstalled)
              == Some(Move(rows, Installed2(fs, th.staging, d), Some(Verified(i))))
  {
    FreshLinks(db, fs, a, th, i, d);
    ContentOf(db, fs, d);
    hide LinkCount, Starts;
  }

  lemma Marks(db: Db, fs: Files, a: AttemptId, th: StoreThread, i: IntentId, d: Bytes, files: Files)
    requires Starts(db, fs, a, th, i)
    ensures var rows := WithIntent(db, fs, a, th, i, d);
            Turn(a, th, Move(rows, files, Some(Verified(i))), MarkInstalled) == Some(Move(SetMark(rows, i, ContentInstalled), files, Some(Installed(i))))
  {
  }

  /** What is on record after a store: the observation with its success, the blob, and a settled intent. */
  function Stored(db: Db, fs: Files, a: AttemptId, th: StoreThread, i: IntentId, d: Bytes): Db {
    var e := db.evidence;
    db.(evidence := e.(outcomes := e.outcomes[a := SUCCESS], observations := e.observations[a := Seen(th, d)],
                       blobs := if d in e.blobs then e.blobs else e.blobs[d := Retrieval]),
        installs := Installs(db.installs.intents[i := IntentFor(fs, a, th, d)],
                             db.installs.marks + {(i, ContentInstalled), (i, EvidenceCommitted), (i, StageCleaned)}))
  }

  function Observed(db: Db, fs: Files, a: AttemptId, th: StoreThread, i: IntentId, d: Bytes): Db {
    var full := Stored(db, fs, a, th, i, d);
    full.(installs := full.installs.(marks := db.installs.marks + {(i, ContentInstalled), (i, EvidenceCommitted)}))
  }

  lemma Unmarked(db: Db, fs: Files, a: AttemptId, th: StoreThread, i: IntentId)
    requires Starts(db, fs, a, th, i)
    ensures !Marked(db.installs, i, Aborted)
    ensures a in db.evidence.attempts && db.evidence.attempts[a].draft == th.draft && a !in db.evidence.observations
    ensures a in db.evidence.outcomes ==> !db.evidence.outcomes[a].kind.Succeeded?
    ensures db.fence == Some(th.process)
  {
    hide IntentsMatch, OneIntentEach, CommitsBacked, ObservedCommitted, CleansCommitted, FilesAgree, BlobsBacked, IntentsStaged, StagingUnique;
  }

  lemma Commits(db: Db, fs: Files, a: AttemptId, th: StoreThread, i: IntentId, d: Bytes, files: Files)
    requires Starts(db, fs, a, th, i)
    ensures var rows := SetMark(WithIntent(db, fs, a, th, i, d), i, ContentInstalled);
            Turn(a, th, Move(rows, files, Some(Installed(i))), Commit)
              == if a in db.evidence.outcomes then None else Some(Move(Observed(db, fs, a, th, i, d), files, Some(Committed(i))))
  {
    Unmarked(db, fs, a, th, i);
    hide Starts;
    var marks := db.installs.marks;
    assert marks + {(i, ContentInstalled)} + {(i, EvidenceCommitted)} == marks + {(i, ContentInstalled), (i, EvidenceCommitted)};
  }

  lemma Cleans(db: Db, fs: Files, a: AttemptId, th: StoreThread, i: IntentId, d: Bytes, files: Files)
    requires db.fence == Some(th.process)
    ensures Turn(a, th, Move(Observed(db, fs, a, th, i, d), files, Some(Removed(i))), MarkCleaned)
              == Some(Move(Stored(db, fs, a, th, i, d), files, None))
  {
    var marks := db.installs.marks;
    assert marks + {(i, ContentInstalled), (i, EvidenceCommitted)} + {(i, StageCleaned)}
        == marks + {(i, ContentInstalled), (i, EvidenceCommitted), (i, StageCleaned)};
  }

  // ----- All of it -----

  /** The files a store leaves: its content, and no staging name. */
  function FilesStored(fs: Files, s: StagingId, d: Bytes): Files {
    Files(fs.data[s := d], fs.stage - {s}, if d in fs.content then fs.content else fs.content[d := s], fs.quarantine)
  }

  lemma Removes(a: AttemptId, th: StoreThread, rows: Db, fs: Files, i: IntentId, d: Bytes)
    ensures Turn(a, th, Move(rows, Installed2(fs, th.staging, d), Some(Committed(i))), RemoveStage)
              == Some(Move(rows, FilesStored(fs, th.staging, d), Some(Removed(i))))
  {
    assert fs.stage + {th.staging} - {th.staging} == fs.stage - {th.staging};
  }

  lemma Creates(db: Db, fs: Files, a: AttemptId, th: StoreThread, i: IntentId)
    requires Starts(db, fs, a, th, i)
    ensures Turn(a, th, Move(db, fs, Some(Recorded)), CreateStage) == Some(Move(db, Written(fs, th.staging, []), Some(Writing)))
  {
    hide RowsAndFiles;
  }

  lemma Closes(db: Db, files: Files, a: AttemptId, th: StoreThread)
    ensures Turn(a, th, Move(db, files, Some(Writing)), CloseStage) == Some(Move(db, files, Some(Closed)))
  {
  }

  predicate Unhindered(db: Db, fs: Files, a: AttemptId, d: Bytes) {
    a !in db.evidence.outcomes && !Twinned(fs, d)
  }

  /** From the check of existing content to the end. */
  lemma Finishes(db: Db, fs: Files, a: AttemptId, th: StoreThread, i: IntentId, d: Bytes)
    requires Starts(db, fs, a, th, i)
    ensures Work(a, th, Move(db, Written(fs, th.staging, d), Some(Writing)),
                 [CloseStage, CheckExisting, Prepare(i), Place, VerifyInstalled, MarkInstalled, Commit, RemoveStage, MarkCleaned])
              == if Unhindered(db, fs, a, d) then Some(Move(Stored(db, fs, a, th, i, d), FilesStored(fs, th.staging, d), None)) else None
  {
    hide *;
    var s := th.staging;
    var staged, placed := Written(fs, s, d), Installed2(fs, s, d);
    var rows := WithIntent(db, fs, a, th, i, d);
    var marked, seen := SetMark(rows, i, ContentInstalled), Observed(db, fs, a, th, i, d);
    var r9: seq<StoreAct> := [MarkCleaned] + [];
    var r8 := [RemoveStage] + r9;
    var r7 := [Commit] + r8;
    var r6 := [MarkInstalled] + r7;
    var r5 := [VerifyInstalled] + r6;
    var r4 := [Place] + r5;
    var r3 := [Prepare(i)] + r4;
    var r2 := [CheckExisting] + r3;
    assert [CloseStage, CheckExisting, Prepare(i), Place, VerifyInstalled, MarkInstalled, Commit, RemoveStage, MarkCleaned] == [CloseStage] + r2;
    UnhinderedIs(db, fs, a, d);
    Closes(db, staged, a, th);
    WorkFirst(a, th, Move(db, staged, Some(Writing)), CloseStage, r2);
    Checks(db, fs, a, th, i, d);
    WorkFirst(a, th, Move(db, staged, Some(Closed)), CheckExisting, r3);
    if !Twinned(fs, d) {
      var found := Found(fs, d);
      Prepares(db, fs, a, th, i, d);
      WorkFirst(a, th, Move(db, staged, Some(Checked(found))), Prepare(i), r4);
      Places(db, fs, a, th, i, d, rows);
      WorkFirst(a, th, Move(rows, staged, Some(Prepared(i, found))), Place, r5);
      Verifies(db, fs, a, th, i, d, rows);
      WorkFirst(a, th, Move(rows, placed, Some(Placed(i))), VerifyInstalled, r6);
      Marks(db, fs, a, th, i, d, placed);
      WorkFirst(a, th, Move(rows, placed, Some(Verified(i))), MarkInstalled, r7);
      Commits(db, fs, a, th, i, d, placed);
      WorkFirst(a, th, Move(marked, placed, Some(Installed(i))), Commit, r8);
      if a !in db.evidence.outcomes {
        Unmarked(db, fs, a, th, i);
        Removes(a, th, seen, fs, i, d);
        WorkFirst(a, th, Move(seen, placed, Some(Committed(i))), RemoveStage, r9);
        Cleans(db, fs, a, th, i, d, FilesStored(fs, s, d));
        WorkFirst(a, th, Move(seen, FilesStored(fs, s, d), Some(Removed(i))), MarkCleaned, []);
        WorkNothing(a, th, Move(Stored(db, fs, a, th, i, d), FilesStored(fs, s, d), None));
      }
    }
  }

  lemma UnhinderedIs(db: Db, fs: Files, a: AttemptId, d: Bytes)
    ensures Unhindered(db, fs, a, d) <==> a !in db.evidence.outcomes && !Twinned(fs, d)
  {
  }

  lemma WorkNothing(a: AttemptId, th: StoreThread, m: State)
    ensures Work(a, th, m, []) == Some(m)
  {
  }

  lemma StoreWorks(db: Db, fs: Files, a: AttemptId, th: StoreThread, chunks: seq<Bytes>, i: IntentId)
    requires Starts(db, fs, a, th, i)
    ensures var d := Concat(chunks);
            Work(a, th, Move(db, fs, Some(Recorded)), StoreActs(chunks, i))
              == if Unhindered(db, fs, a, d) then Some(Move(Stored(db, fs, a, th, i, d), FilesStored(fs, th.staging, d), None)) else None
  {
    hide *;
    var last := [CloseStage, CheckExisting, Prepare(i), Place, VerifyInstalled, MarkInstalled, Commit, RemoveStage, MarkCleaned];
    ActsAre(chunks, i);
    Creates(db, fs, a, th, i);
    WorkFirst(a, th, Move(db, fs, Some(Recorded)), CreateStage, Writes(chunks) + last);
    WritesConcat(a, th, db, fs, chunks);
    WorkConcat(a, th, Move(db, Written(fs, th.staging, []), Some(Writing)), Writes(chunks), last);
    Finishes(db, fs, a, th, i, Concat(chunks));
  }

  lemma ActsAre(chunks: seq<Bytes>, i: IntentId)
    ensures StoreActs(chunks, i) == [CreateStage] + (Writes(chunks)
              + [CloseStage, CheckExisting, Prepare(i), Place, VerifyInstalled, MarkInstalled, Commit, RemoveStage, MarkCleaned])
  {
  }

  // ----- In the machine -----

  function Events(a: AttemptId, acts: seq<StoreAct>): (r: seq<Event>)
    ensures |r| == |acts| && forall j :: 0 <= j < |r| ==> r[j] == Store(a, acts[j])
  {
    seq(|acts|, j requires 0 <= j < |acts| => Store(a, acts[j]))
  }

  /** The world with this thread somewhere else. */
  function With(w: World, a: AttemptId, th: StoreThread, m: State): World {
    World(m.db, m.fs, if m.pc.None? then w.stores - {a} else w.stores[a := th.(pc := m.pc.value)], w.recoveries)
  }

  lemma TurnIsStep(w: World, a: AttemptId, th: StoreThread, m: State, act: StoreAct)
    ensures Step(With(w, a, th, m), Store(a, act)) == if Turn(a, th, m, act).None? then None else Some(With(w, a, th, Turn(a, th, m, act).value))
  {
    hide StoreMove;
    if m.pc.Some? && Turn(a, th, m, act).Some? {
      var next := Turn(a, th, m, act).value;
      assert w.stores[a := th.(pc := m.pc.value)] - {a} == w.stores - {a};
      if next.pc.Some? { assert w.stores[a := th.(pc := m.pc.value)][a := th.(pc := next.pc.value)] == w.stores[a := th.(pc := next.pc.value)]; }
    }
  }

  lemma {:induction false} WorkIsRun(w: World, a: AttemptId, th: StoreThread, m: State, acts: seq<StoreAct>)
    ensures Run(With(w, a, th, m), Events(a, acts)) == if Work(a, th, m, acts).None? then None else Some(With(w, a, th, Work(a, th, m, acts).value))
    decreases |acts|
  {
    hide Step, Turn, With;
    var es := Events(a, acts);
    if acts != [] {
      TurnIsStep(w, a, th, m, acts[0]);
      assert es[0] == Store(a, acts[0]) && es[1..] == Events(a, acts[1..]);
      var next := Turn(a, th, m, acts[0]);
      if next.Some? { WorkIsRun(w, a, th, next.value, acts[1..]); }
    }
  }

  // ----- From every state a run reaches -----

  predicate QuarantineKept(fs: Files) {
    fs.quarantine <= fs.data.Keys
  }

  lemma StepQuarantine(w: World, e: Event)
    requires Safe(w) && QuarantineKept(w.fs) && Step(w, e).Some?
    ensures QuarantineKept(Step(w, e).value.fs)
  {
    SafeParts(w);
    FilesOf(w.db, w.fs);
    hide Safe, RowsAndFiles, StoresAgree, RecoveriesAgree;
    match e
    case Store(a, act) => StoreQuarantine(w.db, w.fs, a, w.stores[a], act);
    case Recover(p, act) => RecoverQuarantine(w.db, w.fs, p, Alive(w, p), act);
    case _ => {}
  }

  lemma FilesOf(db: Db, fs: Files)
    requires RowsAndFiles(db, fs)
    ensures forall d :: d in fs.content ==> fs.content[d] in fs.data
    ensures fs.stage <= fs.data.Keys
  {
  }

  lemma StoreQuarantine(db: Db, fs: Files, a: AttemptId, th: StoreThread, act: StoreAct)
    requires QuarantineKept(fs) && StoreMove(db, fs, a, th, act).Some?
    ensures QuarantineKept(StoreMove(db, fs, a, th, act).value.fs)
  {
    hide HashFile, ThreadIntent, PrepareIntent, MarkIntent, CommitIntent, AbortIntent, FinishAttempt;
  }

  lemma RecoverQuarantine(db: Db, fs: Files, p: Process, pc: RecoveryPc, act: RecoveryAct)
    requires QuarantineKept(fs) && (forall d :: d in fs.content ==> fs.content[d] in fs.data) && RecoveryMove(db, fs, p, pc, act).Some?
    ensures QuarantineKept(RecoveryMove(db, fs, p, pc, act).value.fs)
  {
    hide HashFile, NextPending, PassDone, StagePlan, CommitIntent, AbortIntent, ApplyPlan, MarkIntent, InspectMove;
    if act.InspectStage? || act.InspectAttempt? || act.InspectContent? { InspectFiles(db, fs, act); }
  }

  lemma InspectFiles(db: Db, fs: Files, act: RecoveryAct)
    ensures InspectMove(db, fs, act).Some? ==> InspectMove(db, fs, act).value.fs == fs
  {
    hide HashFile, StagePlan;
  }

  lemma {:induction false} RunQuarantine(es: seq<Event>, n: nat)
    requires n <= |es| && Run(EMPTY_WORLD, es).Some? && CalmRun(es)
    ensures Run(EMPTY_WORLD, es[..n]).Some? && Safe(Run(EMPTY_WORLD, es[..n]).value) && QuarantineKept(Run(EMPTY_WORLD, es[..n]).value.fs)
  {
    hide Safe, Step, Calm, Fold;
    if n == 0 {
      assert es[..0] == [];
      EmptySafe();
      assert Fold(Step, EMPTY_WORLD, []) == Some(EMPTY_WORLD) by { RunNothing(); }
    } else {
      RunQuarantine(es, n - 1);
      FoldLast(Step, EMPTY_WORLD, es, n - 1);
      FoldConcat(Step, EMPTY_WORLD, es[..n], es[n..]);
      assert es[..n] + es[n..] == es && es[..n] == es[..n - 1] + [es[n - 1]];
      StepSafe(Run(EMPTY_WORLD, es[..n - 1]).value, es[n - 1]);
      StepQuarantine(Run(EMPTY_WORLD, es[..n - 1]).value, es[n - 1]);
    }
  }

  lemma RunNothing()
    ensures Fold(Step, EMPTY_WORLD, []) == Some(EMPTY_WORLD)
  {
  }

  /** The rows and files an undisturbed store has added, all else as it was. */
  predicate AddedByStore(w: World, a: AttemptId, i: IntentId, d: Bytes, next: World)
    requires a in w.stores
  {
    var th, e, f := w.stores[a], w.db.evidence, next.db.evidence;
    && next.fs == FilesStored(w.fs, th.staging, d)
    && f.attempts == e.attempts && f.outcomes == e.outcomes[a := SUCCESS]
    && f.observations == e.observations[a := Observation(d, th.draft, th.response)]
    && f.blobs == (if d in e.blobs then e.blobs else e.blobs[d := Retrieval])
    && i in next.db.installs.intents && next.db.installs.intents == w.db.installs.intents[i := next.db.installs.intents[i]]
    && next.db.installs.intents[i].attempt == a
    && next.db.installs.marks == w.db.installs.marks + {(i, ContentInstalled), (i, EvidenceCommitted), (i, StageCleaned)}
    && next.db.fence == w.db.fence && next.db.phase == w.db.phase && next.db.plan == w.db.plan
    && next.stores == w.stores - {a} && next.recoveries == w.recoveries
  }

  /**
    After every calm run, a store that has recorded its attempt and that nothing comes between goes through exactly
    if the attempt has not been ended meanwhile and content of these bytes, if there is any, has no second name. It
    then leaves one observation of all the bytes handed in, and nothing else changed.
   */
  lemma StoreAlone(es: seq<Event>, a: AttemptId, chunks: seq<Bytes>, i: IntentId)
    requires Run(EMPTY_WORLD, es).Some? && CalmRun(es)
    requires var w := Run(EMPTY_WORLD, es).value;
             a in w.stores && w.stores[a].pc == Recorded && w.db.fence == Some(w.stores[a].process) && i !in w.db.installs.intents
    ensures var w := Run(EMPTY_WORLD, es).value;
            var d, run := Concat(chunks), Run(w, Events(a, StoreActs(chunks, i)));
            && (run.Some? <==> a !in w.db.evidence.outcomes && !(d in w.fs.content && LinkCount(w.fs, w.fs.content[d]) > 1))
            && (run.Some? ==> AddedByStore(w, a, i, d, run.value))
  {
    hide Run, CalmRun, Safe, RowsAndFiles, ThreadAgrees, StoresAgree, RecoveriesAgree, Work, StoreActs, Concat, LinkCount, DbAgrees;
    assert es[..|es|] == es;
    RunQuarantine(es, |es|);
    var w := Run(EMPTY_WORLD, es).value;
    var th, d := w.stores[a], Concat(chunks);
    SafeParts(w);
    OwnThread(w, a);
    assert Starts(w.db, w.fs, a, th, i);
    StoreWorks(w.db, w.fs, a, th, chunks, i);
    assert w.stores[a := th.(pc := Recorded)] == w.stores;
    assert With(w, a, th, Move(w.db, w.fs, Some(Recorded))) == w;
    WorkIsRun(w, a, th, Move(w.db, w.fs, Some(Recorded)), StoreActs(chunks, i));
  }
}
