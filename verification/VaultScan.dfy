/**
  The content scan and the files it refuses: why the second hash of a refused file is the one thing the
  safety of the vault has to exclude.
 */
module VaultScan {
  import opened Base
  import opened VaultDatabase
  import opened VaultProtocol
  import opened VaultSafety
  import opened VaultConvergence
  import opened VaultPlans

  // ----- A refused file keeps its other name until its blob is recorded -----

  /** The content file still is a staging file or a quarantined one as well, or it is the content of a recorded blob. */
  predicate Explained(db: Db, fs: Files, d: Bytes) {
    d in fs.content && (fs.content[d] in fs.stage || fs.content[d] in fs.quarantine || d in db.evidence.blobs)
  }

  ghost predicate Explains(db: Db, fs: Files, next: Db, files: Files) {
    forall d :: Explained(db, fs, d) ==> Explained(next, files, d)
  }

  /** A change that takes no name away. */
  lemma NamesStay(db: Db, fs: Files, next: Db, files: Files)
    requires EvidenceGrows(db.evidence, next.evidence) && StageShrinks(fs, files) && fs.stage <= files.stage
    ensures Explains(db, fs, next, files)
  {
  }

  /** Taking away the staging name of a file that is quarantined, not linked, or recorded. */
  lemma NameGone(db: Db, fs: Files, s: StagingId)
    requires FilesAgree(fs)
    requires s in fs.quarantine || !Linked(fs, s) || (s in fs.data && fs.data[s] in db.evidence.blobs)
    ensures Explains(db, fs, db, RemoveStageFile(fs, s))
  {
    forall d | Explained(db, fs, d) ensures Explained(db, RemoveStageFile(fs, s), d) {
      if fs.content[d] == s { assert Linked(fs, s); }
    }
  }

  lemma CommittedRecorded(db: Db, fs: Files, i: IntentId)
    requires RowsAndFiles(db, fs) && i in db.installs.intents && Marked(db.installs, i, EvidenceCommitted)
    ensures var s := db.installs.intents[i].staging;
            s in fs.data && fs.data[s] in db.evidence.blobs
    ensures db.installs.intents[i].attempt in db.evidence.attempts
    ensures db.evidence.attempts[db.installs.intents[i].attempt].staging == db.installs.intents[i].staging
  {
  }

  lemma StoreExplains(db: Db, fs: Files, a: AttemptId, th: StoreThread, act: StoreAct)
    requires RowsAndFiles(db, fs) && ThreadAgrees(db, fs, a, th) && StoreMove(db, fs, a, th, act).Some?
    requires var m := StoreMove(db, fs, a, th, act).value; EvidenceGrows(db.evidence, m.db.evidence) && StageShrinks(fs, m.fs)
    ensures var m := StoreMove(db, fs, a, th, act).value; Explains(db, fs, m.db, m.fs)
  {
    hide RowsAndFiles, Explains, EvidenceGrows, StageShrinks, Linked;
    var m := StoreMove(db, fs, a, th, act).value;
    FilesOf(db, fs);
    if act.RemoveStage? {
      CommittedRecorded(db, fs, th.pc.id);
      NameGone(db, fs, th.staging);
    } else if act.RemoveFailed? {
      NameGone(db, fs, th.staging);
    } else {
      StoreKeepsStage(db, fs, a, th, act);
      NamesStay(db, fs, m.db, m.fs);
    }
  }

  lemma FilesOf(db: Db, fs: Files)
    requires RowsAndFiles(db, fs)
    ensures FilesAgree(fs)
  {
    hide DbAgrees, FilesAgree, BlobsBacked, IntentsStaged;
  }

  lemma StoreKeepsStage(db: Db, fs: Files, a: AttemptId, th: StoreThread, act: StoreAct)
    requires StoreMove(db, fs, a, th, act).Some? && !act.RemoveStage? && !act.RemoveFailed?
    ensures fs.stage <= StoreMove(db, fs, a, th, act).value.fs.stage
  {
    hide HashFile, ThreadIntent;
  }

  lemma RecoverExplains(db: Db, fs: Files, p: Process, pc: RecoveryPc, act: RecoveryAct)
    requires RowsAndFiles(db, fs) && RecoveryAgrees(db, fs, pc) && PcTidy(db.plan, fs, pc) && RecoveryMove(db, fs, p, pc, act).Some?
    requires var m := RecoveryMove(db, fs, p, pc, act).value; EvidenceGrows(db.evidence, m.db.evidence) && StageShrinks(fs, m.fs)
    ensures var m := RecoveryMove(db, fs, p, pc, act).value; Explains(db, fs, m.db, m.fs)
  {
    hide RowsAndFiles, Explains, EvidenceGrows, StageShrinks, Linked, InspectMove, NextPhaseDb;
    var m := RecoveryMove(db, fs, p, pc, act).value;
    FilesOf(db, fs);
    if act.RecoverRemove? {
      CommittedRecorded(db, fs, pc.id);
      NameGone(db, fs, db.installs.intents[pc.id].staging);
    } else if act.QuarantineRemove? {
      NameGone(db, fs, pc.plan.staging);
    } else {
      RecoverKeepsStage(db, fs, p, pc, act);
      NamesStay(db, fs, m.db, m.fs);
    }
  }

  lemma RecoverKeepsStage(db: Db, fs: Files, p: Process, pc: RecoveryPc, act: RecoveryAct)
    requires RecoveryMove(db, fs, p, pc, act).Some? && !act.RecoverRemove? && !act.QuarantineRemove?
    ensures RecoveryMove(db, fs, p, pc, act).value.fs.stage == fs.stage
  {
    hide HashFile, NextPending, NextPhaseDb, StagePlan;
  }

  lemma StepExplains(w: World, e: Event)
    requires Safe(w) && Tidy(w) && Step(w, e).Some? && Calm(e)
    ensures Explains(w.db, w.fs, Step(w, e).value.db, Step(w, e).value.fs)
  {
    hide Safe, Tidy, StoreMove, RecoveryMove, StageShrinks, EvidenceGrows, Explains, BeginStep, RowsAndFiles, ThreadAgrees, RecoveryAgrees, PcTidy;
    StepSafe(w, e);
    StepShrinks(w, e);
    GrowingRows(w.db, Step(w, e).value.db);
    match e
    case Store(a, act) => {
      SafeParts(w);
      OwnThread(w, a);
      StoreExplains(w.db, w.fs, a, w.stores[a], act);
    }
    case Recover(p, act) => {
      AliveAgrees(w, p);
      RecoverExplains(w.db, w.fs, p, Alive(w, p), act);
    }
    case Begin(p, a, row, response) => { BeginFiles(w, p, a, row, response); NamesStay(w.db, w.fs, Step(w, e).value.db, w.fs); }
    case _ => NamesStay(w.db, w.fs, Step(w, e).value.db, w.fs);
  }

  /** What a refusal says, however long ago the file was hashed. */
  predicate RefusalsExplained(w: World) {
    forall p :: p in w.recoveries && w.recoveries[p].ContentRefused? ==> Explained(w.db, w.fs, w.recoveries[p].digest)
  }

  /** A thread comes to hold a refusal only by hashing a file with two names. */
  lemma RefusedNow(db: Db, fs: Files, p: Process, pc: RecoveryPc, act: RecoveryAct, d: Bytes)
    requires RowsAndFiles(db, fs) && RecoveryMove(db, fs, p, pc, act).Some?
    requires RecoveryMove(db, fs, p, pc, act).value.pc == Some(ContentRefused(d))
    ensures Explained(RecoveryMove(db, fs, p, pc, act).value.db, RecoveryMove(db, fs, p, pc, act).value.fs, d)
  {
    hide RowsAndFiles, NextPending, NextPhaseDb, StagePlan, HashFile, MarkIntent, CommitIntent, AbortIntent, ApplyPlan;
    RefusedExactlyWhenTwinned(db, fs, d);
  }

  lemma StepRefusals(w: World, e: Event)
    requires Safe(w) && Tidy(w) && RefusalsExplained(w) && Step(w, e).Some? && Calm(e)
    ensures RefusalsExplained(Step(w, e).value)
  {
    hide Safe, Tidy, StoreMove, RecoveryMove, Explained, BeginStep, Calm;
    var next := Step(w, e).value;
    StepExplains(w, e);
    forall p | p in next.recoveries && next.recoveries[p].ContentRefused? ensures Explained(next.db, next.fs, next.recoveries[p].digest) {
      if !(p in w.recoveries && next.recoveries[p] == w.recoveries[p]) {
        RefusalIsNew(w, e, p);
        AliveAgrees(w, p);
        RefusedNow(w.db, w.fs, p, Alive(w, p), e.recovery, next.recoveries[p].digest);
      }
    }
  }

  lemma RefusalIsNew(w: World, e: Event, p: Process)
    requires Step(w, e).Some? && p in Step(w, e).value.recoveries
    requires !(p in w.recoveries && Step(w, e).value.recoveries[p] == w.recoveries[p])
    ensures e.Recover? && e.process == p && RecoveryMove(w.db, w.fs, p, Alive(w, p), e.recovery).Some?
    ensures var m := RecoveryMove(w.db, w.fs, p, Alive(w, p), e.recovery).value;
            Step(w, e).value.db == m.db && Step(w, e).value.fs == m.fs && m.pc == Some(Step(w, e).value.recoveries[p])
  {
    hide RecoveryMove, StoreMove;
  }

  lemma {:induction false} RunRefusals(w: World, es: seq<Event>)
    requires Safe(w) && Tidy(w) && RefusalsExplained(w) && Run(w, es).Some? && CalmRun(es)
    ensures RefusalsExplained(Run(w, es).value)
    decreases |es|
  {
    hide Safe, Tidy, Step, Calm, RefusalsExplained;
    if es != [] {
      StepSafe(w, es[0]);
      StepTidy(w, es[0]);
      StepRefusals(w, es[0]);
      RunRefusals(Step(w, es[0]).value, es[1..]);
    }
  }

  // ----- The second hash and what follows it -----

  /** The second hash goes through exactly when the file has lost its second name since the first. */
  lemma SecondHashExactly(w: World, p: Process, d: Bytes)
    requires Safe(w) && Alive(w, p) == ContentRefused(d) && d in w.fs.content
    ensures Step(w, Recover(p, HashAgain)).Some? <==> LinkCount(w.fs, w.fs.content[d]) <= 1
  {
    assert w.fs.content[d] in w.fs.data;
    hide Safe, LinkCount;
  }

  /** The steps after a second hash that went through, taken with nothing in between, lose the content of a recorded blob. */
  lemma SecondHashLosesContent(w: World, p: Process, d: Bytes)
    requires Safe(w) && Alive(w, p) == ContentRefused(d) && d in w.db.evidence.blobs
    requires w.db.fence == Some(p) && w.db.plan.None? && Step(w, Recover(p, HashAgain)).Some?
    ensures var es := [Recover(p, HashAgain), Recover(p, Persist), Recover(p, QuarantineLink), Recover(p, QuarantineRemove)];
            && Run(w, es).Some? && d in Run(w, es).value.db.evidence.blobs && d !in Run(w, es).value.fs.content
  {
    hide *;
    var db, fs := w.db, w.fs;
    AgainMoves(w, p, d);
    var plan := QuarantineContent(d, fs.content[d]);
    var held := db.(plan := Some(plan));
    var linked := fs.(quarantine := fs.quarantine + {fs.content[d]});
    var gone := linked.(content := linked.content - {d});
    AgainStep(w, p, d);
    MoveAt(w, p, db, fs, Planning(plan), Persist, held, fs, Holding(plan));
    MoveAt(w, p, held, fs, Holding(plan), QuarantineLink, held, linked, QuarantineLinked(plan));
    MoveAt(w, p, held, linked, QuarantineLinked(plan), QuarantineRemove, held, gone, SourceGone(plan));
    var es := [Recover(p, HashAgain), Recover(p, Persist), Recover(p, QuarantineLink), Recover(p, QuarantineRemove)];
    TraceRuns([w, At(w, p, db, fs, Planning(plan)), At(w, p, held, fs, Holding(plan)),
               At(w, p, held, linked, QuarantineLinked(plan)), At(w, p, held, gone, SourceGone(plan))], es);
    WorldAt(w, p, held, gone, SourceGone(plan));
  }

  lemma AgainMoves(w: World, p: Process, d: Bytes)
    requires Alive(w, p) == ContentRefused(d) && w.db.fence == Some(p) && w.db.plan.None? && Step(w, Recover(p, HashAgain)).Some?
    ensures d in w.fs.content
    ensures var plan := QuarantineContent(d, w.fs.content[d]);
            var held := w.db.(plan := Some(plan));
            var linked := w.fs.(quarantine := w.fs.quarantine + {w.fs.content[d]});
            var gone := linked.(content := linked.content - {d});
            && RecoveryMove(w.db, w.fs, p, Planning(plan), Persist) == Some(Move(held, w.fs, Some(Holding(plan))))
            && RecoveryMove(held, w.fs, p, Holding(plan), QuarantineLink) == Some(Move(held, linked, Some(QuarantineLinked(plan))))
            && RecoveryMove(held, linked, p, QuarantineLinked(plan), QuarantineRemove) == Some(Move(held, gone, Some(SourceGone(plan))))
  {
    hide HashFile;
  }

  lemma AgainStep(w: World, p: Process, d: Bytes)
    requires Alive(w, p) == ContentRefused(d) && d in w.fs.content && Step(w, Recover(p, HashAgain)).Some?
    ensures Step(w, Recover(p, HashAgain)) == Some(At(w, p, w.db, w.fs, Planning(QuarantineContent(d, w.fs.content[d]))))
  {
    hide HashFile;
  }

  lemma WorldAt(w: World, p: Process, db: Db, fs: Files, pc: RecoveryPc)
    ensures At(w, p, db, fs, pc).db == db && At(w, p, db, fs, pc).fs == fs
  {
  }

  /**
    After every calm run: where a refused file could be hashed again with success, it is the content of a
    recorded blob, and with no action pending the steps that follow lose it.
   */
  lemma SecondHashAlwaysLoses(es: seq<Event>, p: Process)
    requires Run(EMPTY_WORLD, es).Some? && CalmRun(es)
    requires var w := Run(EMPTY_WORLD, es).value;
             Alive(w, p).ContentRefused? && w.db.plan.None? && Step(w, Recover(p, HashAgain)).Some?
    ensures var w := Run(EMPTY_WORLD, es).value;
            var more := [Claim(p), Recover(p, HashAgain), Recover(p, Persist), Recover(p, QuarantineLink), Recover(p, QuarantineRemove)];
            Alive(w, p).digest in w.db.evidence.blobs
            && Run(w, more).Some? && !BlobsBacked(Run(w, more).value.db.evidence, Run(w, more).value.fs)
  {
    hide *;
    var w := Run(EMPTY_WORLD, es).value;
    var d := Alive(w, p).digest;
    EmptySafe();
    EmptyTidy();
    NothingRefused();
    RunTidy(EMPTY_WORLD, es);
    RunRefusals(EMPTY_WORLD, es);
    RefusedAndAlone(w, p, d);
    var taken := ClaimedFirst(w, p);
    StepSafe(w, Claim(p));
    SecondHashLosesContent(taken, p, d);
    var rest := [Recover(p, HashAgain), Recover(p, Persist), Recover(p, QuarantineLink), Recover(p, QuarantineRemove)];
    var more := [Claim(p), Recover(p, HashAgain), Recover(p, Persist), Recover(p, QuarantineLink), Recover(p, QuarantineRemove)];
    assert more == [Claim(p)] + rest && more[0] == Claim(p) && more[1..] == rest;
    RunFirst(w, more);
    LostBlob(Run(w, more).value, d);
  }

  lemma NothingRefused()
    ensures RefusalsExplained(EMPTY_WORLD)
  {
  }

  lemma RefusedAndAlone(w: World, p: Process, d: Bytes)
    requires Safe(w) && RefusalsExplained(w) && Alive(w, p) == ContentRefused(d) && Step(w, Recover(p, HashAgain)).Some?
    ensures d in w.db.evidence.blobs
  {
    assert Explained(w.db, w.fs, d);
    SecondHashExactly(w, p, d);
    hide Safe, Step;
    assert Linked(w.fs, w.fs.content[d]) by { assert w.fs.content[d] in w.fs.content.Values; }
  }

  lemma ClaimedFirst(w: World, p: Process) returns (taken: World)
    ensures Step(w, Claim(p)) == Some(taken) && Calm(Claim(p)) && taken == w.(db := w.db.(fence := Some(p)))
    ensures Alive(taken, p) == Alive(w, p) && taken.db.plan == w.db.plan && taken.db.fence == Some(p)
    ensures taken.db.evidence == w.db.evidence
    ensures Alive(w, p).ContentRefused? && Step(w, Recover(p, HashAgain)).Some? ==> Step(taken, Recover(p, HashAgain)).Some?
  {
    taken := w.(db := w.db.(fence := Some(p)));
    hide HashFile, InspectMove, IntentMove, PlanMove;
  }

  lemma RunFirst(w: World, es: seq<Event>)
    requires es != [] && Step(w, es[0]).Some?
    ensures Run(w, es) == Run(Step(w, es[0]).value, es[1..])
  {
    hide Step;
  }

  lemma LostBlob(w: World, d: Bytes)
    requires d in w.db.evidence.blobs && d !in w.fs.content
    ensures !BlobsBacked(w.db.evidence, w.fs)
  {
  }
}
