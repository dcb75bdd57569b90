/**
  Recovery of interrupted installs. From any state a crash can leave, one pass over the pending
  intents settles them all, or stops at an intent whose attempt was already given another outcome.
 */
module VaultRecovery {
  import opened Base
  import opened VaultDatabase
  import opened VaultProtocol
  import opened VaultRepository
  import opened VaultSafety

  /** The attempt has ended while its uncommitted intent is still pending. */
  predicate Conflicted(db: Db, i: IntentId) {
    && Pending(db.installs, i)
    && !Marked(db.installs, i, EvidenceCommitted)
    && db.installs.intents[i].attempt in db.evidence.outcomes
  }

  ghost predicate TwoLinks(fs: Files) {
    forall s :: LinkCount(fs, s) <= 2
  }

  /** The bytes of an intent can still be found. */
  predicate Present(n: Installs, fs: Files, i: IntentId)
    requires i in n.intents
  {
    n.intents[i].digest in fs.content || n.intents[i].staging in fs.stage
  }

  /** One intent, settled by a recovery that nothing interrupts. */
  function FinishOne(db: Db, fs: Files, p: Process, i: IntentId): Option<(Db, Files)>
    requires i in db.installs.intents
  {
    var intent := db.installs.intents[i];
    var content := HashFile(fs, ContentFile(fs, intent.digest), 2);
    var stage := HashFile(fs, StageFile(fs, intent.staging), 2);
    if content.Unsafe? || stage.Unsafe? then None
    else if content != Digest(intent.digest) && stage != Digest(intent.digest) then
      var aborted := AbortIntent(db, p, i, CONTENT_MISSING);
      if aborted.None? then None else Some((aborted.value, fs))
    else if content != Digest(intent.digest) && intent.digest in fs.content then None
    else
      var linked := if content == Digest(intent.digest) then fs else LinkContent(fs, intent.staging, intent.digest);
      var rows := Install(db, p, i);
      if rows.None? then None else Some((rows.value, RemoveStageFile(linked, intent.staging)))
  }

  /** The three transactions of a recovered install. */
  function Install(db: Db, p: Process, i: IntentId): Option<Db> {
    var installed := MarkIntent(db, p, i, ContentInstalled);
    if installed.None? then None
    else
      var committed := CommitIntent(installed.value, p, i);
      if committed.None? then None else MarkIntent(committed.value, p, i, StageCleaned)
  }

  // ----- What settling one intent does -----

  lemma HashesTell(db: Db, fs: Files, i: IntentId)
    requires RowsAndFiles(db, fs) && TwoLinks(fs) && i in db.installs.intents
    ensures var intent := db.installs.intents[i];
            && HashFile(fs, ContentFile(fs, intent.digest), 2) == (if intent.digest in fs.content then Digest(intent.digest) else Missing)
            && HashFile(fs, StageFile(fs, intent.staging), 2) == (if intent.staging in fs.stage then Digest(intent.digest) else Missing)
  {
    hide DbAgrees, BlobsBacked, LinkCount;
  }

  lemma LinksStayTwo(fs: Files, s: StagingId, d: Bytes)
    requires TwoLinks(fs)
    ensures TwoLinks(RemoveStageFile(fs, s))
    ensures d !in fs.content && s in fs.stage ==> TwoLinks(RemoveStageFile(LinkContent(fs, s, d), s))
  {
    forall t ensures LinkCount(RemoveStageFile(fs, s), t) <= 2 {
      assert LinkCount(fs, t) <= 2;
    }
    if d !in fs.content && s in fs.stage {
      var next := RemoveStageFile(LinkContent(fs, s, d), s);
      forall t ensures LinkCount(next, t) <= 2 {
        if t != s && Linked(next, t) {
          var e :| e in next.content && next.content[e] == t;
          assert e in fs.content && fs.content[e] == t;
          assert Linked(fs, t);
        }
        assert LinkCount(fs, t) <= 2;
      }
    }
  }

  predicate InstallMarks(n: Installs, m: Installs, i: IntentId) {
    && m.intents == n.intents
    && m.marks == n.marks + {(i, ContentInstalled), (i, EvidenceCommitted), (i, StageCleaned)}
  }

  /** A pending intent can be committed exactly when no other outcome stands in its way. */
  lemma InstallExact(db: Db, fs: Files, p: Process, i: IntentId)
    requires RowsAndFiles(db, fs) && InContent(db, fs, i) && db.fence == Some(p) && Pending(db.installs, i)
    ensures Install(db, p, i).Some? <==> !Conflicted(db, i)
    ensures Install(db, p, i).Some? ==>
              var next := Install(db, p, i).value;
              && RowsAndFiles(next, fs) && InstallMarks(db.installs, next.installs, i)
              && next.fence == db.fence && next.plan == db.plan && next.phase == db.phase
              && next.evidence.outcomes == db.evidence.outcomes[db.installs.intents[i].attempt := SUCCESS]
  {
    var installed := MarkIntent(db, p, i, ContentInstalled).value;
    MarkSafe(db, fs, p, i, ContentInstalled);
    CommitExact(installed, p, i);
    if CommitIntent(installed, p, i).Some? {
      CommitSafe(installed, fs, p, i);
      var committed := CommitIntent(installed, p, i).value;
      MarkSafe(committed, fs, p, i, StageCleaned);
    }
    hide RowsAndFiles, CommitIntent, Grows;
  }

  lemma CommitExact(db: Db, p: Process, i: IntentId)
    requires DbAgrees(db) && db.fence == Some(p) && Pending(db.installs, i)
    ensures CommitIntent(db, p, i).Some? <==> !Conflicted(db, i)
    ensures CommitIntent(db, p, i).Some? ==>
              var next := CommitIntent(db, p, i).value;
              && next.installs == Installs(db.installs.intents, db.installs.marks + {(i, EvidenceCommitted)})
              && next.fence == db.fence && next.plan == db.plan && next.phase == db.phase
              && next.evidence.outcomes == db.evidence.outcomes[db.installs.intents[i].attempt := SUCCESS]
  {
    var a := db.installs.intents[i].attempt;
    hide StagingUnique, OneIntentEach, AbortsBacked, CleansCommitted;
    if a in db.evidence.observations {
      assert db.evidence.outcomes[a].kind.Succeeded?;
    }
  }

  /** Only an abort for missing content leaves that outcome. */
  predicate AbortedAttempt(n: Installs, a: AttemptId) {
    exists i :: i in n.intents && n.intents[i].attempt == a && Marked(n, i, Aborted)
  }

  ghost predicate MissingMeansAborted(db: Db) {
    forall a :: a in db.evidence.outcomes && db.evidence.outcomes[a] == CONTENT_MISSING ==> AbortedAttempt(db.installs, a)
  }

  lemma CommittedPresent(db: Db, fs: Files, i: IntentId)
    requires RowsAndFiles(db, fs) && i in db.installs.intents && Marked(db.installs, i, EvidenceCommitted)
    ensures db.installs.intents[i].digest in fs.content
  {
  }

  lemma AbortExact(db: Db, fs: Files, p: Process, i: IntentId)
    requires RowsAndFiles(db, fs) && MissingMeansAborted(db) && db.fence == Some(p) && Pending(db.installs, i)
    requires !Present(db.installs, fs, i)
    ensures AbortIntent(db, p, i, CONTENT_MISSING).Some? <==> !Conflicted(db, i)
    ensures AbortIntent(db, p, i, CONTENT_MISSING).Some? ==>
              var next := AbortIntent(db, p, i, CONTENT_MISSING).value;
              && RowsAndFiles(next, fs)
              && next.installs == Installs(db.installs.intents, db.installs.marks + {(i, Aborted)})
              && next.fence == db.fence && next.plan == db.plan && next.phase == db.phase
              && next.evidence.outcomes == db.evidence.outcomes[db.installs.intents[i].attempt := CONTENT_MISSING]
  {
    var a := db.installs.intents[i].attempt;
    if Marked(db.installs, i, EvidenceCommitted) { CommittedPresent(db, fs, i); }
    hide RowsAndFiles;
    if AbortIntent(db, p, i, CONTENT_MISSING).Some? { AbortSafe(db, fs, p, i, CONTENT_MISSING); }
  }

  lemma MissingKept(db: Db, next: Db, i: IntentId, o: Outcome)
    requires MissingMeansAborted(db) && i in db.installs.intents
    requires next.installs.intents == db.installs.intents && db.installs.marks <= next.installs.marks
    requires next.evidence.outcomes == db.evidence.outcomes[db.installs.intents[i].attempt := o]
    requires o == CONTENT_MISSING ==> Marked(next.installs, i, Aborted)
    ensures MissingMeansAborted(next)
  {
    forall a | a in next.evidence.outcomes && next.evidence.outcomes[a] == CONTENT_MISSING ensures AbortedAttempt(next.installs, a) {
      if a == db.installs.intents[i].attempt && o == CONTENT_MISSING {
        assert next.installs.intents[i].attempt == a;
      } else {
        assert AbortedAttempt(db.installs, a);
        var j :| j in db.installs.intents && db.installs.intents[j].attempt == a && Marked(db.installs, j, Aborted);
        assert Marked(next.installs, j, Aborted);
      }
    }
  }

  ghost predicate Recovering(db: Db, fs: Files, p: Process) {
    RowsAndFiles(db, fs) && TwoLinks(fs) && MissingMeansAborted(db) && db.fence == Some(p) && db.plan.None?
  }

  /** The marks, files and outcome that settling `i` leaves. */
  ghost predicate SettledOne(db: Db, fs: Files, i: IntentId, next: Db, files: Files)
    requires i in db.installs.intents
  {
    var intent := db.installs.intents[i];
    && next.fence == db.fence && next.plan == db.plan && next.phase == db.phase
    && if Present(db.installs, fs, i) then
         && InstallMarks(db.installs, next.installs, i)
         && next.evidence.outcomes == db.evidence.outcomes[intent.attempt := SUCCESS]
         && files.stage == fs.stage - {intent.staging}
         && files.content.Keys == fs.content.Keys + {intent.digest}
       else
         && files == fs
         && next.installs == Installs(db.installs.intents, db.installs.marks + {(i, Aborted)})
         && next.evidence.outcomes == db.evidence.outcomes[intent.attempt := CONTENT_MISSING]
  }

  lemma FinishAbsent(db: Db, fs: Files, p: Process, i: IntentId)
    requires Recovering(db, fs, p) && Pending(db.installs, i) && !Present(db.installs, fs, i)
    ensures FinishOne(db, fs, p, i).Some? <==> !Conflicted(db, i)
    ensures FinishOne(db, fs, p, i).Some? ==>
              var (next, files) := FinishOne(db, fs, p, i).value;
              Recovering(next, files, p) && SettledOne(db, fs, i, next, files)
  {
    hide RowsAndFiles, TwoLinks, MissingMeansAborted, HashFile, AbortIntent, Install, Conflicted;
    HashesTell(db, fs, i);
    AbortExact(db, fs, p, i);
    if !Conflicted(db, i) { MissingKept(db, AbortIntent(db, p, i, CONTENT_MISSING).value, i, CONTENT_MISSING); }
  }

  lemma FinishPresent(db: Db, fs: Files, p: Process, i: IntentId)
    requires Recovering(db, fs, p) && Pending(db.installs, i) && Present(db.installs, fs, i)
    ensures FinishOne(db, fs, p, i).Some? <==> !Conflicted(db, i)
    ensures FinishOne(db, fs, p, i).Some? ==>
              var (next, files) := FinishOne(db, fs, p, i).value;
              Recovering(next, files, p) && SettledOne(db, fs, i, next, files)
  {
    hide *;
    RecoveringParts(db, fs, p, i);
    var intent := db.installs.intents[i];
    var linked := if intent.digest in fs.content then fs else LinkContent(fs, intent.staging, intent.digest);
    var files := RemoveStageFile(linked, intent.staging);
    FinishPresentIs(db, fs, p, i);
    LinkedForInstall(db, fs, i);
    InstallExact(db, linked, p, i);
    if !Conflicted(db, i) {
      var next := Install(db, p, i).value;
      InstallMissingKept(db, next, i);
      RemoveNameSafe(next, linked, intent.staging);
      LinksStayTwo(fs, intent.staging, intent.digest);
      FilesAfter(fs, intent.staging, intent.digest);
      PresentSettled(db, fs, p, i, next, files);
    }
  }

  lemma RecoveringParts(db: Db, fs: Files, p: Process, i: IntentId)
    requires Recovering(db, fs, p) && Pending(db.installs, i)
    ensures i in db.installs.intents && db.fence == Some(p) && db.plan.None?
    ensures RowsAndFiles(db, fs) && TwoLinks(fs) && MissingMeansAborted(db)
  {
    hide RowsAndFiles, TwoLinks, MissingMeansAborted;
  }

  /** Where the bytes can be found, finishing installs them and removes the staging name. */
  lemma FinishPresentIs(db: Db, fs: Files, p: Process, i: IntentId)
    requires RowsAndFiles(db, fs) && TwoLinks(fs) && i in db.installs.intents && Present(db.installs, fs, i)
    ensures var intent := db.installs.intents[i];
            var linked := if intent.digest in fs.content then fs else LinkContent(fs, intent.staging, intent.digest);
            && (intent.digest in fs.content || intent.staging in fs.stage)
            && FinishOne(db, fs, p, i) ==
               if Install(db, p, i).None? then None else Some((Install(db, p, i).value, RemoveStageFile(linked, intent.staging)))
  {
    hide RowsAndFiles, TwoLinks, HashFile, AbortIntent, Install, LinkContent, RemoveStageFile;
    HashesTell(db, fs, i);
  }

  lemma PresentSettled(db: Db, fs: Files, p: Process, i: IntentId, next: Db, files: Files)
    requires i in db.installs.intents && Present(db.installs, fs, i) && db.fence == Some(p) && db.plan.None?
    requires RowsAndFiles(next, files) && TwoLinks(files) && MissingMeansAborted(next)
    requires InstallMarks(db.installs, next.installs, i)
    requires next.fence == db.fence && next.plan == db.plan && next.phase == db.phase
    requires next.evidence.outcomes == db.evidence.outcomes[db.installs.intents[i].attempt := SUCCESS]
    requires files.stage == fs.stage - {db.installs.intents[i].staging}
    requires files.content.Keys == fs.content.Keys + {db.installs.intents[i].digest}
    ensures Recovering(next, files, p) && SettledOne(db, fs, i, next, files)
  {
    hide RowsAndFiles, TwoLinks, MissingMeansAborted, InstallMarks;
  }

  /** Settling an intent succeeds exactly when it is not in conflict, whatever the crash left of it. */
  lemma FinishOneExact(db: Db, fs: Files, p: Process, i: IntentId)
    requires Recovering(db, fs, p) && Pending(db.installs, i)
    ensures FinishOne(db, fs, p, i).Some? <==> !Conflicted(db, i)
    ensures FinishOne(db, fs, p, i).Some? ==>
              var (next, files) := FinishOne(db, fs, p, i).value;
              Recovering(next, files, p) && SettledOne(db, fs, i, next, files)
  {
    hide Recovering, FinishOne, SettledOne, Conflicted;
    if Present(db.installs, fs, i) { FinishPresent(db, fs, p, i); } else { FinishAbsent(db, fs, p, i); }
  }

  lemma InstallMissingKept(db: Db, next: Db, i: IntentId)
    requires MissingMeansAborted(db) && i in db.installs.intents && InstallMarks(db.installs, next.installs, i)
    requires next.evidence.outcomes == db.evidence.outcomes[db.installs.intents[i].attempt := SUCCESS]
    ensures MissingMeansAborted(next)
  {
    MissingKept(db, next, i, SUCCESS);
  }

  lemma LinkedForInstall(db: Db, fs: Files, i: IntentId)
    requires RowsAndFiles(db, fs) && i in db.installs.intents && Present(db.installs, fs, i)
    ensures var intent := db.installs.intents[i];
            var linked := if intent.digest in fs.content then fs else LinkContent(fs, intent.staging, intent.digest);
            RowsAndFiles(db, linked) && InContent(db, linked, i)
  {
    hide RowsAndFiles;
    if db.installs.intents[i].digest !in fs.content { RecoveryLinkSafe(db, fs, i); }
  }

  lemma FilesAfter(fs: Files, s: StagingId, d: Bytes)
    ensures var linked := if d in fs.content then fs else LinkContent(fs, s, d);
            && RemoveStageFile(linked, s).stage == fs.stage - {s}
            && RemoveStageFile(linked, s).content.Keys == fs.content.Keys + {d}
  {
  }

  // ----- The pass over all pending intents -----

  /** An intent the pass has met, beyond the key it started at, has linked these bytes from its staging file. */
  predicate LinkedBy(db: Db, fs: Files, from: int, after: int, d: Bytes) {
    exists j :: j in db.installs.intents && from < j <= after && Pending(db.installs, j)
                && db.installs.intents[j].digest == d && db.installs.intents[j].staging in fs.stage
  }

  /** The bytes are in content, or in the staging file of this or an earlier pending intent of the same pass. */
  predicate Recoverable(db: Db, fs: Files, from: int, i: IntentId)
    requires i in db.installs.intents
  {
    db.installs.intents[i].digest in fs.content || LinkedBy(db, fs, from, i, db.installs.intents[i].digest)
  }

  predicate SameMarks(n: Installs, m: Installs, i: IntentId) {
    forall k: Mark :: Marked(m, i, k) == Marked(n, i, k)
  }

  predicate SameOutcome(e: Evidence, f: Evidence, a: AttemptId) {
    a in e.outcomes <==> a in f.outcomes
  }

  /** How a pending intent ends: committed and cleaned, or aborted for missing content. */
  predicate EndsAs(db: Db, i: IntentId, committed: bool)
    requires i in db.installs.intents
  {
    && Marked(db.installs, i, EvidenceCommitted) == committed
    && Marked(db.installs, i, StageCleaned) == committed
    && Marked(db.installs, i, Aborted) == !committed
    && db.installs.intents[i].attempt in db.evidence.outcomes
    && db.evidence.outcomes[db.installs.intents[i].attempt] == if committed then SUCCESS else CONTENT_MISSING
  }

  ghost predicate EndedUpTo(db: Db, fs: Files, next: Db, from: int, after: int)
    requires next.installs.intents == db.installs.intents
  {
    forall i :: i in db.installs.intents && from < i <= after && Pending(db.installs, i) ==> EndsAs(next, i, Recoverable(db, fs, from, i))
  }

  ghost predicate MarksBeyond(db: Db, next: Db, from: int, after: int) {
    forall i :: i in db.installs.intents && (after < i || i <= from || !Pending(db.installs, i)) ==> SameMarks(db.installs, next.installs, i)
  }

  ghost predicate AsFoundBeyond(db: Db, fs: Files, next: Db, files: Files, after: int) {
    forall i :: i in db.installs.intents && after < i ==>
      && SameOutcome(db.evidence, next.evidence, db.installs.intents[i].attempt)
      && (db.installs.intents[i].staging in files.stage <==> db.installs.intents[i].staging in fs.stage)
  }

  ghost predicate ContentUpTo(db: Db, fs: Files, files: Files, from: int, after: int) {
    forall d :: d in files.content <==> d in fs.content || LinkedBy(db, fs, from, after, d)
  }

  /** What a pass that started at the key `from` has done when it has dealt with every intent up to `after`. */
  ghost predicate Progress(db: Db, fs: Files, next: Db, files: Files, from: int, after: int) {
    && from <= after
    && next.installs.intents == db.installs.intents
    && EndedUpTo(db, fs, next, from, after)
    && MarksBeyond(db, next, from, after)
    && AsFoundBeyond(db, fs, next, files, after)
    && ContentUpTo(db, fs, files, from, after)
  }

  ghost predicate IntentsDistinct(n: Installs) {
    forall i, j {:trigger n.intents[i], n.intents[j]} :: i in n.intents && j in n.intents && i != j ==>
      n.intents[i].attempt != n.intents[j].attempt && n.intents[i].staging != n.intents[j].staging
  }

  lemma DistinctStagings(db: Db)
    requires DbAgrees(db)
    ensures IntentsDistinct(db.installs)
  {
    var n := db.installs;
    forall i, j {:trigger n.intents[i], n.intents[j]} | i in n.intents && j in n.intents && i != j
      ensures n.intents[i].attempt != n.intents[j].attempt && n.intents[i].staging != n.intents[j].staging {
      assert db.evidence.attempts[n.intents[i].attempt].staging == n.intents[i].staging;
      assert db.evidence.attempts[n.intents[j].attempt].staging == n.intents[j].staging;
    }
  }

  /** The next intent still is as the pass found it. */
  lemma NextAsFound(db: Db, fs: Files, mid: Db, files: Files, from: int, after: int, i: IntentId)
    requires Progress(db, fs, mid, files, from, after) && NextPending(mid.installs, after, i)
    ensures i in db.installs.intents && Pending(db.installs, i)
    ensures Conflicted(mid, i) <==> Conflicted(db, i)
    ensures Present(mid.installs, files, i) <==> Recoverable(db, fs, from, i)
    ensures forall d :: LinkedBy(db, fs, from, i, d) <==>
              LinkedBy(db, fs, from, after, d) || (db.installs.intents[i].digest == d && db.installs.intents[i].staging in fs.stage)
  {
    assert SameMarks(db.installs, mid.installs, i);
    assert Marked(mid.installs, i, StageCleaned) == Marked(db.installs, i, StageCleaned);
    assert Marked(mid.installs, i, Aborted) == Marked(db.installs, i, Aborted);
    assert Marked(mid.installs, i, EvidenceCommitted) == Marked(db.installs, i, EvidenceCommitted);
    assert SameOutcome(db.evidence, mid.evidence, db.installs.intents[i].attempt);
    forall d ensures LinkedBy(db, fs, from, i, d) <==>
              LinkedBy(db, fs, from, after, d) || (db.installs.intents[i].digest == d && db.installs.intents[i].staging in fs.stage) {
      forall j | j in db.installs.intents && after < j < i ensures !Pending(db.installs, j) {
        assert SameMarks(db.installs, mid.installs, j);
        assert Marked(mid.installs, j, StageCleaned) == Marked(db.installs, j, StageCleaned);
        assert Marked(mid.installs, j, Aborted) == Marked(db.installs, j, Aborted);
      }
    }
  }

  lemma MarksAfter(n: Installs, m: Installs, i: IntentId, j: IntentId)
    requires j != i
    requires InstallMarks(n, m, i) || m == Installs(n.intents, n.marks + {(i, Aborted)})
    ensures SameMarks(n, m, j)
  {
  }

  lemma SettledEnds(mid: Db, files: Files, i: IntentId, next: Db, nextFiles: Files)
    requires Pending(mid.installs, i) && SettledOne(mid, files, i, next, nextFiles)
    requires !Present(mid.installs, files, i) ==> !Marked(mid.installs, i, EvidenceCommitted)
    ensures next.installs.intents == mid.installs.intents && EndsAs(next, i, Present(mid.installs, files, i))
    ensures forall j :: j != i ==> SameMarks(mid.installs, next.installs, j)
    ensures forall a :: a != mid.installs.intents[i].attempt ==>
              && SameOutcome(mid.evidence, next.evidence, a)
              && (a in mid.evidence.outcomes ==> next.evidence.outcomes[a] == mid.evidence.outcomes[a])
    ensures forall s :: s != mid.installs.intents[i].staging ==> (s in nextFiles.stage <==> s in files.stage)
    ensures forall d :: d in nextFiles.content <==>
              d in files.content || (mid.installs.intents[i].staging in files.stage && d == mid.installs.intents[i].digest)
  {
    forall j | j != i ensures SameMarks(mid.installs, next.installs, j) {
      MarksAfter(mid.installs, next.installs, i, j);
    }
    forall d ensures d in nextFiles.content <==>
              d in files.content || (mid.installs.intents[i].staging in files.stage && d == mid.installs.intents[i].digest) {
      assert d in nextFiles.content <==> d in nextFiles.content.Keys;
    }
  }

  lemma EndsKept(mid: Db, next: Db, j: IntentId, committed: bool)
    requires j in mid.installs.intents && next.installs.intents == mid.installs.intents && EndsAs(mid, j, committed)
    requires SameMarks(mid.installs, next.installs, j)
    requires var a := mid.installs.intents[j].attempt;
             a in next.evidence.outcomes && a in mid.evidence.outcomes && next.evidence.outcomes[a] == mid.evidence.outcomes[a]
    ensures EndsAs(next, j, committed)
  {
    assert forall k: Mark :: Marked(next.installs, j, k) == Marked(mid.installs, j, k);
  }

  lemma SameMarksOn(n: Installs, m: Installs, l: Installs, j: IntentId)
    requires SameMarks(n, m, j) && SameMarks(m, l, j)
    ensures SameMarks(n, l, j)
  {
    forall k: Mark ensures Marked(l, j, k) == Marked(n, j, k) {
      assert Marked(m, j, k) == Marked(n, j, k);
    }
  }

  lemma EndedKept(db: Db, fs: Files, mid: Db, next: Db, from: int, after: int, i: IntentId)
    requires next.installs.intents == mid.installs.intents == db.installs.intents
    requires from <= after && EndedUpTo(db, fs, mid, from, after) && MarksBeyond(db, mid, from, after) && NextPending(mid.installs, after, i)
    requires IntentsDistinct(mid.installs) && EndsAs(next, i, Recoverable(db, fs, from, i))
    requires forall j :: j != i ==> SameMarks(mid.installs, next.installs, j)
    requires forall a :: a != mid.installs.intents[i].attempt ==>
               && SameOutcome(mid.evidence, next.evidence, a)
               && (a in mid.evidence.outcomes ==> next.evidence.outcomes[a] == mid.evidence.outcomes[a])
    ensures EndedUpTo(db, fs, next, from, i) && MarksBeyond(db, next, from, i)
  {
    var ins := db.installs.intents;
    hide EndsAs, Recoverable, SameMarks;
    forall j | j in ins && from < j <= i && Pending(db.installs, j) ensures EndsAs(next, j, Recoverable(db, fs, from, j)) {
      if j != i {
        StillUntouched(db, mid, after, i, j);
        EndedOutcome(mid, j, Recoverable(db, fs, from, j));
        assert mid.installs.intents[j].attempt != mid.installs.intents[i].attempt;
        EndsKept(mid, next, j, Recoverable(db, fs, from, j));
      }
    }
    forall j | j in ins && (i < j || j <= from || !Pending(db.installs, j)) ensures SameMarks(db.installs, next.installs, j) {
      assert j != i by { if j == i { StillPending(db, mid, i); } }
      SameMarksOn(db.installs, mid.installs, next.installs, j);
    }
  }

  lemma StillPending(db: Db, mid: Db, i: IntentId)
    requires i in db.installs.intents && mid.installs.intents == db.installs.intents
    requires SameMarks(db.installs, mid.installs, i)
    ensures Pending(mid.installs, i) <==> Pending(db.installs, i)
  {
    assert Marked(mid.installs, i, StageCleaned) == Marked(db.installs, i, StageCleaned);
    assert Marked(mid.installs, i, Aborted) == Marked(db.installs, i, Aborted);
  }

  lemma FoundKept(db: Db, fs: Files, mid: Db, files: Files, next: Db, nextFiles: Files, after: int, i: IntentId)
    requires mid.installs.intents == db.installs.intents
    requires AsFoundBeyond(db, fs, mid, files, after) && NextPending(mid.installs, after, i) && IntentsDistinct(mid.installs)
    requires forall a :: a != mid.installs.intents[i].attempt ==> SameOutcome(mid.evidence, next.evidence, a)
    requires forall s :: s != mid.installs.intents[i].staging ==> (s in nextFiles.stage <==> s in files.stage)
    ensures AsFoundBeyond(db, fs, next, nextFiles, i)
  {
    forall j | j in db.installs.intents && i < j
      ensures SameOutcome(db.evidence, next.evidence, db.installs.intents[j].attempt)
      ensures db.installs.intents[j].staging in nextFiles.stage <==> db.installs.intents[j].staging in fs.stage {
      assert mid.installs.intents[j].attempt != mid.installs.intents[i].attempt;
      assert SameOutcome(mid.evidence, next.evidence, db.installs.intents[j].attempt);
      assert SameOutcome(db.evidence, mid.evidence, db.installs.intents[j].attempt);
    }
  }

  lemma ProgressKept(db: Db, fs: Files, mid: Db, files: Files, next: Db, nextFiles: Files, from: int, after: int, i: IntentId)
    requires Progress(db, fs, mid, files, from, after) && NextPending(mid.installs, after, i)
    requires IntentsDistinct(mid.installs) && SettledOne(mid, files, i, next, nextFiles)
    requires !Present(mid.installs, files, i) ==> !Marked(mid.installs, i, EvidenceCommitted)
    ensures Progress(db, fs, next, nextFiles, from, i)
  {
    NextAsFound(db, fs, mid, files, from, after, i);
    SettledEnds(mid, files, i, next, nextFiles);
    hide EndsAs, Recoverable, LinkedBy, SameMarks, SameOutcome, SettledOne, Present, Conflicted, EndedUpTo, MarksBeyond, AsFoundBeyond, IntentsDistinct;
    EndedKept(db, fs, mid, next, from, after, i);
    FoundKept(db, fs, mid, files, next, nextFiles, after, i);
    StagingAsFound(db, fs, mid, files, after, i);
  }

  lemma StagingAsFound(db: Db, fs: Files, mid: Db, files: Files, after: int, i: IntentId)
    requires AsFoundBeyond(db, fs, mid, files, after) && i in db.installs.intents && after < i
    ensures db.installs.intents[i].staging in files.stage <==> db.installs.intents[i].staging in fs.stage
  {
  }

  lemma EndedOutcome(db: Db, j: IntentId, committed: bool)
    requires j in db.installs.intents && EndsAs(db, j, committed)
    ensures db.installs.intents[j].attempt in db.evidence.outcomes
  {
  }

  /** No pending intent lies strictly between the key and the next one. */
  lemma StillUntouched(db: Db, mid: Db, after: int, i: IntentId, j: IntentId)
    requires NextPending(mid.installs, after, i) && j in db.installs.intents && j < i && Pending(db.installs, j)
    requires mid.installs.intents == db.installs.intents
    requires after < j ==> SameMarks(db.installs, mid.installs, j)
    ensures j <= after
  {
    assert after < j ==> Marked(mid.installs, j, StageCleaned) == Marked(db.installs, j, StageCleaned);
    assert after < j ==> Marked(mid.installs, j, Aborted) == Marked(db.installs, j, Aborted);
  }

  lemma ProgressStart(db: Db, fs: Files, from: int)
    ensures Progress(db, fs, db, fs, from, from) && OutcomesBehind(db, db.evidence, from)
  {
    forall i ensures SameMarks(db.installs, db.installs, i) {
    }
  }

  /** The intents the pass has still to look at. */
  function Beyond(n: Installs, after: int): set<IntentId> {
    set i | i in n.intents && after < i
  }

  lemma BeyondFalls(n: Installs, after: int, i: IntentId)
    requires i in n.intents && after < i
    ensures Beyond(n, i) < Beyond(n, after)
  {
    assert i in Beyond(n, after) && i !in Beyond(n, i);
  }

  /** One iteration keeps everything the pass relies on. */
  lemma IterationKept(db: Db, fs: Files, mid: Db, files: Files, p: Process, from: int, after: int, i: IntentId)
    requires Recovering(mid, files, p) && Progress(db, fs, mid, files, from, after) && NextPending(mid.installs, after, i)
    requires OutcomesBehind(db, mid.evidence, from)
    ensures i in db.installs.intents && Pending(db.installs, i)
    ensures FinishOne(mid, files, p, i).Some? <==> !Conflicted(db, i)
    ensures FinishOne(mid, files, p, i).Some? ==>
              var (next, nextFiles) := FinishOne(mid, files, p, i).value;
              && Recovering(next, nextFiles, p) && Progress(db, fs, next, nextFiles, from, i) && next.phase == mid.phase
              && OutcomesBehind(db, next.evidence, from)
  {
    hide FinishOne, Progress, Conflicted, Present, OutcomesBehind, SettledOne, Recovering;
    KeysInOrder(db, fs, mid, files, from, after);
    FinishOneExact(mid, files, p, i);
    NextAsFound(db, fs, mid, files, from, after, i);
    if FinishOne(mid, files, p, i).Some? {
      var (next, nextFiles) := FinishOne(mid, files, p, i).value;
      SettledPhase(mid, files, i, next, nextFiles);
      RecoveringDistinct(mid, files, p);
      AbsentUncommitted(mid, files, p, i);
      ProgressKept(db, fs, mid, files, next, nextFiles, from, after, i);
      OutcomesBehindKept(db, mid, files, next, nextFiles, from, i);
    }
  }

  lemma LeaseHeld(db: Db, fs: Files, p: Process)
    requires Recovering(db, fs, p)
    ensures db.fence == Some(p) && db.plan.None?
  {
    hide RowsAndFiles, TwoLinks, MissingMeansAborted;
  }

  lemma KeysInOrder(db: Db, fs: Files, mid: Db, files: Files, from: int, after: int)
    requires Progress(db, fs, mid, files, from, after)
    ensures from <= after && mid.installs.intents == db.installs.intents
  {
  }

  lemma SettledPhase(db: Db, fs: Files, i: IntentId, next: Db, files: Files)
    requires i in db.installs.intents && SettledOne(db, fs, i, next, files)
    ensures next.phase == db.phase
  {
  }

  lemma RecoveringDistinct(db: Db, fs: Files, p: Process)
    requires Recovering(db, fs, p)
    ensures IntentsDistinct(db.installs)
  {
    DistinctStagings(db);
  }

  lemma AbsentUncommitted(db: Db, fs: Files, p: Process, i: IntentId)
    requires Recovering(db, fs, p) && i in db.installs.intents
    ensures !Present(db.installs, fs, i) ==> !Marked(db.installs, i, EvidenceCommitted)
  {
    if Marked(db.installs, i, EvidenceCommitted) { CommittedPresent(db, fs, i); }
  }

  /** Between the key and the next pending intent nothing was in conflict. */
  lemma Unconflicted(db: Db, fs: Files, mid: Db, files: Files, from: int, after: int, i: IntentId)
    requires Progress(db, fs, mid, files, from, after) && NextPending(mid.installs, after, i)
    ensures forall j :: j in db.installs.intents && after < j < i ==> !Conflicted(db, j)
  {
    forall j | j in db.installs.intents && after < j < i ensures !Conflicted(db, j) {
      if Pending(db.installs, j) { StillUntouched(db, mid, after, i, j); }
    }
  }

  lemma HeadKept(db: Db, fs: Files, next: Db, files: Files, p: Process, phase: Phase, from: int, after: int)
    requires Recovering(next, files, p) && Progress(db, fs, next, files, from, after)
    ensures Recovering(next.(phase := phase), files, p) && Progress(db, fs, next.(phase := phase), files, from, after)
  {
    PhaseSafe(next, files, phase);
    hide RowsAndFiles, EndsAs, Recoverable, LinkedBy, SameMarks, TwoLinks, IntentFree, Grows;
    forall i | i in db.installs.intents && from < i <= after && Pending(db.installs, i)
      ensures EndsAs(next.(phase := phase), i, Recoverable(db, fs, from, i)) {
      EndsPhase(next, i, Recoverable(db, fs, from, i), phase);
    }
  }

  lemma EndsPhase(db: Db, i: IntentId, committed: bool, phase: Phase)
    requires i in db.installs.intents && EndsAs(db, i, committed)
    ensures EndsAs(db.(phase := phase), i, committed)
  {
  }

  lemma PassSettled(db: Db, fs: Files, next: Db, files: Files, from: int, after: int)
    requires Progress(db, fs, next, files, from, after) && PassDone(next.installs, after)
    requires forall i :: i in db.installs.intents && from < i <= after ==> !Conflicted(db, i)
    ensures forall i :: i in db.installs.intents && from < i ==> !Conflicted(db, i)
    ensures forall i :: i in db.installs.intents ==> (Pending(next.installs, i) <==> i <= from && Pending(db.installs, i))
    ensures forall i :: i in db.installs.intents && from < i && Pending(db.installs, i) ==>
              EndsAs(next, i, Recoverable(db, fs, from, i))
  {
    hide Recoverable, LinkedBy;
    forall i | i in db.installs.intents
      ensures from < i ==> !Conflicted(db, i)
      ensures Pending(next.installs, i) <==> i <= from && Pending(db.installs, i)
      ensures from < i && Pending(db.installs, i) ==> EndsAs(next, i, Recoverable(db, fs, from, i)) {
      if after < i || i <= from || !Pending(db.installs, i) { StillPending(db, next, i); }
    }
  }

  /** What the pass leaves behind its key is as it was, conflicts included. */
  lemma BehindKept(db: Db, fs: Files, next: Db, files: Files, from: int, after: int, i: IntentId)
    requires Progress(db, fs, next, files, from, after) && i in db.installs.intents && i <= from
    requires OutcomesBehind(db, next.evidence, from)
    ensures Conflicted(next, i) <==> Conflicted(db, i)
  {
    hide EndedUpTo, AsFoundBeyond, ContentUpTo;
    assert SameMarks(db.installs, next.installs, i);
    assert Marked(next.installs, i, EvidenceCommitted) == Marked(db.installs, i, EvidenceCommitted);
    StillPending(db, next, i);
    assert SameOutcome(db.evidence, next.evidence, db.installs.intents[i].attempt);
  }

  /** The phase is no part of what makes an intent pending, conflicted or ended. */
  lemma PhaseBlind(db: Db, phase: Phase)
    ensures forall i :: Conflicted(db.(phase := phase), i) <==> Conflicted(db, i)
    ensures forall i, c :: i in db.installs.intents ==> EndsAs(db.(phase := phase), i, c) == EndsAs(db, i, c)
  {
  }

  lemma PassBehind(db: Db, fs: Files, next: Db, files: Files, from: int, after: int)
    requires Progress(db, fs, next, files, from, after) && OutcomesBehind(db, next.evidence, from)
    ensures next.installs.intents == db.installs.intents
    ensures forall i :: i in db.installs.intents && i <= from ==> (Conflicted(next, i) <==> Conflicted(db, i))
  {
    hide OutcomesBehind, Conflicted, EndedUpTo, AsFoundBeyond, ContentUpTo, MarksBeyond;
    forall i | i in db.installs.intents && i <= from ensures Conflicted(next, i) <==> Conflicted(db, i) {
      BehindKept(db, fs, next, files, from, after, i);
    }
  }

  ghost predicate OutcomesBehind(db: Db, e: Evidence, from: int) {
    forall i :: i in db.installs.intents && i <= from ==> SameOutcome(db.evidence, e, db.installs.intents[i].attempt)
  }

  lemma OutcomesBehindKept(db: Db, mid: Db, files: Files, next: Db, nextFiles: Files, from: int, i: IntentId)
    requires OutcomesBehind(db, mid.evidence, from) && from < i && mid.installs.intents == db.installs.intents
    requires IntentsDistinct(mid.installs) && i in mid.installs.intents && SettledOne(mid, files, i, next, nextFiles)
    ensures OutcomesBehind(db, next.evidence, from)
  {
    forall j | j in db.installs.intents && j <= from
      ensures SameOutcome(db.evidence, next.evidence, db.installs.intents[j].attempt) {
      assert mid.installs.intents[j].attempt != mid.installs.intents[i].attempt;
      assert SameOutcome(db.evidence, mid.evidence, db.installs.intents[j].attempt);
    }
    hide Present, InstallMarks;
  }

  /** The recovery of one intent, as the phase loop writes it. */
  method FinishIntent(repo: ArtifactRepository, files: VaultFiles, p: Process, i: IntentId) returns (ok: bool)
    requires i in repo.intents
    modifies repo, files
    ensures var one := FinishOne(old(repo.Rows()), old(files.Names()), p, i);
            ok == one.Some? && (ok ==> repo.Rows() == one.value.0 && files.Names() == one.value.1)
  {
    var intent := repo.intents[i];
    var content := HashFile(files.Names(), ContentFile(files.Names(), intent.digest), 2);
    var stage := HashFile(files.Names(), StageFile(files.Names(), intent.staging), 2);
    if content.Unsafe? || stage.Unsafe? { return false; }
    var contentPresent, stagePresent := content == Digest(intent.digest), stage == Digest(intent.digest);
    if !contentPresent && !stagePresent {
      ok := repo.AbortInstallIntent(p, i, CONTENT_MISSING);
      return;
    }
    if !contentPresent {
      ok := files.Link(intent.staging, intent.digest);
      if !ok { return; }
    }
    ok := repo.MarkIntentContentInstalled(p, i);
    if !ok { return; }
    ok := repo.CommitIntentSuccess(p, i);
    if !ok { return; }
    files.Remove(intent.staging);
    ok := repo.MarkIntentStageCleaned(p, i);
  }

  /**
    The install-intents phase, run to its end by the one process that holds the lease, from whatever key
    it was interrupted at. It completes exactly when no intent beyond the key is in conflict. Then every
    pending intent beyond the key is settled, committed exactly if its bytes could be found, and what is
    left pending is what was pending at or behind the key.
   */
  method FinishIntents(repo: ArtifactRepository, files: VaultFiles, p: Process) returns (ok: bool)
    requires Recovering(repo.Rows(), files.Names(), p) && repo.phase.Intents?
    modifies repo, files
    ensures ok <==> forall i :: i in old(repo.intents) && old(repo.phase).after < i ==> !Conflicted(old(repo.Rows()), i)
    ensures ok ==> repo.intents == old(repo.intents) && repo.phase == Staging && Recovering(repo.Rows(), files.Names(), p)
    ensures ok ==> forall i :: i in repo.intents ==>
              (Pending(repo.Rows().installs, i) <==> i <= old(repo.phase).after && Pending(old(repo.Rows()).installs, i))
    ensures ok ==> forall i :: i in repo.intents && old(repo.phase).after < i && Pending(old(repo.Rows()).installs, i) ==>
              EndsAs(repo.Rows(), i, Recoverable(old(repo.Rows()), old(files.Names()), old(repo.phase).after, i))
    ensures ok ==> forall i :: i in repo.intents && i <= old(repo.phase).after ==>
              (Conflicted(repo.Rows(), i) <==> Conflicted(old(repo.Rows()), i))
  {
    hide Conflicted, EndsAs, Recoverable, Progress, OutcomesBehind, Recovering, FinishOne, NextPending, PassDone, Pending;
    ghost var db, fs := repo.Rows(), files.Names();
    ghost var from := repo.phase.after;
    ProgressStart(db, fs, from);
    LeaseHeld(db, fs, p);
    var after: int := repo.phase.after;
    ok := true;
    while true
      invariant OutcomesBehind(db, repo.Rows().evidence, from)
      invariant Recovering(repo.Rows(), files.Names(), p) && repo.phase == Intents(after)
      invariant Progress(db, fs, repo.Rows(), files.Names(), from, after)
      invariant forall i :: i in db.installs.intents && from < i <= after ==> !Conflicted(db, i)
      decreases Beyond(db.installs, after)
    {
      ghost var mid, midFiles := repo.Rows(), files.Names();
      var next := repo.ReadPendingIntentPage(after);
      if next.None? { break; }
      var i := next.value;
      KeysInOrder(db, fs, mid, midFiles, from, after);
      IterationKept(db, fs, mid, midFiles, p, from, after, i);
      Unconflicted(db, fs, mid, midFiles, from, after, i);
      BeyondFalls(db.installs, after, i);
      ok := FinishIntent(repo, files, p, i);
      if !ok { return; }
      ghost var settled := repo.Rows();
      LeaseHeld(settled, files.Names(), p);
      HeadKept(db, fs, settled, files.Names(), p, Intents(i), from, i);
      ok := repo.AdvanceReconciliationState(p, Intents(i));
      after := i;
    }
    PassSettled(db, fs, repo.Rows(), files.Names(), from, after);
    PassBehind(db, fs, repo.Rows(), files.Names(), from, after);
    LeaseHeld(repo.Rows(), files.Names(), p);
    HeadKept(db, fs, repo.Rows(), files.Names(), p, Staging, from, after);
    PhaseBlind(repo.Rows(), Staging);
    ok := repo.AdvanceReconciliationState(p, Staging);
  }
}
