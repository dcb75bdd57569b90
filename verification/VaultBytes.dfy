/**
  What a store was handed, read off the events alone, and that nothing else is ever recorded of it: the
  bytes of an observation are the chunks of its attempt, all of them and in their order.
 */
module VaultBytes {
  import opened Base
  import opened VaultDatabase
  import opened VaultProtocol
  import opened VaultSafety

  /** The caller's part of a store: what is to be retrieved, the response, and the bytes handed in so far. */
  datatype Receipt = Receipt(draft: string, response: string, bytes: Bytes)

  /** What the events say an attempt was handed since it began. */
  function Received(es: seq<Event>, a: AttemptId): Option<Receipt> {
    if es == [] then None
    else
      var before, last := Received(es[..|es| - 1], a), es[|es| - 1];
      if last.Begin? && last.attempt == a then Some(Receipt(last.row.draft, last.response, []))
      else if last.Store? && last.attempt == a && last.act.WriteChunk? && before.Some?
      then Some(before.value.(bytes := before.value.bytes + last.act.chunk))
      else before
  }

  function Told(v: Observation): Receipt {
    Receipt(v.draft, v.response, v.digest)
  }

  ghost predicate ThreadTold(fs: Files, th: StoreThread, r: Option<Receipt>) {
    && r.Some? && r.value.draft == th.draft && r.value.response == th.response
    && (if th.staging in fs.data then fs.data[th.staging] == r.value.bytes else r.value.bytes == [])
  }

  ghost predicate IntentsTold(n: Installs, es: seq<Event>) {
    forall i :: i in n.intents ==> Received(es, n.intents[i].attempt) == Some(Told(n.intents[i].observation))
  }

  ghost predicate ObservationsTold(e: Evidence, es: seq<Event>) {
    forall a :: a in e.observations ==> Received(es, a) == Some(Told(e.observations[a]))
  }

  ghost predicate ThreadsTold(fs: Files, stores: map<AttemptId, StoreThread>, es: seq<Event>) {
    forall a :: a in stores ==> ThreadTold(fs, stores[a], Received(es, a))
  }

  ghost predicate AllTold(w: World, es: seq<Event>) {
    ThreadsTold(w.fs, w.stores, es) && IntentsTold(w.db.installs, es) && ObservationsTold(w.db.evidence, es)
  }

  lemma ReceivedNext(es: seq<Event>, e: Event, a: AttemptId)
    ensures !(e.Begin? && e.attempt == a) && !(e.Store? && e.attempt == a && e.act.WriteChunk?) ==>
              Received(es + [e], a) == Received(es, a)
    ensures e.Begin? && e.attempt == a ==> Received(es + [e], a) == Some(Receipt(e.row.draft, e.response, []))
    ensures e.Store? && e.attempt == a && e.act.WriteChunk? && Received(es, a).Some? ==>
              Received(es + [e], a) == Some(Received(es, a).value.(bytes := Received(es, a).value.bytes + e.act.chunk))
  {
    assert (es + [e])[..|es|] == es;
  }

  // ----- What a step adds to the tables -----

  /** New observations are those of intents on record. */
  ghost predicate FromIntents(db: Db, next: Db) {
    forall a :: a in next.evidence.observations ==>
      || (a in db.evidence.observations && next.evidence.observations[a] == db.evidence.observations[a])
      || exists i :: i in db.installs.intents && db.installs.intents[i].attempt == a
                     && db.installs.intents[i].observation == next.evidence.observations[a]
  }

  lemma CommitFrom(db: Db, p: Process, i: IntentId)
    requires CommitIntent(db, p, i).Some?
    ensures FromIntents(db, CommitIntent(db, p, i).value) && CommitIntent(db, p, i).value.installs.intents == db.installs.intents
  {
  }

  lemma StoreFrom(db: Db, fs: Files, a: AttemptId, th: StoreThread, act: StoreAct)
    requires StoreMove(db, fs, a, th, act).Some? && !act.Prepare?
    ensures var m := StoreMove(db, fs, a, th, act).value;
            && FromIntents(db, m.db) && m.db.installs.intents == db.installs.intents
            && (!act.CreateStage? && !act.WriteChunk? ==> m.fs.data == fs.data)
  {
    hide HashFile, ThreadIntent, CommitIntent, FromIntents;
    if act.Commit? { CommitFrom(db, th.process, th.pc.id); }
    else { SameObservations(db, StoreMove(db, fs, a, th, act).value.db); }
  }

  lemma SameObservations(db: Db, next: Db)
    ensures next.evidence.observations == db.evidence.observations ==> FromIntents(db, next)
  {
  }

  lemma RecoverFrom(db: Db, fs: Files, p: Process, pc: RecoveryPc, act: RecoveryAct)
    requires RecoveryMove(db, fs, p, pc, act).Some?
    ensures var m := RecoveryMove(db, fs, p, pc, act).value;
            FromIntents(db, m.db) && m.db.installs.intents == db.installs.intents && m.fs.data == fs.data
  {
    hide HashFile, NextPending, PassDone, StagePlan, CommitIntent, FromIntents;
    if act.RecoverCommit? { CommitFrom(db, p, pc.id); }
    else { SameObservations(db, RecoveryMove(db, fs, p, pc, act).value.db); }
  }

  lemma KeptTold(db: Db, next: Db, es: seq<Event>, e: Event)
    requires IntentsTold(db.installs, es) && ObservationsTold(db.evidence, es)
    requires FromIntents(db, next) && next.installs.intents == db.installs.intents
    requires forall a :: a in db.evidence.observations || (exists i :: i in db.installs.intents && db.installs.intents[i].attempt == a)
                         ==> Received(es + [e], a) == Received(es, a)
    ensures IntentsTold(next.installs, es + [e]) && ObservationsTold(next.evidence, es + [e])
  {
    hide Received;
  }

  /** An attempt that still takes chunks has neither intent nor observation. */
  lemma UntoldYet(w: World, a: AttemptId)
    requires Safe(w)
    requires a !in w.db.evidence.attempts || (a in w.stores && (w.stores[a].pc.Writing? || w.stores[a].pc.Recorded?))
    ensures a !in w.db.evidence.observations && forall i :: i in w.db.installs.intents ==> w.db.installs.intents[i].attempt != a
  {
    SafeParts(w);
    if a in w.stores { OwnThread(w, a); }
    hide Safe, RowsAndFiles, StoresAgree, RecoveriesAgree;
  }

  lemma StoreTold(w: World, es: seq<Event>, a: AttemptId, act: StoreAct)
    requires Safe(w) && AllTold(w, es) && StoreStep(w, a, act).Some?
    ensures AllTold(StoreStep(w, a, act).value, es + [Store(a, act)])
  {
    hide Safe, StoreMove, Received, IntentsTold, ObservationsTold, ThreadTold, FromIntents, FilesFree;
    StoreStepIs(w, a, act);
    var th, next, e := w.stores[a], StoreStep(w, a, act).value, Store(a, act);
    forall b ensures !(act.WriteChunk? && a == b) ==> Received(es + [e], b) == Received(es, b) { ReceivedNext(es, e, b); }
    if act.Prepare? {
      PrepareTold(w, es, a, act.id);
    } else {
      StoreFrom(w.db, w.fs, a, th, act);
      if act.WriteChunk? { WritingNow(w.db, w.fs, a, th, act); UntoldYet(w, a); }
      KeptTold(w.db, next.db, es, e);
    }
    StoreThreadsTold(w, es, a, act);
  }

  lemma WritingNow(db: Db, fs: Files, a: AttemptId, th: StoreThread, act: StoreAct)
    requires StoreMove(db, fs, a, th, act).Some? && act.WriteChunk?
    ensures th.pc.Writing? && th.staging in fs.data
    ensures StoreMove(db, fs, a, th, act).value.fs.data == fs.data[th.staging := fs.data[th.staging] + act.chunk]
    ensures StoreMove(db, fs, a, th, act).value.pc == Some(Writing)
  {
  }

  lemma PrepareTold(w: World, es: seq<Event>, a: AttemptId, i: IntentId)
    requires Safe(w) && AllTold(w, es) && StoreStep(w, a, Prepare(i)).Some?
    ensures var next := StoreStep(w, a, Prepare(i)).value;
            IntentsTold(next.db.installs, es + [Store(a, Prepare(i))]) && ObservationsTold(next.db.evidence, es + [Store(a, Prepare(i))])
            && next.fs == w.fs
  {
    hide Safe, Received, ThreadsTold, ThreadTold;
    var e := Store(a, Prepare(i));
    forall b ensures Received(es + [e], b) == Received(es, b) { ReceivedNext(es, e, b); }
    assert ThreadTold(w.fs, w.stores[a], Received(es, a)) by { hide *; ThreadAt(w, es, a); }
    IntentOf(w, es, a, i);
  }

  lemma ThreadAt(w: World, es: seq<Event>, a: AttemptId)
    requires AllTold(w, es) && a in w.stores
    ensures ThreadTold(w.fs, w.stores[a], Received(es, a))
  {
    hide ThreadTold;
  }

  lemma IntentOf(w: World, es: seq<Event>, a: AttemptId, i: IntentId)
    requires a in w.stores && ThreadTold(w.fs, w.stores[a], Received(es, a)) && w.stores[a].staging in w.fs.data && w.stores[a].pc.Checked?
    ensures var intent := ThreadIntent(w.fs, a, w.stores[a], w.stores[a].pc.disposition);
            intent.attempt == a && Received(es, a) == Some(Told(intent.observation))
  {
    hide Received;
  }

  /** The staging files of two attempts are two files, so a chunk reaches no other thread. */
  lemma StoreThreadsTold(w: World, es: seq<Event>, a: AttemptId, act: StoreAct)
    requires Safe(w) && ThreadsTold(w.fs, w.stores, es) && StoreStep(w, a, act).Some?
    ensures var next := StoreStep(w, a, act).value; ThreadsTold(next.fs, next.stores, es + [Store(a, act)])
  {
    hide Safe, StoreMove, Received, ThreadTold, StagingUnique;
    StoreStepIs(w, a, act);
    var next, e := StoreStep(w, a, act).value, Store(a, act);
    forall b | b in next.stores ensures ThreadTold(next.fs, next.stores[b], Received(es + [e], b)) {
      assert ThreadTold(w.fs, w.stores[b], Received(es, b));
      SomethingTold(w.fs, w.stores[b], Received(es, b));
      ReceivedNext(es, e, b);
      if b == a { OwnTold(w.db, w.fs, a, w.stores[a], act, Received(es, a), Received(es + [e], a)); }
      else {
        OtherStaging(w, a, b);
        OtherData(w.db, w.fs, a, w.stores[a], act, w.stores[b].staging);
        SameTold(w.fs, next.fs, w.stores[b], Received(es, b));
      }
    }
  }

  lemma SameTold(fs: Files, files: Files, th: StoreThread, r: Option<Receipt>)
    requires ThreadTold(fs, th, r)
    requires th.staging in fs.data <==> th.staging in files.data
    requires th.staging in fs.data ==> files.data[th.staging] == fs.data[th.staging]
    ensures ThreadTold(files, th, r)
  {
  }

  lemma SomethingTold(fs: Files, th: StoreThread, r: Option<Receipt>)
    requires ThreadTold(fs, th, r)
    ensures r.Some?
  {
  }

  lemma OwnTold(db: Db, fs: Files, a: AttemptId, th: StoreThread, act: StoreAct, r: Option<Receipt>, s: Option<Receipt>)
    requires StoreMove(db, fs, a, th, act).Some? && ThreadTold(fs, th, r)
    requires s == if act.WriteChunk? then Some(r.value.(bytes := r.value.bytes + act.chunk)) else r
    ensures var m := StoreMove(db, fs, a, th, act).value; m.pc.Some? ==> ThreadTold(m.fs, th.(pc := m.pc.value), s)
  {
    hide HashFile, ThreadIntent, PrepareIntent, MarkIntent, CommitIntent, AbortIntent, FinishAttempt;
  }

  lemma OtherStaging(w: World, a: AttemptId, b: AttemptId)
    requires Safe(w) && a in w.stores && b in w.stores && a != b
    ensures w.stores[a].staging != w.stores[b].staging
  {
    SafeParts(w);
    OwnThread(w, a);
    OwnThread(w, b);
    hide Safe, RowsAndFiles, StoresAgree, RecoveriesAgree, InstallsAgree, EvidenceAgrees;
  }

  lemma OtherData(db: Db, fs: Files, a: AttemptId, th: StoreThread, act: StoreAct, s: StagingId)
    requires StoreMove(db, fs, a, th, act).Some? && s != th.staging
    ensures var files := StoreMove(db, fs, a, th, act).value.fs;
            (s in fs.data <==> s in files.data) && (s in fs.data ==> files.data[s] == fs.data[s])
  {
    hide HashFile, ThreadIntent, PrepareIntent, MarkIntent, CommitIntent, AbortIntent, FinishAttempt;
  }

  lemma BeginTold(w: World, es: seq<Event>, p: Process, a: AttemptId, row: Attempt, response: string)
    requires Safe(w) && AllTold(w, es) && BeginStep(w, p, a, row, response).Some?
    ensures AllTold(BeginStep(w, p, a, row, response).value, es + [Begin(p, a, row, response)])
  {
    hide Safe, Received, IntentsTold, ObservationsTold, ThreadTold, FromIntents;
    var next, e := BeginStep(w, p, a, row, response).value, Begin(p, a, row, response);
    forall b ensures b != a ==> Received(es + [e], b) == Received(es, b) { ReceivedNext(es, e, b); }
    UntoldYet(w, a);
    SameObservations(w.db, next.db);
    KeptTold(w.db, next.db, es, e);
    forall b | b in next.stores ensures ThreadTold(next.fs, next.stores[b], Received(es + [e], b)) {
      ReceivedNext(es, e, b);
      if b == a { BeginOwn(w.fs, next.stores[a], Received(es + [e], a), row, response); }
      else { assert ThreadTold(w.fs, w.stores[b], Received(es, b)); }
    }
  }

  lemma BeginOwn(fs: Files, th: StoreThread, r: Option<Receipt>, row: Attempt, response: string)
    requires r == Some(Receipt(row.draft, response, [])) && th.draft == row.draft && th.response == response && th.staging !in fs.data
    ensures ThreadTold(fs, th, r)
  {
  }

  lemma RecoverTold(w: World, es: seq<Event>, p: Process, act: RecoveryAct)
    requires AllTold(w, es) && RecoverStep(w, p, act).Some?
    ensures AllTold(RecoverStep(w, p, act).value, es + [Recover(p, act)])
  {
    hide RecoveryMove, Received, IntentsTold, ObservationsTold, ThreadTold, FromIntents;
    var next, e := RecoverStep(w, p, act).value, Recover(p, act);
    forall b ensures Received(es + [e], b) == Received(es, b) { ReceivedNext(es, e, b); }
    RecoverFrom(w.db, w.fs, p, Alive(w, p), act);
    KeptTold(w.db, next.db, es, e);
    forall b | b in next.stores ensures ThreadTold(next.fs, next.stores[b], Received(es + [e], b)) {
      assert ThreadTold(w.fs, w.stores[b], Received(es, b));
      SameTold(w.fs, next.fs, w.stores[b], Received(es, b));
    }
  }

  /** A step that only ends threads or moves the lease. */
  lemma QuietTold(w: World, es: seq<Event>, e: Event)
    requires AllTold(w, es) && Step(w, e).Some? && !e.Begin? && !e.Store? && !e.Recover?
    ensures AllTold(Step(w, e).value, es + [e])
  {
    hide Received, IntentsTold, ObservationsTold, ThreadTold, FromIntents;
    var next := Step(w, e).value;
    forall b ensures Received(es + [e], b) == Received(es, b) { ReceivedNext(es, e, b); }
    SameObservations(w.db, next.db);
    KeptTold(w.db, next.db, es, e);
    assert forall b :: b in next.stores ==> b in w.stores && next.stores[b] == w.stores[b];
  }

  lemma StepTold(w: World, es: seq<Event>, e: Event)
    requires Safe(w) && AllTold(w, es) && Step(w, e).Some?
    ensures AllTold(Step(w, e).value, es + [e])
  {
    hide Safe, AllTold, StoreStep, RecoverStep, BeginStep;
    match e
    case Begin(p, a, row, response) => BeginTold(w, es, p, a, row, response);
    case Store(a, act) => StoreTold(w, es, a, act);
    case Recover(p, act) => RecoverTold(w, es, p, act);
    case _ => QuietTold(w, es, e);
  }

  lemma {:induction false} RunTold(es: seq<Event>, n: nat)
    requires n <= |es| && Run(EMPTY_WORLD, es).Some? && CalmRun(es)
    ensures Run(EMPTY_WORLD, es[..n]).Some? && Safe(Run(EMPTY_WORLD, es[..n]).value) && AllTold(Run(EMPTY_WORLD, es[..n]).value, es[..n])
  {
    hide Safe, AllTold, Step, Calm, Fold;
    if n == 0 {
      assert es[..0] == [];
      EmptySafe();
      NothingTold();
    } else {
      RunTold(es, n - 1);
      FoldLast(Step, EMPTY_WORLD, es, n - 1);
      FoldConcat(Step, EMPTY_WORLD, es[..n], es[n..]);
      assert es[..n] + es[n..] == es && es[..n] == es[..n - 1] + [es[n - 1]];
      StepSafe(Run(EMPTY_WORLD, es[..n - 1]).value, es[n - 1]);
      StepTold(Run(EMPTY_WORLD, es[..n - 1]).value, es[..n - 1], es[n - 1]);
    }
  }

  lemma NothingTold()
    ensures Fold(Step, EMPTY_WORLD, []) == Some(EMPTY_WORLD) && AllTold(EMPTY_WORLD, [])
  {
  }

  /**
    After every calm run, whatever crashed in it and whoever finished it: an observation has the record, the
    response and exactly the bytes its attempt was handed, and the file of its blob holds those bytes.
   */
  lemma ObservedAsReceived(es: seq<Event>, a: AttemptId)
    requires Run(EMPTY_WORLD, es).Some? && CalmRun(es) && a in Run(EMPTY_WORLD, es).value.db.evidence.observations
    ensures var w := Run(EMPTY_WORLD, es).value;
            && Received(es, a).Some?
            && w.db.evidence.observations[a] == Observation(Received(es, a).value.bytes, Received(es, a).value.draft, Received(es, a).value.response)
            && ContentHolds(w.fs, Received(es, a).value.bytes)
  {
    hide Safe, Run, Received, ContentHolds;
    RunTold(es, |es|);
    assert es[..|es|] == es;
    VaultSafe(es);
  }
}
