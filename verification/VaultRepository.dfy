/**
  The repository object: tables that each transaction updates in place. A transaction that throws
  leaves every table as it was.
 */
module VaultRepository {
  import opened Base
  import opened VaultDatabase
  import opened VaultProtocol

  // ----- The writer lease -----

  /** The one row of the fence: who writes, under which generation, and until when. */
  datatype Lease = Lease(owner: Process, generation: nat, ends: nat)

  function Generation(held: Option<Lease>): nat {
    if held.None? then 0 else held.value.generation
  }

  /** `claimWriter`: a lease that has not run out is not taken over. */
  function TakeLease(held: Option<Lease>, p: Process, now: nat, duration: nat): Option<Lease> {
    if held.Some? && held.value.ends > now then None else Some(Lease(p, Generation(held) + 1, now + duration))
  }

  /** `assertWriter`: the check every transaction starts with. */
  predicate Writes(held: Option<Lease>, p: Process, generation: nat, now: nat) {
    held.Some? && held.value.owner == p && held.value.generation == generation && held.value.ends >= now
  }

  predicate Owns(held: Option<Lease>, p: Process, generation: nat) {
    held.Some? && held.value.owner == p && held.value.generation == generation
  }

  datatype LeaseAct =
    | Take(p: Process, now: nat, duration: nat)
    | Renew(p: Process, generation: nat, now: nat, duration: nat)
    | GiveUp(p: Process, generation: nat)

  /** An act that fails leaves the row alone. */
  function LeaseAfter(held: Option<Lease>, act: LeaseAct): Option<Lease> {
    match act
    case Take(p, now, duration) => var taken := TakeLease(held, p, now, duration); if taken.Some? then taken else held
    case Renew(p, g, now, duration) => if Writes(held, p, g, now) then Some(Lease(p, g, now + duration)) else held
    case GiveUp(p, g) => if Owns(held, p, g) then None else held
  }

  function LeaseRun(held: Option<Lease>, acts: seq<LeaseAct>): Option<Lease>
    decreases |acts|
  {
    if acts == [] then held else LeaseRun(LeaseAfter(held, acts[0]), acts[1..])
  }

  ghost predicate MayWrite(held: Option<Lease>, p: Process, at: nat) {
    exists generation: nat :: Writes(held, p, generation, at)
  }

  /** The lease can be taken exactly when nobody may write any more, and then its taker alone may, until it ends. */
  lemma TakenExactly(held: Option<Lease>, p: Process, now: nat, duration: nat)
    ensures TakeLease(held, p, now, duration).Some? <==> forall q: Process, at: nat :: now < at ==> !MayWrite(held, q, at)
    ensures var taken := TakeLease(held, p, now, duration);
            taken.Some? ==> forall q: Process, at: nat :: MayWrite(taken, q, at) <==> q == p && at <= now + duration
  {
    if held.Some? && held.value.ends > now {
      assert Writes(held, held.value.owner, held.value.generation, now + 1);
      assert MayWrite(held, held.value.owner, now + 1);
    }
    var taken := TakeLease(held, p, now, duration);
    if taken.Some? {
      forall q: Process, at: nat ensures MayWrite(taken, q, at) <==> q == p && at <= now + duration {
        if q == p && at <= now + duration { assert Writes(taken, q, taken.value.generation, at); }
      }
    }
  }

  /** Nobody else gets in while a lease runs: acts of others, all before its end, leave it as it is. */
  lemma {:induction false} LeaseKept(held: Option<Lease>, acts: seq<LeaseAct>)
    requires held.Some?
    requires forall a :: a in acts ==>
               if a.Take? then a.now < held.value.ends else !(a.p == held.value.owner && a.generation == held.value.generation)
    ensures LeaseRun(held, acts) == held
    decreases |acts|
  {
    if acts != [] { LeaseKept(held, acts[1..]); }
  }

  /** A writer that has lost the lease never writes again, unless it takes the lease anew under its own name. */
  lemma {:induction false} LostForGood(held: Option<Lease>, acts: seq<LeaseAct>, p: Process, generation: nat, now: nat)
    requires !Owns(held, p, generation) && forall a :: a in acts ==> !(a.Take? && a.p == p)
    ensures !Writes(LeaseRun(held, acts), p, generation, now)
    decreases |acts|
  {
    if acts != [] { LostForGood(LeaseAfter(held, acts[0]), acts[1..], p, generation, now); }
  }

  /** Why the name counts: a release forgets the generation, and the next lease has the first one again. */
  lemma GenerationRestarts(p: Process, q: Process, now: nat, duration: nat)
    ensures var acts := [Take(p, now, duration), GiveUp(p, 1), Take(q, now, duration)];
            LeaseRun(None, acts) == Some(Lease(q, 1, now + duration)) && Owns(LeaseRun(None, acts[..1]), p, 1)
  {
    var acts := [Take(p, now, duration), GiveUp(p, 1), Take(q, now, duration)];
    assert acts[1..] == [GiveUp(p, 1), Take(q, now, duration)] && acts[1..][1..] == [Take(q, now, duration)];
    assert acts[..1] == [Take(p, now, duration)] && acts[..1][1..] == [];
    assert acts[1..][1..][1..] == [];
    var first := Some(Lease(p, 1, now + duration));
    assert LeaseAfter(None, acts[0]) == first;
    assert LeaseRun(first, acts[1..]) == LeaseRun(None, [Take(q, now, duration)]);
  }

  class ArtifactRepository {
    var fence: Option<Process>
    var generation: nat
    var leaseEnds: nat
    var phase: Phase
    var plan: Option<Plan>
    var attempts: map<AttemptId, Attempt>
    var outcomes: map<AttemptId, Outcome>
    var blobs: map<Bytes, Provenance>
    var observations: map<AttemptId, Observation>
    var intents: map<IntentId, Intent>
    var marks: set<(IntentId, Mark)>

    function Rows(): Db
      reads this
    {
      Db(fence, phase, plan, Evidence(attempts, outcomes, blobs, observations), Installs(intents, marks))
    }

    function Held(): Option<Lease>
      reads this
    {
      if fence.None? then None else Some(Lease(fence.value, generation, leaseEnds))
    }

    constructor ()
      ensures Rows() == EMPTY_DB && Held() == None
    {
      fence, phase, plan := None, Intents(-1), None;
      generation, leaseEnds := 0, 0;
      attempts, outcomes, blobs, observations, intents, marks := map[], map[], map[], map[], map[], {};
    }

    /** The lease is taken when the previous one has run out or been released. */
    method ClaimWriter(p: Process, now: nat, duration: nat) returns (r: Option<nat>)
      modifies this`fence, this`generation, this`leaseEnds
      ensures r.Some? == TakeLease(old(Held()), p, now, duration).Some? && Held() == LeaseAfter(old(Held()), Take(p, now, duration))
      ensures r.Some? ==> Owns(Held(), p, r.value)
      ensures Rows() == if r.None? then old(Rows()) else old(Rows()).(fence := Some(p))
    {
      if fence.Some? && leaseEnds > now { return None; }
      generation := if fence.None? then 1 else generation + 1;
      fence, leaseEnds := Some(p), now + duration;
      r := Some(generation);
    }

    /** A lease that has run out is not renewed. */
    method RenewWriter(p: Process, g: nat, now: nat, duration: nat) returns (ok: bool)
      modifies this`leaseEnds
      ensures ok == Writes(old(Held()), p, g, now) && Held() == LeaseAfter(old(Held()), Renew(p, g, now, duration))
      ensures Rows() == old(Rows())
    {
      ok := fence == Some(p) && generation == g && leaseEnds >= now;
      if ok { leaseEnds := now + duration; }
    }

    /** Only the owner's own lease is deleted. */
    method ReleaseWriter(p: Process, g: nat) returns (ok: bool)
      modifies this`fence
      ensures ok == Owns(old(Held()), p, g) && Held() == LeaseAfter(old(Held()), GiveUp(p, g))
      ensures Rows() == if ok then old(Rows()).(fence := None) else old(Rows())
    {
      ok := fence == Some(p) && generation == g;
      if ok { fence := None; }
    }

    method RecordAttempt(p: Process, a: AttemptId, attempt: Attempt) returns (ok: bool)
      modifies this`attempts
      ensures var tx := VaultDatabase.RecordAttempt(old(Rows()), p, a, attempt);
              ok == tx.Some? && Rows() == if ok then tx.value else old(Rows())
    {
      if fence != Some(p) || a in attempts || StagingKnown(Rows().evidence, attempt.staging) { return false; }
      attempts := attempts[a := attempt];
      ok := true;
    }

    method PrepareInstallIntent(p: Process, i: IntentId, intent: Intent) returns (ok: bool)
      modifies this`intents
      ensures var tx := PrepareIntent(old(Rows()), p, i, intent);
              ok == tx.Some? && Rows() == if ok then tx.value else old(Rows())
    {
      if fence != Some(p) || intent.attempt !in attempts { return false; }
      if intent.staging != attempts[intent.attempt].staging || intent.observation.digest != intent.digest { return false; }
      if i in intents { return intents[i] == intent; }
      if IntentClash(Rows().installs, intent) { return false; }
      intents := intents[i := intent];
      ok := true;
    }

    method MarkIntentContentInstalled(p: Process, i: IntentId) returns (ok: bool)
      modifies this`marks
      ensures var tx := MarkIntent(old(Rows()), p, i, ContentInstalled);
              ok == tx.Some? && Rows() == if ok then tx.value else old(Rows())
    {
      if fence != Some(p) || i !in intents { return false; }
      InsertInstallTransition(i, ContentInstalled);
      ok := true;
    }

    method MarkIntentStageCleaned(p: Process, i: IntentId) returns (ok: bool)
      modifies this`marks
      ensures var tx := MarkIntent(old(Rows()), p, i, StageCleaned);
              ok == tx.Some? && Rows() == if ok then tx.value else old(Rows())
    {
      if fence != Some(p) || i !in intents { return false; }
      InsertInstallTransition(i, StageCleaned);
      ok := true;
    }

    /** A transition already recorded is left alone. */
    method InsertInstallTransition(i: IntentId, m: Mark)
      modifies this`marks
      ensures marks == old(marks) + {(i, m)}
    {
      if (i, m) in marks {
        assert marks == marks + {(i, m)};
        return;
      }
      marks := marks + {(i, m)};
    }

    method InsertOutcome(a: AttemptId, o: Outcome) returns (ok: bool)
      modifies this`outcomes
      ensures var e := VaultDatabase.InsertOutcome(old(Rows()).evidence, a, o);
              ok == e.Some? && Rows() == if ok then old(Rows()).(evidence := e.value) else old(Rows())
    {
      if a !in attempts || a in outcomes { return false; }
      outcomes := outcomes[a := o];
      ok := true;
    }

    method SettleOutcome(a: AttemptId, o: Outcome) returns (ok: bool)
      modifies this`outcomes
      ensures var e := VaultDatabase.SettleOutcome(old(Rows()).evidence, a, o);
              ok == e.Some? && Rows() == if ok then old(Rows()).(evidence := e.value) else old(Rows())
    {
      if a !in outcomes {
        ok := InsertOutcome(a, o);
      } else {
        ok := outcomes[a] == o;
      }
    }

    /** The blob, the outcome and the observation are inserted together or not at all. */
    method InsertSuccessEvidence(a: AttemptId, v: Observation) returns (ok: bool)
      modifies this`blobs, this`outcomes, this`observations
      ensures var e := InsertSuccess(old(Rows()).evidence, a, v);
              ok == e.Some? && Rows() == if ok then old(Rows()).(evidence := e.value) else old(Rows())
    {
      if a !in attempts || attempts[a].draft != v.draft { return false; }
      if a in outcomes || a in observations { return false; }
      if v.digest !in blobs { blobs := blobs[v.digest := Retrieval]; }
      var inserted := InsertOutcome(a, SUCCESS);
      observations := observations[a := v];
      ok := true;
    }

    method CommitIntentSuccess(p: Process, i: IntentId) returns (ok: bool)
      modifies this`blobs, this`outcomes, this`observations, this`marks
      ensures var tx := CommitIntent(old(Rows()), p, i);
              ok == tx.Some? && Rows() == if ok then tx.value else old(Rows())
    {
      if fence != Some(p) || i !in intents || (i, Aborted) in marks { return false; }
      var intent := intents[i];
      var completed := Completed(Rows().evidence, intent.attempt);
      if completed.Some? {
        if completed.value != intent.observation { return false; }
      } else {
        var inserted := InsertSuccessEvidence(intent.attempt, intent.observation);
        if !inserted { return false; }
      }
      InsertInstallTransition(i, EvidenceCommitted);
      ok := true;
    }

    method AbortInstallIntent(p: Process, i: IntentId, o: Outcome) returns (ok: bool)
      modifies this`outcomes, this`marks
      ensures var tx := AbortIntent(old(Rows()), p, i, o);
              ok == tx.Some? && Rows() == if ok then tx.value else old(Rows())
    {
      if fence != Some(p) || i !in intents || (i, EvidenceCommitted) in marks { return false; }
      ok := SettleOutcome(intents[i].attempt, o);
      if ok { InsertInstallTransition(i, Aborted); }
    }

    method FinishAttempt(p: Process, a: AttemptId, o: Outcome) returns (ok: bool)
      modifies this`outcomes
      ensures var tx := VaultDatabase.FinishAttempt(old(Rows()), p, a, o);
              ok == tx.Some? && Rows() == if ok then tx.value else old(Rows())
    {
      if fence != Some(p) || a !in attempts { return false; }
      ok := SettleOutcome(a, o);
    }

    method AdvanceReconciliationState(p: Process, next: Phase) returns (ok: bool)
      modifies this`phase
      ensures var tx := AdvancePhase(old(Rows()), p, next);
              ok == tx.Some? && Rows() == if ok then tx.value else old(Rows())
    {
      ok := fence == Some(p);
      if ok { phase := next; }
    }

    method PlanReconciliationAction(p: Process, action: Plan) returns (ok: bool)
      modifies this`plan
      ensures var tx := PlanAction(old(Rows()), p, action);
              ok == tx.Some? && Rows() == if ok then tx.value else old(Rows())
    {
      if fence != Some(p) || (plan.Some? && plan.value != action) { return false; }
      plan := Some(action);
      ok := true;
    }

    method ApplyReconciliationAction(p: Process, action: Plan) returns (ok: bool)
      modifies this`outcomes, this`blobs, this`plan
      ensures var tx := ApplyPlan(old(Rows()), p, action);
              ok == tx.Some? && Rows() == if ok then tx.value else old(Rows())
    {
      if fence != Some(p) || plan != Some(action) { return false; }
      ok := true;
      match action {
        case QuarantineStage(_, _, expires) =>
          if expires.Some? { ok := SettleOutcome(expires.value, STAGE_EXPIRED); }
        case ExpireAttempt(a) => ok := SettleOutcome(a, STAGE_MISSING);
        case AdoptOrphan(digest) =>
          if digest !in blobs { blobs := blobs[digest := RecoveredOrphan]; }
          else { ok := blobs[digest] == RecoveredOrphan; }
        case QuarantineContent(_, _) => {}
      }
      if ok { plan := None; }
    }

    /** The first row of the pending page: the least pending intent after the key. */
    method ReadPendingIntentPage(after: int) returns (r: Option<IntentId>)
      ensures r.None? ==> PassDone(Rows().installs, after)
      ensures r.Some? ==> NextPending(Rows().installs, after, r.value)
    {
      r := None;
      var rest := intents.Keys;
      while rest != {}
        invariant rest <= intents.Keys
        invariant r.None? ==> forall j :: j in intents && j !in rest && after < j ==> !Pending(Rows().installs, j)
        invariant r.Some? ==> r.value in intents && after < r.value && Pending(Rows().installs, r.value)
        invariant r.Some? ==> forall j :: j in intents && j !in rest && after < j < r.value ==> !Pending(Rows().installs, j)
        decreases |rest|
      {
        var i :| i in rest;
        rest := rest - {i};
        if after < i && Pending(Rows().installs, i) && (r.None? || i < r.value) { r := Some(i); }
      }
    }
  }

  /** The directories of the vault that an install touches. */
  class VaultFiles {
    var data: map<StagingId, Bytes>
    var stage: set<StagingId>
    var content: map<Bytes, StagingId>
    var quarantine: set<StagingId>

    function Names(): Files
      reads this
    {
      Files(data, stage, content, quarantine)
    }

    /** `link`: refused when the source is missing or the destination exists. */
    method Link(s: StagingId, d: Bytes) returns (ok: bool)
      modifies this`content
      ensures ok == (s in stage && d !in old(content))
      ensures Names() == if ok then LinkContent(old(Names()), s, d) else old(Names())
    {
      ok := s in stage && d !in content;
      if ok { content := content[d := s]; }
    }

    /** A further name in quarantine, where it may already be. */
    method LinkQuarantine(s: StagingId)
      modifies this`quarantine
      ensures Names() == old(Names()).(quarantine := old(Names()).quarantine + {s})
    {
      quarantine := quarantine + {s};
    }

    method RemoveContent(d: Bytes)
      modifies this`content
      ensures Names() == old(Names()).(content := old(Names()).content - {d})
    {
      content := content - {d};
    }

    /** `rm` with `force`: a missing file is no error. */
    method Remove(s: StagingId)
      modifies this`stage
      ensures Names() == RemoveStageFile(old(Names()), s)
    {
      stage := stage - {s};
    }
  }
}
