/** Checkpointing cluster states into the event log, and recovering the run from it page by page. */
module ClusterRecovery {
  import opened Base
  import Events
  import opened EventCluster

  type Stored = Events.Stored
  type Draft = Events.Draft

  /** The payload of a snapshot event. */
  datatype Snapshot = Snapshot(cluster: Cluster, stateDigest: Id)

  /**
    How a cluster state is written: `write` is the canonical text of a snapshot event's type and payload,
    `read` takes such a text apart and is `None` for any other event, `digest` hashes a state.
   */
  datatype Codec = Codec(sha: Events.Sha, write: Snapshot -> string, read: string -> Option<Snapshot>, digest: Cluster -> Id)

  ghost predicate Faithful(k: Codec) {
    && Events.Injective(k.sha)
    && (forall s: Snapshot :: k.read(k.write(s)) == Some(s))
    && (forall c: Cluster, d: Cluster {:trigger k.digest(c), k.digest(d)} :: k.digest(c) == k.digest(d) ==> c == d)
  }

  const PROVIDER := "peas.event-cluster-beta"

  function Show(n: nat): (r: string)
    ensures r != ""
  {
    if n < 10 then [(('0' as int) + n) as char] else Show(n / 10) + [(('0' as int) + n % 10) as char]
  }

  lemma {:induction false} ShowInjective(n: nat, m: nat)
    requires Show(n) == Show(m)
    ensures n == m
    decreases n
  {
    var s, t := Show(n), Show(m);
    assert s[|s| - 1] == t[|t| - 1];
    if n >= 10 && m >= 10 {
      assert s[..|s| - 1] == Show(n / 10) && t[..|t| - 1] == Show(m / 10);
      ShowInjective(n / 10, m / 10);
    }
  }

  function SnapshotDraft(k: Codec, c: Cluster): Draft {
    Events.Draft("event-cluster:" + Show(c.clusterId),
                 Events.Provider(PROVIDER, Show(c.clusterId), Show(c.revision), k.digest(c)),
                 k.write(Snapshot(c, k.digest(c))))
  }

  /** `checkpointEventClusterRun`: the state is appended to the log like any other draft. */
  function Checkpoint(k: Codec, events: seq<Stored>, c: Cluster, now: nat): seq<Stored> {
    Events.AppendEvents(k.sha, events, SnapshotDraft(k, c), now)
  }

  // ----- Recovery -----

  function StateIn(k: Codec, e: Stored): Option<Snapshot> {
    k.read(e.captured.draft.rest)
  }

  /** A snapshot of this plan. */
  predicate InScope(k: Codec, plan: Plan, e: Stored) {
    StateIn(k, e).Some? && StateIn(k, e).value.cluster.planId == plan.planId
  }

  function Scoped(k: Codec, plan: Plan, events: seq<Stored>): seq<Stored> {
    if events == [] then []
    else Scoped(k, plan, events[..|events| - 1]) + (if InScope(k, plan, events[|events| - 1]) then [events[|events| - 1]] else [])
  }

  /** The event with the highest stream version, the later one among equals. */
  function Latest(events: seq<Stored>): Option<Stored> {
    if events == [] then None
    else
      var rest := Latest(events[..|events| - 1]);
      var last := events[|events| - 1];
      if rest.None? || rest.value.captured.streamVersion <= last.captured.streamVersion then Some(last) else rest
  }

  datatype Classification = Completed | Halted | Incomplete

  datatype Recovered = Recovered(cluster: Cluster, classification: Classification, completedLanes: seq<Lane>, pendingLanes: seq<Lane>)

  datatype RecoveryError = SnapshotMissing | DigestInvalid | PlanDrift

  function Classify(c: Cluster): Classification {
    if c.status == Complete then Completed else if c.status == Stopped then Halted else Incomplete
  }

  function StatusOf(c: Cluster, lane: Lane): Option<LaneStatus> {
    FindStatus(c.lanes, lane)
  }

  function FindStatus(lanes: seq<LaneState>, lane: Lane): Option<LaneStatus> {
    if lanes == [] then None else if lanes[0].lane == lane then Some(lanes[0].status) else FindStatus(lanes[1..], lane)
  }

  function LanesWhere(lanes: seq<Lane>, keep: Lane -> bool): seq<Lane> {
    if lanes == [] then [] else (if keep(lanes[0]) then [lanes[0]] else []) + LanesWhere(lanes[1..], keep)
  }

  function Recovery(c: Cluster): Recovered {
    Recovered(c, Classify(c), DoneLanes(c), if Classify(c) == Incomplete then PendingLanes(c) else [])
  }

  function DoneLanes(c: Cluster): seq<Lane> {
    LanesWhere(LANES, lane => StatusOf(c, lane) == Some(Observed) || StatusOf(c, lane) == Some(StableMissing))
  }

  function PendingLanes(c: Cluster): seq<Lane> {
    LanesWhere(LANES, lane => StatusOf(c, lane) == Some(Pending))
  }

  /** `recoverEventClusterRun` over a list of events. */
  function Recover(k: Codec, plan: Plan, events: seq<Stored>): Result<Recovered, RecoveryError> {
    var latest := Latest(Scoped(k, plan, events));
    if latest.None? then Err(SnapshotMissing)
    else
      var read := StateIn(k, latest.value);
      if read.None? || read.value.stateDigest != k.digest(read.value.cluster) then Err(DigestInvalid)
      else
        var c := read.value.cluster;
        if c.planId != plan.planId || c.planRevision != plan.planRevision then Err(PlanDrift) else Ok(Recovery(c))
  }

  // ----- What recovery answers -----

  /** The snapshot of the plan with the highest stream version, the last of those. */
  predicate NewestAt(k: Codec, plan: Plan, events: seq<Stored>, i: nat) {
    && i < |events| && InScope(k, plan, events[i])
    && (forall j :: 0 <= j < i && InScope(k, plan, events[j]) ==> events[j].captured.streamVersion <= events[i].captured.streamVersion)
    && forall j :: i < j < |events| && InScope(k, plan, events[j]) ==> events[j].captured.streamVersion < events[i].captured.streamVersion
  }

  lemma {:induction false} NewestIndex(k: Codec, plan: Plan, events: seq<Stored>) returns (i: nat)
    requires Latest(Scoped(k, plan, events)).Some?
    ensures NewestAt(k, plan, events, i) && Latest(Scoped(k, plan, events)) == Some(events[i])
  {
    hide InScope;
    var front, n := events[..|events| - 1], |events| - 1;
    var rest := Scoped(k, plan, front);
    assert forall j :: 0 <= j < n ==> front[j] == events[j];
    if InScope(k, plan, events[n]) {
      assert (rest + [events[n]])[..|rest|] == rest;
    } else {
      assert rest + [] == rest;
    }
    if Latest(rest).Some? {
      i := NewestIndex(k, plan, front);
      if InScope(k, plan, events[n]) && events[i].captured.streamVersion <= events[n].captured.streamVersion { i := n; }
    } else {
      NoneNewest(k, plan, front);
      i := n;
    }
  }

  lemma {:induction false} NoneNewest(k: Codec, plan: Plan, events: seq<Stored>)
    ensures Latest(Scoped(k, plan, events)).None? <==> forall i :: 0 <= i < |events| ==> !InScope(k, plan, events[i])
  {
    hide InScope;
    var s := Scoped(k, plan, events);
    assert Latest(s).None? <==> s == [];
    forall e ensures e in s <==> e in events && InScope(k, plan, e) { ScopedFrom(k, plan, events, e); }
    if s != [] { assert s[0] in s; }
    forall i | 0 <= i < |events| && InScope(k, plan, events[i]) ensures s != [] { assert events[i] in s; }
  }

  lemma NewestOnce(k: Codec, plan: Plan, events: seq<Stored>, i: nat, j: nat)
    requires NewestAt(k, plan, events, i) && NewestAt(k, plan, events, j)
    ensures i == j
  {
    hide InScope;
  }

  /**
    Recovery answers by the newest snapshot of the plan alone: with its state if the state hashes to the digest
    stored with it and is of the plan's revision, and otherwise with the reason why not.
   */
  lemma RecoverExactly(k: Codec, plan: Plan, events: seq<Stored>)
    ensures Recover(k, plan, events) == Err(SnapshotMissing) <==> forall i :: 0 <= i < |events| ==> !InScope(k, plan, events[i])
    ensures forall i: nat :: NewestAt(k, plan, events, i) ==>
              var s := StateIn(k, events[i]).value;
              && (s.stateDigest != k.digest(s.cluster) ==> Recover(k, plan, events) == Err(DigestInvalid))
              && (s.stateDigest == k.digest(s.cluster) && s.cluster.planRevision != plan.planRevision ==> Recover(k, plan, events) == Err(PlanDrift))
              && (s.stateDigest == k.digest(s.cluster) && s.cluster.planRevision == plan.planRevision ==>
                    Recover(k, plan, events).Ok? && Recover(k, plan, events).value.cluster == s.cluster)
    ensures Recover(k, plan, events) == Err(SnapshotMissing) || exists i: nat :: NewestAt(k, plan, events, i)
  {
    hide Scoped, Latest, LanesWhere, StatusOf, NewestAt;
    NoneNewest(k, plan, events);
    if Latest(Scoped(k, plan, events)).Some? {
      var i := NewestIndex(k, plan, events);
      assert InScope(k, plan, events[i]) by { NewestIn(k, plan, events, i); }
      forall j: nat | NewestAt(k, plan, events, j) ensures j == i { NewestOnce(k, plan, events, i, j); }
    } else {
      forall j: nat | NewestAt(k, plan, events, j) ensures false { NewestIn(k, plan, events, j); }
    }
  }

  lemma NewestIn(k: Codec, plan: Plan, events: seq<Stored>, i: nat)
    requires NewestAt(k, plan, events, i)
    ensures i < |events| && InScope(k, plan, events[i])
  {
  }

  function Place(lane: Lane): nat {
    match lane
    case Sec => 0
    case IssuerIr => 1
    case Transcript => 2
    case Market => 3
  }

  predicate InPlace(lanes: seq<Lane>) {
    forall i :: 0 < i < |lanes| ==> Place(lanes[i - 1]) < Place(lanes[i])
  }

  predicate HasLane(c: Cluster, lane: Lane, pending: bool) {
    exists i :: 0 <= i < |c.lanes| && c.lanes[i].lane == lane && (c.lanes[i].status == Pending) == pending
  }

  /** The lanes a recovered run is done with, and those it still waits for unless it has ended. */
  lemma RecoveryMeans(c: Cluster)
    requires LanesSound(c.lanes, c.members)
    ensures var r := Recovery(c);
            && r.cluster == c
            && (r.classification == Completed <==> c.status == Complete) && (r.classification == Halted <==> c.status == Stopped)
            && (forall lane: Lane :: lane in r.completedLanes <==> HasLane(c, lane, false))
            && (forall lane: Lane :: lane in r.pendingLanes <==> HasLane(c, lane, true) && c.status != Complete && c.status != Stopped)
            && InPlace(r.completedLanes) && InPlace(r.pendingLanes)
  {
    hide LanesSound, DoneLanes, PendingLanes, HasLane, InPlace;
    LanesListed(c);
    forall lane: Lane
      ensures HasLane(c, lane, true) <==> StatusOf(c, lane) == Some(Pending)
      ensures HasLane(c, lane, false) <==> StatusOf(c, lane) == Some(Observed) || StatusOf(c, lane) == Some(StableMissing) {
      LaneStatusIs(c, lane);
    }
    assert InPlace([]) by { NothingInPlace(); }
  }

  lemma NothingInPlace()
    ensures InPlace([])
  {
  }

  lemma LanesListed(c: Cluster)
    ensures InPlace(DoneLanes(c)) && InPlace(PendingLanes(c))
    ensures forall lane: Lane :: lane in DoneLanes(c) <==> StatusOf(c, lane) == Some(Observed) || StatusOf(c, lane) == Some(StableMissing)
    ensures forall lane: Lane :: lane in PendingLanes(c) <==> StatusOf(c, lane) == Some(Pending)
  {
    hide StatusOf, InPlace, LanesWhere;
    forall keep: Lane -> bool
      ensures InPlace(LanesWhere(LANES, keep)) && forall lane: Lane :: lane in LanesWhere(LANES, keep) <==> keep(lane) {
      LanesKept(keep);
    }
  }

  lemma {:induction false} StatusFound(lanes: seq<LaneState>, i: nat)
    requires i < |lanes| && forall j :: 0 <= j < |lanes| && lanes[j].lane == lanes[i].lane ==> j == i
    ensures FindStatus(lanes, lanes[i].lane) == Some(lanes[i].status)
  {
    if i > 0 {
      assert forall j :: 0 <= j < |lanes| - 1 ==> lanes[1..][j] == lanes[j + 1];
      StatusFound(lanes[1..], i - 1);
    }
  }

  lemma LaneStatusIs(c: Cluster, lane: Lane)
    requires LanesSound(c.lanes, c.members)
    ensures HasLane(c, lane, true) <==> StatusOf(c, lane) == Some(Pending)
    ensures HasLane(c, lane, false) <==> StatusOf(c, lane) == Some(Observed) || StatusOf(c, lane) == Some(StableMissing)
  {
    hide CountIn, FindStatus;
    var i := Place(lane);
    assert LANES[i] == lane && c.lanes[i].lane == lane;
    forall j | 0 <= j < |c.lanes| && c.lanes[j].lane == lane ensures j == i {
      assert LANES[j] == lane && Place(LANES[j]) == j;
    }
    StatusFound(c.lanes, i);
  }

  /** The lanes a function chooses, written out. */
  function Chosen(keep: Lane -> bool): seq<Lane> {
    (if keep(Sec) then [Sec] else []) + (if keep(IssuerIr) then [IssuerIr] else [])
    + (if keep(Transcript) then [Transcript] else []) + (if keep(Market) then [Market] else [])
  }

  lemma LanesKept(keep: Lane -> bool)
    ensures InPlace(LanesWhere(LANES, keep)) && forall lane: Lane :: lane in LanesWhere(LANES, keep) <==> keep(lane)
  {
    hide LanesWhere, InPlace, Chosen;
    LanesChosen(keep);
    ChosenInPlace(keep);
    forall lane: Lane ensures lane in Chosen(keep) <==> keep(lane) { ChosenHas(keep, lane); }
  }

  lemma LanesChosen(keep: Lane -> bool)
    ensures LanesWhere(LANES, keep) == Chosen(keep)
  {
    hide LanesWhere;
    WhereCons(Market, [], keep);
    WhereCons(Transcript, [Market] + [], keep);
    WhereCons(IssuerIr, [Transcript] + ([Market] + []), keep);
    WhereCons(Sec, [IssuerIr] + ([Transcript] + ([Market] + [])), keep);
    assert LANES == [Sec] + ([IssuerIr] + ([Transcript] + ([Market] + [])));
    assert LanesWhere([], keep) == [] by { WhereNothing(keep); }
  }

  lemma WhereNothing(keep: Lane -> bool)
    ensures LanesWhere([], keep) == []
  {
  }

  lemma ChosenHas(keep: Lane -> bool, lane: Lane)
    ensures lane in Chosen(keep) <==> keep(lane)
  {
  }

  lemma ChosenInPlace(keep: Lane -> bool)
    ensures InPlace(Chosen(keep))
  {
  }

  lemma WhereCons(lane: Lane, rest: seq<Lane>, keep: Lane -> bool)
    ensures LanesWhere([lane] + rest, keep) == (if keep(lane) then [lane] else []) + LanesWhere(rest, keep)
  {
    assert ([lane] + rest)[1..] == rest;
  }

  lemma LogIsChain(log: Events.InMemoryEventLog)
    requires log.Valid()
    ensures Events.Chain(log.sha, log.events)
  {
  }

  /** `recoverEventClusterRunFromLog`: pages are gathered until the log has no more. */
  method RecoverFromLog(k: Codec, plan: Plan, log: Events.InMemoryEventLog, pageSize: nat)
    returns (r: Result<Recovered, RecoveryError>)
    requires log.Valid() && pageSize > 0
    ensures r == Recover(k, plan, log.events)
  {
    hide *;
    LogIsChain(log);
    var events: seq<Stored> := [];
    var cursor := 0;
    while true
      invariant 0 <= cursor <= |log.events| && events == log.events[..cursor]
      decreases |log.events| - cursor
    {
      var page := log.ReadAfter(cursor, pageSize);
      Events.PageCovers(log.sha, log.events, cursor, pageSize);
      events := events + page.events;
      assert log.events[..page.nextPosition] == log.events[..cursor] + log.events[cursor..page.nextPosition];
      if !page.hasMore {
        assert log.events[..page.nextPosition] == log.events;
        break;
      }
      if page.nextPosition == cursor { assert false; }
      cursor := page.nextPosition;
    }
    r := Recover(k, plan, events);
  }

  // ----- Checkpoint and recover are inverse -----

  /** A log operation: a checkpoint of this run, or anything else anybody captures. */
  datatype LogOp = Save(cluster: Cluster, at: nat) | Other(draft: Draft, at: nat)

  function Do(k: Codec, events: seq<Stored>, op: LogOp): seq<Stored> {
    match op
    case Save(c, at) => Checkpoint(k, events, c, at)
    case Other(d, at) => Events.AppendEvents(k.sha, events, d, at)
  }

  function DoAll(k: Codec, events: seq<Stored>, ops: seq<LogOp>): seq<Stored> {
    if ops == [] then events else Do(k, DoAll(k, events, ops[..|ops| - 1]), ops[|ops| - 1])
  }

  /** Somebody else's draft: no snapshot of this plan, and not filed under this cluster's provider record. */
  predicate Foreign(k: Codec, plan: Plan, d: Draft) {
    && !(k.read(d.rest).Some? && k.read(d.rest).value.cluster.planId == plan.planId)
    && !(d.provider.provider == PROVIDER && d.provider.recordId == Show(plan.clusterId))
  }

  predicate OfPlan(plan: Plan, c: Cluster) {
    c.clusterId == plan.clusterId && c.planId == plan.planId && c.planRevision == plan.planRevision
  }

  /** The states saved, in order. */
  function Saved(ops: seq<LogOp>): seq<Cluster> {
    if ops == [] then []
    else Saved(ops[..|ops| - 1]) + (if ops[|ops| - 1].Save? then [ops[|ops| - 1].cluster] else [])
  }

  /** Checkpoints of the plan's cluster, each of a higher revision than the one before. */
  predicate Rising(cs: seq<Cluster>) {
    forall i :: 0 < i < |cs| ==> cs[i - 1].revision < cs[i].revision
  }

  predicate Ours(k: Codec, plan: Plan, ops: seq<LogOp>) {
    forall i :: 0 <= i < |ops| ==>
      (ops[i].Save? ==> OfPlan(plan, ops[i].cluster)) && (ops[i].Other? ==> Foreign(k, plan, ops[i].draft))
  }

  /** The snapshots of this plan in a log are exactly these states, in this order. */
  predicate Holds(k: Codec, plan: Plan, events: seq<Stored>, cs: seq<Cluster>) {
    var s := Scoped(k, plan, events);
    && |s| == |cs|
    && (forall i :: 0 <= i < |cs| ==> s[i].captured.draft == SnapshotDraft(k, cs[i]))
    && (forall i :: (0 <= i < |events| && events[i].captured.draft.provider.provider == PROVIDER
                     && events[i].captured.draft.provider.recordId == Show(plan.clusterId)) ==> InScope(k, plan, events[i]))
  }

  lemma ScopedNext(k: Codec, plan: Plan, events: seq<Stored>, e: Stored)
    ensures Scoped(k, plan, events + [e]) == Scoped(k, plan, events) + (if InScope(k, plan, e) then [e] else [])
  {
    assert (events + [e])[..|events|] == events;
  }

  lemma {:induction false} ScopedFrom(k: Codec, plan: Plan, events: seq<Stored>, e: Stored)
    ensures e in Scoped(k, plan, events) <==> e in events && InScope(k, plan, e)
  {
    hide InScope;
    if events != [] {
      ScopedFrom(k, plan, events[..|events| - 1], e);
      assert events == events[..|events| - 1] + [events[|events| - 1]];
    }
  }

  /** Two drafts with the same provider key name the same provider record and revision. */
  lemma SameKey(k: Codec, p: Events.Provider, q: Events.Provider)
    requires Events.Injective(k.sha) && Events.ProviderKey(k.sha, p) == Events.ProviderKey(k.sha, q)
    ensures p.provider == q.provider && p.recordId == q.recordId && p.revisionId == q.revisionId
  {
    assert k.sha(Events.ProviderPre(p.provider, p.recordId, p.revisionId)) == k.sha(Events.ProviderPre(q.provider, q.recordId, q.revisionId));
  }

  /** A state of a revision the log does not hold yet is appended, never refused. */
  lemma FreshRevision(k: Codec, plan: Plan, events: seq<Stored>, cs: seq<Cluster>, c: Cluster)
    requires Faithful(k) && Holds(k, plan, events, cs) && OfPlan(plan, c)
    requires forall i :: 0 <= i < |cs| ==> cs[i].revision != c.revision
    ensures Events.Existing(k.sha, events, Events.ProviderKey(k.sha, SnapshotDraft(k, c).provider)).None?
  {
    var key := Events.ProviderKey(k.sha, SnapshotDraft(k, c).provider);
    Events.ExistingIs(k.sha, events, key);
    hide Events.Existing, Scoped, InScope;
    forall i | 0 <= i < |events| ensures Events.KeyOf(k.sha, events[i]) != key {
      if Events.KeyOf(k.sha, events[i]) == key {
        SameKey(k, events[i].captured.draft.provider, SnapshotDraft(k, c).provider);
        ScopedFrom(k, plan, events, events[i]);
        var j :| 0 <= j < |cs| && Scoped(k, plan, events)[j] == events[i];
        ShowInjective(cs[j].revision, c.revision);
      }
    }
  }

  lemma SnapshotInScope(k: Codec, plan: Plan, events: seq<Stored>, c: Cluster, now: nat)
    requires Faithful(k) && OfPlan(plan, c)
    ensures InScope(k, plan, Events.Capture(k.sha, events, SnapshotDraft(k, c), now))
    ensures Events.Capture(k.sha, events, SnapshotDraft(k, c), now).captured.draft == SnapshotDraft(k, c)
  {
    hide Events.SubjectCount, Events.NextLogical, Events.HashBefore, Show;
  }

  lemma ForeignCapture(k: Codec, plan: Plan, events: seq<Stored>, d: Draft, now: nat)
    requires Foreign(k, plan, d)
    ensures var e := Events.Capture(k.sha, events, d, now);
            !InScope(k, plan, e) && e.captured.draft == d
  {
    hide Events.SubjectCount, Events.NextLogical, Events.HashBefore, Show;
  }

  lemma SaveHolds(k: Codec, plan: Plan, events: seq<Stored>, cs: seq<Cluster>, c: Cluster, now: nat)
    requires Faithful(k) && Holds(k, plan, events, cs) && OfPlan(plan, c)
    requires forall i :: 0 <= i < |cs| ==> cs[i].revision != c.revision
    ensures Holds(k, plan, Checkpoint(k, events, c, now), cs + [c])
  {
    hide *;
    FreshRevision(k, plan, events, cs, c);
    SnapshotInScope(k, plan, events, c, now);
    Events.AppendCases(k.sha, events, SnapshotDraft(k, c), now);
    HoldsNext(k, plan, events, cs, c, Events.Capture(k.sha, events, SnapshotDraft(k, c), now));
    CheckpointIs(k, events, c, now);
  }

  lemma CheckpointIs(k: Codec, events: seq<Stored>, c: Cluster, now: nat)
    ensures Checkpoint(k, events, c, now) == Events.AppendEvents(k.sha, events, SnapshotDraft(k, c), now)
  {
  }

  lemma HoldsNext(k: Codec, plan: Plan, events: seq<Stored>, cs: seq<Cluster>, c: Cluster, e: Stored)
    requires Holds(k, plan, events, cs) && InScope(k, plan, e) && e.captured.draft == SnapshotDraft(k, c)
    ensures Holds(k, plan, events + [e], cs + [c])
  {
    ScopedNext(k, plan, events, e);
    hide Scoped, InScope, Show, SnapshotDraft;
  }

  lemma OtherHolds(k: Codec, plan: Plan, events: seq<Stored>, cs: seq<Cluster>, d: Draft, now: nat)
    requires Holds(k, plan, events, cs) && Foreign(k, plan, d)
    ensures Holds(k, plan, Events.AppendEvents(k.sha, events, d, now), cs)
  {
    var e := Events.Capture(k.sha, events, d, now);
    ForeignCapture(k, plan, events, d, now);
    ScopedNext(k, plan, events, e);
    hide Events.Existing, Events.Capture, Scoped, InScope, Show;
  }

  lemma {:induction false} RisingAll(cs: seq<Cluster>, i: nat, j: nat)
    requires Rising(cs) && i < j < |cs|
    ensures cs[i].revision < cs[j].revision
    decreases j
  {
    if i < j - 1 { RisingAll(cs, i, j - 1); }
  }

  /** Whatever else goes into the log, it holds the saved states in order, and stays a sound log. */
  lemma {:induction false} DoAllHolds(k: Codec, plan: Plan, events: seq<Stored>, ops: seq<LogOp>)
    requires Faithful(k) && Holds(k, plan, events, []) && Ours(k, plan, ops) && Rising(Saved(ops))
    requires Events.Wellformed(k.sha, events)
    ensures Holds(k, plan, DoAll(k, events, ops), Saved(ops)) && Events.Wellformed(k.sha, DoAll(k, events, ops))
  {
    hide Holds, Faithful, Events.Wellformed, Foreign, OfPlan, Checkpoint;
    if ops != [] {
      var last, head := ops[|ops| - 1], ops[..|ops| - 1];
      var before := DoAll(k, events, head);
      assert forall i :: 0 <= i < |head| ==> head[i] == ops[i];
      RisingHead(ops);
      DoAllHolds(k, plan, events, head);
      match last
      case Save(c, at) =>
        forall i | 0 <= i < |Saved(head)| ensures Saved(head)[i].revision != c.revision {
          RisingAll(Saved(ops), i, |Saved(head)|);
          assert Saved(ops)[i] == Saved(head)[i];
        }
        SaveHolds(k, plan, before, Saved(head), c, at);
        CheckpointWellformed(k, before, c, at);
      case Other(d, at) =>
        OtherHolds(k, plan, before, Saved(head), d, at);
        Events.AppendKeepsWellformed(k.sha, before, d, at);
        assert Saved(ops) == Saved(head);
    }
  }

  lemma RisingHead(ops: seq<LogOp>)
    requires ops != [] && Rising(Saved(ops))
    ensures Rising(Saved(ops[..|ops| - 1]))
  {
    var s, t := Saved(ops[..|ops| - 1]), Saved(ops);
    forall i | 0 < i < |s| ensures s[i - 1].revision < s[i].revision {
      assert t[i - 1] == s[i - 1] && t[i] == s[i];
    }
  }

  lemma CheckpointWellformed(k: Codec, events: seq<Stored>, c: Cluster, now: nat)
    requires Events.Wellformed(k.sha, events)
    ensures Events.Wellformed(k.sha, Checkpoint(k, events, c, now))
  {
    Events.AppendKeepsWellformed(k.sha, events, SnapshotDraft(k, c), now);
  }

  // ----- The highest stream version is the last one -----

  lemma {:induction false} SubjectCountGrows(events: seq<Stored>, i: nat, j: nat, subject: string)
    requires i <= j <= |events|
    ensures Events.SubjectCount(events[..i], subject) <= Events.SubjectCount(events[..j], subject)
    ensures i < j && events[i].captured.draft.subject == subject ==>
              Events.SubjectCount(events[..i], subject) < Events.SubjectCount(events[..j], subject)
    decreases j
  {
    if i < j {
      SubjectCountGrows(events, i, j - 1, subject);
      assert events[..j][..j - 1] == events[..j - 1] && events[..j][j - 1] == events[j - 1];
    }
  }

  lemma VersionsRise(sha: Events.Sha, events: seq<Stored>, i: nat, j: nat)
    requires Events.Wellformed(sha, events) && i < j < |events|
    requires events[i].captured.draft.subject == events[j].captured.draft.subject
    ensures events[i].captured.streamVersion < events[j].captured.streamVersion
  {
    SubjectCountGrows(events, i, j, events[i].captured.draft.subject);
    hide Events.SubjectCount;
  }

  /** The scoped events of one subject, in log order, have rising stream versions. */
  predicate VersionsSorted(s: seq<Stored>) {
    forall i, j :: 0 <= i < j < |s| ==> s[i].captured.streamVersion < s[j].captured.streamVersion
  }

  lemma {:induction false} ScopedIndexed(k: Codec, plan: Plan, events: seq<Stored>, i: nat, j: nat) returns (a: nat, b: nat)
    requires i < j < |Scoped(k, plan, events)|
    ensures a < b < |events| && events[a] == Scoped(k, plan, events)[i] && events[b] == Scoped(k, plan, events)[j]
  {
    hide InScope;
    var head := Scoped(k, plan, events[..|events| - 1]);
    if j < |head| {
      a, b := ScopedIndexed(k, plan, events[..|events| - 1], i, j);
    } else {
      b := |events| - 1;
      a := ScopedIndex(k, plan, events[..|events| - 1], i);
    }
  }

  lemma {:induction false} ScopedIndex(k: Codec, plan: Plan, events: seq<Stored>, i: nat) returns (a: nat)
    requires i < |Scoped(k, plan, events)|
    ensures a < |events| && events[a] == Scoped(k, plan, events)[i]
  {
    hide InScope;
    var head := Scoped(k, plan, events[..|events| - 1]);
    if i < |head| { a := ScopedIndex(k, plan, events[..|events| - 1], i); } else { a := |events| - 1; }
  }

  lemma ScopedSorted(k: Codec, plan: Plan, events: seq<Stored>, cs: seq<Cluster>)
    requires Events.Wellformed(k.sha, events) && Holds(k, plan, events, cs)
    requires forall i :: 0 <= i < |cs| ==> OfPlan(plan, cs[i])
    ensures VersionsSorted(Scoped(k, plan, events))
  {
    hide Scoped, Events.Wellformed, InScope, Show;
    var s := Scoped(k, plan, events);
    forall i, j | 0 <= i < j < |s| ensures s[i].captured.streamVersion < s[j].captured.streamVersion {
      var a, b := ScopedIndexed(k, plan, events, i, j);
      assert s[i].captured.draft == SnapshotDraft(k, cs[i]) && s[j].captured.draft == SnapshotDraft(k, cs[j]);
      VersionsRise(k.sha, events, a, b);
    }
  }

  lemma {:induction false} LatestIsLast(s: seq<Stored>)
    requires VersionsSorted(s) && s != []
    ensures Latest(s) == Some(s[|s| - 1])
  {
    if |s| > 1 {
      var head := s[..|s| - 1];
      forall i, j | 0 <= i < j < |head| ensures head[i].captured.streamVersion < head[j].captured.streamVersion {
        assert head[i] == s[i] && head[j] == s[j];
      }
      LatestIsLast(head);
      assert head[|head| - 1] == s[|s| - 2];
    }
  }

  lemma {:induction false} SavedOurs(k: Codec, plan: Plan, ops: seq<LogOp>)
    requires Ours(k, plan, ops)
    ensures forall i :: 0 <= i < |Saved(ops)| ==> OfPlan(plan, Saved(ops)[i])
  {
    hide Foreign, OfPlan;
    if ops != [] {
      assert forall i :: 0 <= i < |ops| - 1 ==> ops[..|ops| - 1][i] == ops[i];
      SavedOurs(k, plan, ops[..|ops| - 1]);
    }
  }

  /** Recovery of a log that holds these states of the plan returns the last of them. */
  lemma RecoverLast(k: Codec, plan: Plan, events: seq<Stored>, cs: seq<Cluster>)
    requires Faithful(k) && Events.Wellformed(k.sha, events) && Holds(k, plan, events, cs) && cs != []
    requires forall i :: 0 <= i < |cs| ==> OfPlan(plan, cs[i])
    ensures Recover(k, plan, events) == Ok(Recovery(cs[|cs| - 1]))
  {
    ScopedSorted(k, plan, events, cs);
    LatestIsLast(Scoped(k, plan, events));
    var c := cs[|cs| - 1];
    assert k.read(k.write(Snapshot(c, k.digest(c)))) == Some(Snapshot(c, k.digest(c)));
    hide Scoped, Latest, Events.Wellformed, Recovery, InScope, Show, Faithful, VersionsSorted;
  }

  /**
    Checkpoint and recover are inverse: a log shared with anything else gives back exactly the last state
    saved, if states are saved in rising revisions.
   */
  lemma CheckpointThenRecover(k: Codec, plan: Plan, events: seq<Stored>, ops: seq<LogOp>)
    requires Faithful(k) && Holds(k, plan, events, []) && Events.Wellformed(k.sha, events)
    requires Ours(k, plan, ops) && Rising(Saved(ops)) && Saved(ops) != []
    ensures Recover(k, plan, DoAll(k, events, ops)) == Ok(Recovery(Saved(ops)[|Saved(ops)| - 1]))
  {
    hide *;
    DoAllHolds(k, plan, events, ops);
    SavedOurs(k, plan, ops);
    RecoverLast(k, plan, DoAll(k, events, ops), Saved(ops));
  }

  /**
    In every log, a cluster's revision is held once: no other event holds it, saving the same state again adds
    nothing, and saving a different one under it is refused.
   */
  lemma SavedOnce(k: Codec, events: seq<Stored>, i: nat, c: Cluster, d: Cluster, later: nat)
    requires Faithful(k) && Events.Wellformed(k.sha, events) && c.clusterId == d.clusterId && c.revision == d.revision
    requires i < |events| && events[i].captured.draft == SnapshotDraft(k, c)
    ensures forall j :: 0 <= j < |events| && events[j].captured.draft == SnapshotDraft(k, d) ==> j == i && d == c
    ensures Checkpoint(k, events, d, later) == events
    ensures Events.AppendResult(k.sha, events, SnapshotDraft(k, d), later).Ok? <==> c == d
  {
    var key := Events.ProviderKey(k.sha, SnapshotDraft(k, d).provider);
    assert Events.KeyOf(k.sha, events[i]) == key;
    HeldAt(k, events, key, i);
    SameDraft(k, c, d);
    forall j | 0 <= j < |events| && events[j].captured.draft == SnapshotDraft(k, d) ensures j == i {
      assert Events.KeyOf(k.sha, events[j]) == key;
    }
    hide Events.Existing, Events.Capture, Show;
  }

  lemma SameDraft(k: Codec, c: Cluster, d: Cluster)
    requires Faithful(k)
    ensures SnapshotDraft(k, c).provider.artifactHash == SnapshotDraft(k, d).provider.artifactHash <==> c == d
  {
    hide Show;
    assert k.digest(c) == k.digest(d) <==> c == d;
  }

  lemma HeldAt(k: Codec, events: seq<Stored>, key: Id, i: nat)
    requires Events.Wellformed(k.sha, events) && i < |events| && Events.KeyOf(k.sha, events[i]) == key
    ensures Events.Existing(k.sha, events, key) == Some(events[i])
    ensures forall j :: 0 <= j < |events| && Events.KeyOf(k.sha, events[j]) == key ==> j == i
  {
    hide Events.Existing, Events.KeyOf, Events.VersionsCount, Events.ClocksRise;
    Events.ExistingIs(k.sha, events, key);
    var e := Events.Existing(k.sha, events, key).value;
    var j :| 0 <= j < |events| && events[j] == e;
    assert Events.KeyOf(k.sha, events[j]) == key;
  }

  // ----- Resuming -----

  /** `settleRecoveredEventClusterRun`. */
  function SettleRecovered(c: Cluster, plan: Plan, atMs: nat): Option<Cluster> {
    if c.planId != plan.planId || c.planRevision != plan.planRevision then None
    else if c.status == Complete then Some(c)
    else if c.status == Stopped then None
    else
      var settling := if c.status == Settling then Some(c) else Go(c, Settling, atMs);
      if settling.None? then None else Settle(settling.value, plan, atMs)
  }

  /** A sound run that was active settles to a sound, complete cluster with its inventory; settling again changes nothing. */
  lemma SettledRecovery(c: Cluster, plan: Plan, atMs: nat)
    requires Sound(c) && SettleRecovered(c, plan, atMs).Some? && (c.status == Complete ==> c.inventory.Some?)
    ensures var done := SettleRecovered(c, plan, atMs).value;
            && Sound(done) && done.status == Complete && done.inventory.Some?
            && SettleRecovered(done, plan, atMs) == Some(done)
  {
    if c.status != Complete {
      var settling := if c.status == Settling then c else Go(c, Settling, atMs).value;
      if c.status != Settling { ApplyKept(plan, c, GoTo(Settling, atMs)); }
      SettleKept(plan, settling, atMs);
      hide Sound, MissLanes, MissingOf, SortLanes, Unique, DigestsOf;
    }
  }
}
