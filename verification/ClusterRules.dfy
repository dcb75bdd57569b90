/**
  When a cluster takes an operation and what it then is, said without the operation: by the rank of a
  status, the latest member of a record, the lanes a plan is ready for and the order of member keys.
 */
module ClusterRules {
  import opened Base
  import opened EventCluster

  // ----- Statuses -----

  /** How far a cluster has come. */
  function Rank(s: Status): nat {
    match s
    case Candidate => 0
    case Prewarming => 1
    case Frozen => 2
    case Active => 3
    case PrimaryObserved => 4
    case FollowUp => 5
    case Settling => 6
    case Complete => 7
    case Stopped => 8
  }

  predicate Ended(s: Status) {
    Rank(s) >= 7
  }

  /** One step at a time, except that an active cluster may pass over what it did not observe; stopping is open until the end. */
  lemma MayGoExactly(from: Status, to: Status)
    ensures MayGo(from, to) <==>
              !Ended(from) && (to == Stopped || Rank(to) == Rank(from) + 1 || 3 <= Rank(from) < Rank(to) <= 6)
  {
  }

  /** No operation is taken after the end, none goes back, and preparation is not cut short. */
  lemma StatusRises(plan: Plan, c: Cluster, op: Op)
    requires Apply(plan, c, op).Some?
    ensures var d := Apply(plan, c, op).value;
            && !Ended(c.status) && Rank(c.status) <= Rank(d.status)
            && (d.status != Stopped && Rank(c.status) < 3 ==> Rank(d.status) <= Rank(c.status) + 1)
            && (d.status == Complete ==> c.status == Settling)
  {
    hide MemberAdmitted, Linked, FindRevision, Insert, ObserveLanes, MissLanes, Unique, SortLanes;
  }

  /** Preparation takes three operations whatever they are; a run never goes back, and ends where it ended. */
  lemma {:induction false} RunRises(plan: Plan, c: Cluster, ops: seq<Op>)
    requires RunOf(plan, c, ops).Some?
    ensures var last := RunOf(plan, c, ops).value;
            && Rank(c.status) <= Rank(last.status)
            && (Ended(c.status) ==> ops == [])
            && (last.status != Stopped && Rank(c.status) + |ops| < 3 ==> Rank(last.status) <= Rank(c.status) + |ops|)
    decreases |ops|
  {
    hide Apply;
    if ops != [] {
      StatusRises(plan, c, ops[0]);
      RunRises(plan, Apply(plan, c, ops[0]).value, ops[1..]);
    }
  }

  /** What a member's arrival means for the status at least. */
  function Due(kind: Kind): nat {
    match kind
    case MarketBars => 3
    case IssuerRelease => 4
    case Sec8K => 4
    case Sec10Q => 5
    case Sec10K => 5
    case TranscriptText => 5
  }

  predicate Milestones(c: Cluster) {
    forall m :: m in c.members ==> Due(m.kind) <= Rank(c.status)
  }

  // ----- Members -----

  predicate FitsLane(kind: Kind, lane: Lane) {
    || (lane == Sec && (kind == Sec8K || kind == Sec10Q || kind == Sec10K))
    || (lane == IssuerIr && kind == IssuerRelease)
    || (lane == Transcript && kind == TranscriptText)
    || (lane == Market && kind == MarketBars)
  }

  predicate ReadyFor(plan: Plan, lane: Lane) {
    lane in plan.acquisitions && plan.acquisitions[lane].ready
  }

  /** What is asked of a member by itself. */
  predicate Welcome(plan: Plan, m: Member) {
    && FitsLane(m.kind, m.lane) && ReadyFor(plan, m.lane) && plan.acquisitions[m.lane].providerId == m.providerId && plan.admits(m)
    && (m.publishedAtMs.Some? ==> m.publishedAtMs.value <= m.firstObservedAtMs) && m.firstObservedAtMs <= m.retrievedAtMs
  }

  predicate OwnPlan(c: Cluster, plan: Plan) {
    c.planId == plan.planId && c.planRevision == plan.planRevision
  }

  predicate Newer(plan: Plan, a: Member, b: Member) {
    b.retrievedAtMs < a.retrievedAtMs || (b.retrievedAtMs == a.retrievedAtMs && plan.revisionBefore(b.revisionId, a.revisionId))
  }

  /** No member of the record is newer than this one, and a later one in the list is older. */
  predicate LatestAt(plan: Plan, members: seq<Member>, m: Member, i: nat) {
    && i < |members| && SameRecord(members[i], m)
    && (forall j :: 0 <= j < i && SameRecord(members[j], m) ==> !Newer(plan, members[j], members[i]))
    && forall j :: i < j < |members| && SameRecord(members[j], m) ==> Newer(plan, members[i], members[j])
  }

  predicate RecordKnown(members: seq<Member>, m: Member) {
    exists x :: x in members && SameRecord(x, m)
  }

  predicate RevisionKnown(members: seq<Member>, m: Member) {
    exists x :: x in members && SameRevision(x, m)
  }

  /** The first of a record is an original; any other replaces the latest before it. */
  predicate Replaces(plan: Plan, members: seq<Member>, m: Member) {
    if RecordKnown(members, m) then
      m.relationship != Original && exists i: nat :: i < |members| && LatestAt(plan, members, m, i) && m.supersedes == Some(members[i].artifactDigest)
    else m.relationship == Original && m.supersedes == None
  }

  lemma {:induction false} LatestFound(plan: Plan, members: seq<Member>, m: Member) returns (i: nat)
    requires Collates(plan) && LatestOf(plan, members, m).Some?
    ensures LatestAt(plan, members, m, i) && LatestOf(plan, members, m) == Some(members[i])
  {
    var front, last := members[..|members| - 1], members[|members| - 1];
    assert forall j :: 0 <= j < |front| ==> front[j] == members[j];
    var rest := LatestOf(plan, front, m);
    if rest.None? {
      LatestIs(plan, front, m);
      i := |front|;
    } else {
      i := LatestFound(plan, front, m);
      if SameRecord(last, m) && Later(plan, last, rest.value) {
        forall j | 0 <= j < |front| && SameRecord(members[j], m) ensures !Newer(plan, members[j], last) {
          if j < i { OldStays(plan, front[j], front[i], last); }
          if j > i { YoungerLeft(plan, front[i], front[j], last); }
        }
        i := |front|;
      } else if SameRecord(last, m) {
        assert Newer(plan, members[i], last);
      }
    }
  }

  lemma OldStays(plan: Plan, a: Member, b: Member, c: Member)
    requires Collates(plan) && !Newer(plan, a, b) && Later(plan, c, b)
    ensures !Newer(plan, a, c)
  {
    if a.retrievedAtMs == b.retrievedAtMs == c.retrievedAtMs {
      assert !plan.revisionBefore(c.revisionId, b.revisionId) && !plan.revisionBefore(b.revisionId, a.revisionId);
    }
  }

  lemma YoungerLeft(plan: Plan, a: Member, b: Member, c: Member)
    requires Collates(plan) && Newer(plan, a, b) && Later(plan, c, a)
    ensures !Newer(plan, b, c)
  {
    if a.retrievedAtMs == b.retrievedAtMs == c.retrievedAtMs {
      assert plan.revisionBefore(b.revisionId, a.revisionId);
      assert !plan.revisionBefore(c.revisionId, a.revisionId) && !plan.revisionBefore(a.revisionId, b.revisionId);
    }
  }

  lemma LatestOnce(plan: Plan, members: seq<Member>, m: Member, i: nat, j: nat)
    requires LatestAt(plan, members, m, i) && LatestAt(plan, members, m, j)
    ensures i == j
  {
  }

  lemma LinkedExactly(plan: Plan, members: seq<Member>, m: Member)
    requires Collates(plan)
    ensures Linked(plan, members, m) <==> Replaces(plan, members, m)
  {
    hide Collates, LatestOf, LatestAt, SameRecord;
    LatestIs(plan, members, m);
    if LatestOf(plan, members, m).Some? {
      var i := LatestFound(plan, members, m);
      forall j: nat | j < |members| && LatestAt(plan, members, m, j) ensures j == i { LatestOnce(plan, members, m, i, j); }
    } else {
      forall x | x in members ensures !SameRecord(x, m) { var j :| 0 <= j < |members| && members[j] == x; }
    }
  }

  lemma {:induction false} RevisionFound(members: seq<Member>, m: Member)
    requires RevisionsUnique(members)
    ensures FindRevision(members, m) == Some(m) <==> m in members
    ensures FindRevision(members, m).None? <==> !RevisionKnown(members, m)
  {
    FindIs(members, m);
    if m in members {
      var i :| 0 <= i < |members| && members[i] == m;
      FindAt(members, m, i);
    }
    FindIn(members, m);
    forall j | 0 <= j < |members| ensures members[j] in members { }
  }

  lemma {:induction false} FindIn(members: seq<Member>, m: Member)
    ensures FindRevision(members, m).Some? ==> FindRevision(members, m).value in members && SameRevision(FindRevision(members, m).value, m)
  {
    if members != [] { FindIn(members[1..], m); }
  }

  lemma {:induction false} FindAt(members: seq<Member>, m: Member, i: nat)
    requires RevisionsUnique(members) && i < |members| && members[i] == m
    ensures FindRevision(members, m) == Some(m)
  {
    if i > 0 {
      assert !SameRevision(members[0], members[i]);
      assert forall j :: 0 <= j < |members| - 1 ==> members[1..][j] == members[j + 1];
      FindAt(members[1..], m, i - 1);
    }
  }

  /** What a delivery of a member leaves, by whether it was there already. */
  predicate Recorded(c: Cluster, m: Member, d: Cluster) {
    && d.revision == c.revision + 1 && d.updatedAtMs == m.retrievedAtMs
    && d.clusterId == c.clusterId && d.planId == c.planId && d.planRevision == c.planRevision
    && d.inventory == c.inventory && d.stoppedReason == c.stoppedReason
    && if m in c.members then
         d.members == c.members && d.duplicateCount == c.duplicateCount + 1 && d.lanes == c.lanes && d.status == c.status
       else
         && multiset(d.members) == multiset(c.members) + multiset{m} && d.duplicateCount == c.duplicateCount
         && Rank(d.status) == Max(Rank(c.status), Due(m.kind))
         && |d.lanes| == |c.lanes|
         && forall i :: 0 <= i < |c.lanes| ==>
              if c.lanes[i].lane == m.lane then d.lanes[i] == LaneState(m.lane, Observed, c.lanes[i].memberCount + 1, None) else d.lanes[i] == c.lanes[i]
  }

  lemma {:induction false} InsertBag(plan: Plan, members: seq<Member>, m: Member)
    ensures multiset(Insert(plan, members, m)) == multiset(members) + multiset{m}
  {
    if members != [] && !plan.before(m, members[0]) {
      InsertBag(plan, members[1..], m);
      assert members == [members[0]] + members[1..];
    }
  }

  lemma WelcomeExactly(c: Cluster, plan: Plan, m: Member)
    ensures MemberAdmitted(c, plan, m) <==> OwnPlan(c, plan) && Welcome(plan, m)
  {
  }

  /** A member is taken exactly by an observing cluster that has it already, or for whose record it is the next revision. */
  lemma RecordExactly(c: Cluster, plan: Plan, m: Member)
    requires Sound(c) && Collates(plan)
    ensures RecordMember(c, plan, m).Some? <==>
              && 3 <= Rank(c.status) <= 5 && OwnPlan(c, plan) && Welcome(plan, m)
              && (m in c.members || (!RevisionKnown(c.members, m) && Replaces(plan, c.members, m)))
    ensures RecordMember(c, plan, m).Some? ==> Recorded(c, m, RecordMember(c, plan, m).value)
  {
    hide MemberAdmitted, Welcome, Linked, Replaces, Insert, RevisionKnown, RevisionsUnique, OneOriginalEach, InventorySound, CountIn, FindRevision, Collates;
    WelcomeExactly(c, plan, m);
    LinkedExactly(plan, c.members, m);
    RevisionFound(c.members, m);
    InsertBag(plan, c.members, m);
    InsertIs(plan, c.members, m);
    if m in c.members { assert FindRevision(c.members, m) == Some(m); }
  }

  // ----- Creation, missing lanes, settlement -----

  lemma {:induction false} LanesForExactly(plan: Plan, lanes: seq<Lane>)
    ensures LanesFor(plan, lanes).Some? <==> forall i :: 0 <= i < |lanes| ==> lanes[i] in plan.acquisitions
    ensures LanesFor(plan, lanes).Some? ==>
              && |LanesFor(plan, lanes).value| == |lanes|
              && forall i :: 0 <= i < |lanes| ==> LanesFor(plan, lanes).value[i] == StartOf(plan, lanes[i])
  {
    if lanes != [] {
      LanesForExactly(plan, lanes[1..]);
      assert forall i :: 0 < i < |lanes| ==> lanes[i] == lanes[1..][i - 1];
    }
  }

  /** A lane is pending from the start if its acquisition is ready, and otherwise missing for good. */
  function StartOf(plan: Plan, lane: Lane): LaneState {
    if lane !in plan.acquisitions then LaneState(lane, StableMissing, 0, None)
    else LaneState(lane, if ReadyFor(plan, lane) then Pending else StableMissing, 0, plan.acquisitions[lane].blocker)
  }

  lemma EveryLane(plan: Plan)
    ensures (forall lane: Lane :: lane in plan.acquisitions) <==> forall i :: 0 <= i < |LANES| ==> LANES[i] in plan.acquisitions
  {
    if forall i :: 0 <= i < |LANES| ==> LANES[i] in plan.acquisitions {
      forall lane: Lane ensures lane in plan.acquisitions {
        LaneIndex(lane);
        var i :| 0 <= i < |LANES| && LANES[i] == lane;
      }
    }
  }

  lemma CreateExactly(plan: Plan, at: nat)
    ensures Create(plan, at).Some? <==> forall lane: Lane :: lane in plan.acquisitions
    ensures Create(plan, at).Some? ==>
              var c := Create(plan, at).value;
              && c.members == [] && c.status == Candidate && c.inventory.None? && OwnPlan(c, plan) && c.clusterId == plan.clusterId
              && |c.lanes| == |LANES| && forall i :: 0 <= i < |LANES| ==> c.lanes[i] == StartOf(plan, LANES[i])
  {
    LanesForExactly(plan, LANES);
    EveryLane(plan);
    hide LanesFor, StartOf;
  }

  /** Only pending lanes go missing, for the reason given. */
  predicate Missed(c: Cluster, d: Cluster, chosen: set<Lane>, reason: string) {
    && |d.lanes| == |c.lanes|
    && forall i :: 0 <= i < |c.lanes| ==>
         if c.lanes[i].status == Pending && c.lanes[i].lane in chosen
         then d.lanes[i] == LaneState(c.lanes[i].lane, StableMissing, c.lanes[i].memberCount, Some(reason)) else d.lanes[i] == c.lanes[i]
  }

  predicate SameButLanes(c: Cluster, d: Cluster) {
    && d.revision == c.revision + 1 && d.clusterId == c.clusterId && d.planId == c.planId && d.planRevision == c.planRevision
    && d.members == c.members && d.duplicateCount == c.duplicateCount && d.stoppedReason == c.stoppedReason
  }

  lemma MissingExactly(c: Cluster, lane: Lane, reason: string, at: nat)
    ensures RecordMissing(c, lane, reason, at).Some? <==> 3 <= Rank(c.status) <= 6 && 1 <= |reason| <= 256
    ensures RecordMissing(c, lane, reason, at).Some? ==>
              var d := RecordMissing(c, lane, reason, at).value;
              SameButLanes(c, d) && Missed(c, d, {lane}, reason) && d.status == c.status && d.inventory == c.inventory && d.updatedAtMs == at
  {
  }

  lemma SettleExactly(c: Cluster, plan: Plan, at: nat)
    requires Sound(c)
    ensures Settle(c, plan, at).Some? <==> c.status == Settling && OwnPlan(c, plan) && plan.settlementEndMs <= at
    ensures Settle(c, plan, at).Some? ==>
              var d := Settle(c, plan, at).value;
              && SameButLanes(c, d) && Missed(c, d, {Sec, IssuerIr, Transcript, Market}, "not-observed-before-settlement")
              && d.status == Complete && d.updatedAtMs == at && d.inventory.Some? && InventorySound(d)
  {
    if Settle(c, plan, at).Some? { SettleKept(plan, c, at); }
    hide Sound, MissingOf, SortLanes, Unique, DigestsOf, InventorySound;
  }

  // ----- The order of members -----

  /** The order of member keys is one. */
  ghost predicate KeysCollate(plan: Plan) {
    && (forall a: Member, b: Member {:trigger plan.before(a, b)} :: plan.before(a, b) ==> !plan.before(b, a))
    && forall a: Member, b: Member, c: Member {:trigger plan.before(a, b), plan.before(b, c)} ::
         !plan.before(a, b) && !plan.before(b, c) ==> !plan.before(a, c)
  }

  predicate MembersInOrder(plan: Plan, members: seq<Member>) {
    forall i, j :: 0 <= i < j < |members| ==> !plan.before(members[j], members[i])
  }

  lemma {:induction false} InsertInOrder(plan: Plan, members: seq<Member>, m: Member)
    requires KeysCollate(plan) && MembersInOrder(plan, members)
    ensures MembersInOrder(plan, Insert(plan, members, m))
  {
    var all := Insert(plan, members, m);
    if members == [] {
    } else if plan.before(m, members[0]) {
      forall i, j | 0 <= i < j < |all| ensures !plan.before(all[j], all[i]) {
        if i == 0 {
          assert !plan.before(members[0], m);
          if j > 1 { assert !plan.before(members[j - 1], members[0]); }
        } else {
          assert all[i] == members[i - 1] && all[j] == members[j - 1];
        }
      }
    } else {
      var rest := Insert(plan, members[1..], m);
      assert forall i :: 0 <= i < |members| - 1 ==> members[1..][i] == members[i + 1];
      InsertInOrder(plan, members[1..], m);
      InsertIs(plan, members[1..], m);
      forall j | 0 <= j < |rest| ensures !plan.before(rest[j], members[0]) {
        assert rest[j] in rest;
        if rest[j] != m {
          var n :| 0 <= n < |members| - 1 && members[1..][n] == rest[j];
          assert !plan.before(members[n + 1], members[0]);
        }
      }
    }
  }

  // ----- Over whole runs -----

  /** A lane the plan is not ready for keeps its blocker and stays without members. */
  predicate LanesPlanned(plan: Plan, c: Cluster) {
    && |c.lanes| == |LANES|
    && forall i :: 0 <= i < |LANES| ==>
         c.lanes[i].lane == LANES[i] && (!ReadyFor(plan, LANES[i]) ==> c.lanes[i] == StartOf(plan, LANES[i]))
  }

  predicate SettledInTime(plan: Plan, c: Cluster) {
    c.inventory.Some? ==> c.status == Complete && plan.settlementEndMs <= c.updatedAtMs
  }

  ghost predicate Orderly(plan: Plan, c: Cluster) {
    Milestones(c) && LanesPlanned(plan, c) && SettledInTime(plan, c) && MembersInOrder(plan, c.members)
  }

  lemma MilestonesKept(plan: Plan, c: Cluster, op: Op)
    requires Sound(c) && Collates(plan) && Milestones(c) && Apply(plan, c, op).Some?
    ensures Milestones(Apply(plan, c, op).value)
  {
    hide MemberAdmitted, Linked, FindRevision, Insert, ObserveLanes, MissLanes, Unique, SortLanes, Sound, Collates, Rank, Due, Recorded, Apply;
    var d := Apply(plan, c, op).value;
    StatusRises(plan, c, op);
    if op.Record? {
      RecordExactly(c, plan, op.member);
      RecordedRank(c, op.member, d) by { ApplyRecord(plan, c, op.member); }
      forall m | m in d.members ensures Due(m.kind) <= Rank(d.status) { }
    } else {
      OthersKeepMembers(plan, c, op);
    }
  }

  lemma ApplyRecord(plan: Plan, c: Cluster, m: Member)
    ensures Apply(plan, c, Record(m)) == RecordMember(c, plan, m)
  {
  }

  lemma RecordedRank(c: Cluster, m: Member, d: Cluster)
    requires Recorded(c, m, d)
    ensures forall x :: x in d.members <==> x in c.members || x == m
    ensures m !in c.members ==> Due(m.kind) <= Rank(d.status)
    ensures Rank(c.status) <= Rank(d.status)
  {
    hide Due, Rank;
    forall x ensures x in d.members <==> x in c.members || x == m {
      assert x in d.members <==> x in multiset(d.members);
    }
  }

  lemma OthersKeepMembers(plan: Plan, c: Cluster, op: Op)
    requires Apply(plan, c, op).Some? && !op.Record?
    ensures Apply(plan, c, op).value.members == c.members
  {
    hide MissLanes, Unique, SortLanes, DigestsOf, MissingOf;
  }

  lemma LanesKept(plan: Plan, c: Cluster, op: Op)
    requires Sound(c) && Collates(plan) && LanesPlanned(plan, c) && Apply(plan, c, op).Some?
    ensures LanesPlanned(plan, Apply(plan, c, op).value)
  {
    hide MemberAdmitted, Linked, FindRevision, Insert, ObserveLanes, MissLanes, Unique, SortLanes, Sound, Collates, Rank, Due, StartOf;
    var d := Apply(plan, c, op).value;
    match op
    case Record(m) => RecordExactly(c, plan, m); assert Recorded(c, m, d);
    case Missing(lane, reason, at) => MissingExactly(c, lane, reason, at); MissedPlanned(plan, c, d, {lane}, reason);
    case SettleAt(at) => SettleExactly(c, plan, at); MissedPlanned(plan, c, d, {Sec, IssuerIr, Transcript, Market}, "not-observed-before-settlement");
    case _ => {}
  }

  lemma MissedPlanned(plan: Plan, c: Cluster, d: Cluster, chosen: set<Lane>, reason: string)
    requires LanesPlanned(plan, c) && Missed(c, d, chosen, reason)
    ensures LanesPlanned(plan, d)
  {
  }

  lemma SettlementKept(plan: Plan, c: Cluster, op: Op)
    requires Sound(c) && SettledInTime(plan, c) && Apply(plan, c, op).Some?
    ensures SettledInTime(plan, Apply(plan, c, op).value)
  {
    StatusRises(plan, c, op);
    hide MemberAdmitted, Linked, FindRevision, Insert, ObserveLanes, MissLanes, Unique, SortLanes, Sound, MissingOf, DigestsOf;
  }

  lemma OrderKept(plan: Plan, c: Cluster, op: Op)
    requires KeysCollate(plan) && MembersInOrder(plan, c.members) && Apply(plan, c, op).Some?
    ensures MembersInOrder(plan, Apply(plan, c, op).value.members)
  {
    hide MemberAdmitted, Linked, FindRevision, Insert, ObserveLanes, MembersInOrder, KeysCollate, StatusAfter;
    if op.Record? { InsertInOrder(plan, c.members, op.member); } else { OthersKeepMembers(plan, c, op); }
  }

  lemma {:induction false} RunOrderly(plan: Plan, c: Cluster, ops: seq<Op>)
    requires Collates(plan) && KeysCollate(plan) && Sound(c) && Orderly(plan, c) && RunOf(plan, c, ops).Some?
    ensures Orderly(plan, RunOf(plan, c, ops).value)
    decreases |ops|
  {
    hide Sound, Apply, Milestones, LanesPlanned, SettledInTime, MembersInOrder, Collates, KeysCollate;
    if ops != [] {
      MilestonesKept(plan, c, ops[0]);
      LanesKept(plan, c, ops[0]);
      SettlementKept(plan, c, ops[0]);
      OrderKept(plan, c, ops[0]);
      ApplyKept(plan, c, ops[0]);
      RunOrderly(plan, Apply(plan, c, ops[0]).value, ops[1..]);
    }
  }

  /**
    In every run from creation the status is at least what each member's arrival means, lanes the plan is not
    ready for stay missing with their blocker, members are in key order, and no inventory is made before the
    settlement ends.
   */
  lemma RunFromCreationOrderly(plan: Plan, at: nat, ops: seq<Op>)
    requires Collates(plan) && KeysCollate(plan) && Create(plan, at).Some? && RunOf(plan, Create(plan, at).value, ops).Some?
    ensures Orderly(plan, RunOf(plan, Create(plan, at).value, ops).value)
    ensures var last := RunOf(plan, Create(plan, at).value, ops).value; last.status != Stopped && |ops| < 3 ==> Rank(last.status) <= |ops|
  {
    hide Sound, RunOf, ReadyFor, Collates, KeysCollate;
    CreateSound(plan, at);
    CreateExactly(plan, at);
    StartsPlanned(plan, at);
    RunOrderly(plan, Create(plan, at).value, ops);
    RunRises(plan, Create(plan, at).value, ops);
  }

  lemma StartsPlanned(plan: Plan, at: nat)
    requires Create(plan, at).Some?
    ensures LanesPlanned(plan, Create(plan, at).value)
  {
    CreateExactly(plan, at);
    hide LanesFor;
  }
}
