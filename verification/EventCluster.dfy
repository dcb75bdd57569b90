/** The life of an event cluster: lanes, members, duplicates and the inventory it ends with. */
module EventCluster {
  import opened Base

  type Id = nat

  datatype Lane = Sec | IssuerIr | Transcript | Market

  const LANES: seq<Lane> := [Sec, IssuerIr, Transcript, Market]

  datatype Kind = IssuerRelease | Sec8K | Sec10Q | Sec10K | TranscriptText | MarketBars

  datatype Relationship = Original | Amendment | Correction

  /** `rest` is what no lifecycle rule compares. */
  datatype Member = Member(
    lane: Lane, kind: Kind, providerId: string, recordId: string, revisionId: string, artifactDigest: Id,
    relationship: Relationship, supersedes: Option<Id>, publishedAtMs: Option<nat>, firstObservedAtMs: nat,
    retrievedAtMs: nat, rest: string)

  datatype LaneStatus = Pending | Observed | StableMissing

  datatype LaneState = LaneState(lane: Lane, status: LaneStatus, memberCount: nat, missingReason: Option<string>)

  datatype Status = Candidate | Prewarming | Frozen | Active | PrimaryObserved | FollowUp | Settling | Complete | Stopped

  datatype Inventory = Inventory(memberDigests: seq<Id>, missingLanes: seq<Lane>, duplicateCount: nat)

  datatype Cluster = Cluster(
    clusterId: Id, planId: Id, planRevision: Id, revision: nat, status: Status, lanes: seq<LaneState>,
    members: seq<Member>, duplicateCount: nat, inventory: Option<Inventory>, stoppedReason: Option<string>, updatedAtMs: nat)

  datatype Acquisition = Acquisition(providerId: string, ready: bool, blocker: Option<string>)

  /**
    `admits` is the check of one member against the plan's subject, capabilities, forms, items,
    exhibits and request identity, and `before` the collation order of member keys.
   */
  datatype Plan = Plan(
    clusterId: Id, planId: Id, planRevision: Id, acquisitions: map<Lane, Acquisition>, settlementEndMs: nat,
    admits: Member -> bool, before: (Member, Member) -> bool, revisionBefore: (string, string) -> bool)

  // ----- Lanes -----

  function LanesFor(plan: Plan, lanes: seq<Lane>): Option<seq<LaneState>> {
    if lanes == [] then Some([])
    else
      var rest := LanesFor(plan, lanes[1..]);
      if lanes[0] !in plan.acquisitions || rest.None? then None
      else
        var a := plan.acquisitions[lanes[0]];
        Some([LaneState(lanes[0], if a.ready then Pending else StableMissing, 0, a.blocker)] + rest.value)
  }

  function CountIn(members: seq<Member>, lane: Lane): nat {
    if members == [] then 0 else (if members[0].lane == lane then 1 else 0) + CountIn(members[1..], lane)
  }

  function ExpectedLane(kind: Kind): Lane {
    match kind
    case IssuerRelease => IssuerIr
    case TranscriptText => Transcript
    case MarketBars => Market
    case _ => Sec
  }

  // ----- Operations; `None` where the source throws -----

  function Create(plan: Plan, atMs: nat): Option<Cluster> {
    var lanes := LanesFor(plan, LANES);
    if lanes.None? then None
    else Some(Cluster(plan.clusterId, plan.planId, plan.planRevision, 1, Candidate, lanes.value, [], 0, None, None, atMs))
  }

  predicate MayGo(from: Status, to: Status) {
    match from
    case Candidate => to == Prewarming || to == Stopped
    case Prewarming => to == Frozen || to == Stopped
    case Frozen => to == Active || to == Stopped
    case Active => to == PrimaryObserved || to == FollowUp || to == Settling || to == Stopped
    case PrimaryObserved => to == FollowUp || to == Settling || to == Stopped
    case FollowUp => to == Settling || to == Stopped
    case Settling => to == Complete || to == Stopped
    case Complete => false
    case Stopped => false
  }

  function Go(c: Cluster, to: Status, atMs: nat): Option<Cluster> {
    if !MayGo(c.status, to) then None else Some(c.(revision := c.revision + 1, status := to, updatedAtMs := atMs))
  }

  predicate SameRevision(a: Member, b: Member) {
    a.providerId == b.providerId && a.recordId == b.recordId && a.revisionId == b.revisionId
  }

  predicate SameRecord(a: Member, b: Member) {
    a.providerId == b.providerId && a.recordId == b.recordId
  }

  function FindRevision(members: seq<Member>, m: Member): Option<Member> {
    if members == [] then None else if SameRevision(members[0], m) then Some(members[0]) else FindRevision(members[1..], m)
  }

  predicate Later(plan: Plan, a: Member, b: Member) {
    a.retrievedAtMs > b.retrievedAtMs || (a.retrievedAtMs == b.retrievedAtMs && !plan.revisionBefore(a.revisionId, b.revisionId))
  }

  /** The record's latest member by retrieval time, then revision. */
  function LatestOf(plan: Plan, members: seq<Member>, m: Member): Option<Member> {
    if members == [] then None
    else
      var rest := LatestOf(plan, members[..|members| - 1], m);
      var last := members[|members| - 1];
      if !SameRecord(last, m) then rest else if rest.None? || Later(plan, last, rest.value) then Some(last) else rest
  }

  /** The list with one more member in key order. */
  function Insert(plan: Plan, members: seq<Member>, m: Member): (r: seq<Member>)
    ensures |r| == |members| + 1
  {
    if members == [] || plan.before(m, members[0]) then [m] + members
    else [members[0]] + Insert(plan, members[1..], m)
  }

  function ObserveLane(s: LaneState, m: Member, members: seq<Member>): LaneState {
    if s.lane == m.lane then LaneState(s.lane, Observed, CountIn(members, m.lane), None) else s
  }

  function ObserveLanes(lanes: seq<LaneState>, m: Member, members: seq<Member>): (r: seq<LaneState>)
    ensures |r| == |lanes| && forall i :: 0 <= i < |r| ==> r[i] == ObserveLane(lanes[i], m, members)
  {
    seq(|lanes|, i requires 0 <= i < |lanes| => ObserveLane(lanes[i], m, members))
  }

  function StatusAfter(status: Status, kind: Kind): Status {
    if kind == Sec10Q || kind == Sec10K || kind == TranscriptText then FollowUp
    else if (kind == IssuerRelease || kind == Sec8K) && status == Active then PrimaryObserved
    else status
  }

  predicate Observing(s: Status) {
    s == Active || s == PrimaryObserved || s == FollowUp
  }

  predicate MemberAdmitted(c: Cluster, plan: Plan, m: Member) {
    && m.lane == ExpectedLane(m.kind)
    && c.planId == plan.planId && c.planRevision == plan.planRevision
    && m.lane in plan.acquisitions && plan.acquisitions[m.lane].ready && plan.acquisitions[m.lane].providerId == m.providerId
    && plan.admits(m)
    && m.firstObservedAtMs <= m.retrievedAtMs
    && (m.publishedAtMs.Some? ==> m.publishedAtMs.value <= m.firstObservedAtMs)
  }

  /** A first member of a record is its original; a later one supersedes the latest. */
  predicate Linked(plan: Plan, members: seq<Member>, m: Member) {
    var prior := LatestOf(plan, members, m);
    if prior.Some? then m.relationship != Original && m.supersedes == Some(prior.value.artifactDigest)
    else m.relationship == Original && m.supersedes == None
  }

  function RecordMember(c: Cluster, plan: Plan, m: Member): Option<Cluster> {
    if !Observing(c.status) || !MemberAdmitted(c, plan, m) then None
    else
      var exact := FindRevision(c.members, m);
      if exact.Some? then
        (if exact.value != m then None
         else Some(c.(revision := c.revision + 1, duplicateCount := c.duplicateCount + 1, updatedAtMs := m.retrievedAtMs)))
      else if !Linked(plan, c.members, m) then None
      else
        var members := Insert(plan, c.members, m);
        Some(c.(revision := c.revision + 1, status := StatusAfter(c.status, m.kind),
                lanes := ObserveLanes(c.lanes, m, members), members := members, updatedAtMs := m.retrievedAtMs))
  }

  function MissLane(s: LaneState, lane: Option<Lane>, reason: string): LaneState {
    if s.status == Pending && (lane.None? || s.lane == lane.value)
    then s.(status := StableMissing, missingReason := Some(reason)) else s
  }

  /** Pending lanes, one or all of them, become stably missing. */
  function MissLanes(lanes: seq<LaneState>, lane: Option<Lane>, reason: string): (r: seq<LaneState>)
    ensures |r| == |lanes| && forall i :: 0 <= i < |r| ==> r[i] == MissLane(lanes[i], lane, reason)
  {
    seq(|lanes|, i requires 0 <= i < |lanes| => MissLane(lanes[i], lane, reason))
  }

  function RecordMissing(c: Cluster, lane: Lane, reason: string, atMs: nat): Option<Cluster> {
    if !(Observing(c.status) || c.status == Settling) || !(1 <= |reason| <= 256) then None
    else Some(c.(revision := c.revision + 1, lanes := MissLanes(c.lanes, Some(lane), reason), updatedAtMs := atMs))
  }

  function MissingOf(lanes: seq<LaneState>): seq<Lane> {
    if lanes == [] then []
    else (if lanes[0].status == StableMissing then [lanes[0].lane] else []) + MissingOf(lanes[1..])
  }

  /** `.sort()` on lane names. */
  function SortLanes(lanes: seq<Lane>): seq<Lane> {
    (if IssuerIr in lanes then [IssuerIr] else []) + (if Market in lanes then [Market] else [])
    + (if Sec in lanes then [Sec] else []) + (if Transcript in lanes then [Transcript] else [])
  }

  function DigestsOf(members: seq<Member>): seq<Id> {
    if members == [] then [] else [members[0].artifactDigest] + DigestsOf(members[1..])
  }

  /** Sorted, without repetitions. */
  function Unique(s: seq<Id>): seq<Id> {
    if s == [] then [] else AddUnique(s[0], Unique(s[1..]))
  }

  function AddUnique(x: Id, s: seq<Id>): seq<Id> {
    if s == [] || x < s[0] then [x] + s else if x == s[0] then s else [s[0]] + AddUnique(x, s[1..])
  }

  function Settle(c: Cluster, plan: Plan, atMs: nat): Option<Cluster> {
    if c.planId != plan.planId || c.planRevision != plan.planRevision || atMs < plan.settlementEndMs || c.status != Settling
    then None
    else
      var lanes := MissLanes(c.lanes, None, "not-observed-before-settlement");
      var inventory := Inventory(Unique(DigestsOf(c.members)), SortLanes(MissingOf(lanes)), c.duplicateCount);
      Some(c.(revision := c.revision + 1, status := Complete, lanes := lanes, inventory := Some(inventory), updatedAtMs := atMs))
  }

  function Stop(c: Cluster, reason: string, atMs: nat): Option<Cluster> {
    if c.status == Complete || c.status == Stopped || !(1 <= |reason| <= 256) then None
    else Some(c.(revision := c.revision + 1, status := Stopped, stoppedReason := Some(reason), updatedAtMs := atMs))
  }

  // ----- What every run keeps -----

  datatype Op =
    | GoTo(to: Status, at: nat)
    | Record(member: Member)
    | Missing(lane: Lane, reason: string, at: nat)
    | SettleAt(at: nat)
    | StopAt(reason: string, at: nat)

  function Apply(plan: Plan, c: Cluster, op: Op): Option<Cluster> {
    match op
    case GoTo(to, at) => Go(c, to, at)
    case Record(m) => RecordMember(c, plan, m)
    case Missing(lane, reason, at) => RecordMissing(c, lane, reason, at)
    case SettleAt(at) => Settle(c, plan, at)
    case StopAt(reason, at) => Stop(c, reason, at)
  }

  /** One lane's bookkeeping: it counts its members, and is observed exactly when it has some. */
  predicate LaneSound(s: LaneState, members: seq<Member>) {
    s.memberCount == CountIn(members, s.lane) && (s.status == Observed <==> s.memberCount > 0)
  }

  predicate LanesSound(lanes: seq<LaneState>, members: seq<Member>) {
    && |lanes| == |LANES|
    && (forall i :: 0 <= i < |LANES| ==> lanes[i].lane == LANES[i] && LaneSound(lanes[i], members))
  }

  /** A provider's record and revision name at most one member. */
  ghost predicate RevisionsUnique(members: seq<Member>) {
    forall i, j :: 0 <= i < j < |members| ==> !SameRevision(members[i], members[j])
  }

  function OriginalsOf(members: seq<Member>, m: Member): nat {
    if members == [] then 0
    else (if SameRecord(members[0], m) && members[0].relationship == Original then 1 else 0) + OriginalsOf(members[1..], m)
  }

  /** Each record that has members has exactly one original. */
  ghost predicate OneOriginalEach(members: seq<Member>) {
    forall m: Member :: m in members ==> OriginalsOf(members, m) == 1
  }

  /** The inventory of a completed cluster: every digest once, exactly the lanes without members, nothing pending. */
  ghost predicate InventorySound(c: Cluster) {
    c.inventory.Some? ==>
      && c.status == Complete
      && (forall d :: d in c.inventory.value.memberDigests <==> exists i :: 0 <= i < |c.members| && c.members[i].artifactDigest == d)
      && StrictlyAscending(c.inventory.value.memberDigests)
      && (forall lane: Lane :: lane in c.inventory.value.missingLanes <==> CountIn(c.members, lane) == 0)
      && c.inventory.value.duplicateCount == c.duplicateCount
      && (forall i :: 0 <= i < |c.lanes| ==> c.lanes[i].status != Pending)
  }

  ghost predicate Sound(c: Cluster) {
    LanesSound(c.lanes, c.members) && RevisionsUnique(c.members) && OneOriginalEach(c.members) && InventorySound(c)
  }

  // ----- Proofs -----

  lemma {:induction false} InsertIs(plan: Plan, members: seq<Member>, m: Member)
    ensures forall x :: x in Insert(plan, members, m) <==> x == m || x in members
    ensures forall lane: Lane :: CountIn(Insert(plan, members, m), lane) == CountIn(members, lane) + (if m.lane == lane then 1 else 0)
    ensures forall x: Member :: OriginalsOf(Insert(plan, members, m), x)
              == OriginalsOf(members, x) + (if SameRecord(m, x) && m.relationship == Original then 1 else 0)
  {
    assert ([m] + members)[1..] == members;
    if members != [] && !plan.before(m, members[0]) {
      InsertIs(plan, members[1..], m);
      assert ([members[0]] + Insert(plan, members[1..], m))[1..] == Insert(plan, members[1..], m);
      assert members == [members[0]] + members[1..];
    }
  }

  lemma {:induction false} InsertUnique(plan: Plan, members: seq<Member>, m: Member)
    requires RevisionsUnique(members) && forall i :: 0 <= i < |members| ==> !SameRevision(members[i], m)
    ensures RevisionsUnique(Insert(plan, members, m))
  {
    if members != [] && !plan.before(m, members[0]) {
      assert forall i :: 0 <= i < |members| - 1 ==> members[1..][i] == members[i + 1];
      InsertUnique(plan, members[1..], m);
      InsertIs(plan, members[1..], m);
      var rest := Insert(plan, members[1..], m);
      forall j | 0 <= j < |rest| ensures !SameRevision(members[0], rest[j]) {
        assert rest[j] in rest;
        if rest[j] != m {
          var k :| 0 <= k < |members| - 1 && members[1..][k] == rest[j];
          assert members[k + 1] == rest[j];
        }
      }
    }
  }

  lemma {:induction false} FindIs(members: seq<Member>, m: Member)
    ensures FindRevision(members, m).None? <==> forall i :: 0 <= i < |members| ==> !SameRevision(members[i], m)
  {
    if members != [] {
      FindIs(members[1..], m);
      assert forall i :: 0 < i < |members| ==> members[i] == members[1..][i - 1];
    }
  }

  lemma {:induction false} LatestIs(plan: Plan, members: seq<Member>, m: Member)
    ensures LatestOf(plan, members, m).None? <==> forall i :: 0 <= i < |members| ==> !SameRecord(members[i], m)
    ensures LatestOf(plan, members, m).Some? ==>
              LatestOf(plan, members, m).value in members && SameRecord(LatestOf(plan, members, m).value, m)
  {
    if members != [] {
      LatestIs(plan, members[..|members| - 1], m);
      assert forall i :: 0 <= i < |members| - 1 ==> members[..|members| - 1][i] == members[i];
    }
  }

  /** The order of revisions is one: no two precede each other, and what does not precede does not through a third. */
  ghost predicate Collates(plan: Plan) {
    && (forall a: string, b: string {:trigger plan.revisionBefore(a, b)} :: plan.revisionBefore(a, b) ==> !plan.revisionBefore(b, a))
    && forall a: string, b: string, c: string {:trigger plan.revisionBefore(a, b), plan.revisionBefore(b, c)} ::
         !plan.revisionBefore(a, b) && !plan.revisionBefore(b, c) ==> !plan.revisionBefore(a, c)
  }

  /** No member of the record was retrieved later than its latest, and of those retrieved with it none has a later revision. */
  lemma {:induction false} LatestIsGreatest(plan: Plan, members: seq<Member>, m: Member, x: Member)
    requires LatestOf(plan, members, m).Some? && x in members && SameRecord(x, m)
    ensures x.retrievedAtMs <= LatestOf(plan, members, m).value.retrievedAtMs
    ensures Collates(plan) && x.retrievedAtMs == LatestOf(plan, members, m).value.retrievedAtMs ==>
              !plan.revisionBefore(LatestOf(plan, members, m).value.revisionId, x.revisionId)
  {
    var front, last := members[..|members| - 1], members[|members| - 1];
    assert members == front + [last];
    LatestIs(plan, front, m);
    if x in front {
      var i :| 0 <= i < |front| && front[i] == x;
      LatestIsGreatest(plan, front, m, x);
      if SameRecord(last, m) && Later(plan, last, LatestOf(plan, front, m).value) && Collates(plan) {
        var r := LatestOf(plan, front, m).value;
        if x.retrievedAtMs == r.retrievedAtMs == last.retrievedAtMs {
          assert !plan.revisionBefore(last.revisionId, r.revisionId) && !plan.revisionBefore(r.revisionId, x.revisionId);
        }
      }
    } else {
      assert x == last;
      if LatestOf(plan, front, m).Some? && !Later(plan, last, LatestOf(plan, front, m).value) && Collates(plan) {
        var r := LatestOf(plan, front, m).value;
        if x.retrievedAtMs == r.retrievedAtMs { assert plan.revisionBefore(x.revisionId, r.revisionId); }
      }
    }
  }

  lemma {:induction false} NoOriginals(members: seq<Member>, m: Member)
    requires forall i :: 0 <= i < |members| ==> !SameRecord(members[i], m)
    ensures OriginalsOf(members, m) == 0
  {
    if members != [] {
      assert forall i :: 0 <= i < |members| - 1 ==> members[1..][i] == members[i + 1];
      NoOriginals(members[1..], m);
    }
  }

  lemma {:induction false} SameOriginals(members: seq<Member>, a: Member, b: Member)
    requires SameRecord(a, b)
    ensures OriginalsOf(members, a) == OriginalsOf(members, b)
  {
    if members != [] { SameOriginals(members[1..], a, b); }
  }

  /** Adding a linked member keeps one original for each record. */
  lemma OriginalsKept(plan: Plan, members: seq<Member>, m: Member)
    requires OneOriginalEach(members) && Linked(plan, members, m)
    ensures OneOriginalEach(Insert(plan, members, m))
  {
    InsertIs(plan, members, m);
    LatestIs(plan, members, m);
    var prior := LatestOf(plan, members, m);
    var all := Insert(plan, members, m);
    forall x: Member | x in all ensures OriginalsOf(all, x) == 1 {
      if SameRecord(m, x) {
        SameOriginals(members, m, x);
        if prior.Some? {
          SameOriginals(members, prior.value, x);
        } else {
          NoOriginals(members, m);
          if x != m { assert false; }
        }
      }
    }
  }

  lemma RecordKept(plan: Plan, c: Cluster, m: Member)
    requires Sound(c) && RecordMember(c, plan, m).Some?
    ensures Sound(RecordMember(c, plan, m).value)
  {
    FindIs(c.members, m);
    if FindRevision(c.members, m).None? {
      InsertUnique(plan, c.members, m);
      OriginalsKept(plan, c.members, m);
      InsertIs(plan, c.members, m);
      hide RevisionsUnique, OneOriginalEach, Insert, Linked, MemberAdmitted, FindRevision;
    }
  }

  lemma MissKept(lanes: seq<LaneState>, members: seq<Member>, lane: Option<Lane>, reason: string)
    requires LanesSound(lanes, members)
    ensures LanesSound(MissLanes(lanes, lane, reason), members)
  {
  }

  lemma {:induction false} MissingIs(lanes: seq<LaneState>, lane: Lane)
    ensures lane in MissingOf(lanes) <==> exists i :: 0 <= i < |lanes| && lanes[i].lane == lane && lanes[i].status == StableMissing
  {
    if lanes != [] {
      MissingIs(lanes[1..], lane);
      if lane in MissingOf(lanes[1..]) {
        var i :| 0 <= i < |lanes| - 1 && lanes[1..][i].lane == lane && lanes[1..][i].status == StableMissing;
        assert lanes[i + 1] == lanes[1..][i];
      }
      if i :| 0 < i < |lanes| && lanes[i].lane == lane && lanes[i].status == StableMissing {
        assert lanes[1..][i - 1] == lanes[i];
      }
    }
  }

  lemma {:induction false} UniqueIs(s: seq<Id>)
    ensures StrictlyAscending(Unique(s)) && forall x :: x in Unique(s) <==> x in s
  {
    if s != [] {
      UniqueIs(s[1..]);
      AddUniqueIs(s[0], Unique(s[1..]));
      assert s == [s[0]] + s[1..];
    }
  }

  lemma {:induction false} AddUniqueIs(x: Id, s: seq<Id>)
    requires StrictlyAscending(s)
    ensures StrictlyAscending(AddUnique(x, s)) && forall y :: y in AddUnique(x, s) <==> y == x || y in s
    ensures AddUnique(x, s) != [] && AddUnique(x, s)[0] == if s == [] || x < s[0] then x else s[0]
  {
    if s != [] && s[0] < x {
      AscendingTail(s);
      AddUniqueIs(x, s[1..]);
      assert s == [s[0]] + s[1..];
    }
  }

  lemma {:induction false} DigestsIs(members: seq<Member>, d: Id)
    ensures d in DigestsOf(members) <==> exists i :: 0 <= i < |members| && members[i].artifactDigest == d
  {
    if members != [] {
      DigestsIs(members[1..], d);
      if d in DigestsOf(members[1..]) {
        var i :| 0 <= i < |members| - 1 && members[1..][i].artifactDigest == d;
        assert members[i + 1] == members[1..][i];
      }
      if i :| 0 < i < |members| && members[i].artifactDigest == d {
        assert members[1..][i - 1] == members[i];
      }
    }
  }

  /** Settling leaves every lane observed or missing, and missing exactly where it has no member. */
  lemma SettledLanes(lanes: seq<LaneState>, members: seq<Member>, reason: string, lane: Lane)
    requires LanesSound(lanes, members)
    ensures var settled := MissLanes(lanes, None, reason);
            && (lane in SortLanes(MissingOf(settled)) <==> CountIn(members, lane) == 0)
            && forall i :: 0 <= i < |settled| ==> settled[i].status != Pending
  {
    var settled := MissLanes(lanes, None, reason);
    MissingIs(settled, lane);
    LaneIndex(lane);
    hide MissingOf, CountIn;
    var k :| 0 <= k < |LANES| && LANES[k] == lane;
    assert settled[k].lane == lane;
  }

  lemma LaneIndex(lane: Lane)
    ensures exists k :: 0 <= k < |LANES| && LANES[k] == lane
    ensures forall s: seq<Lane> :: lane in SortLanes(s) <==> lane in s
  {
    match lane
    case Sec => assert LANES[0] == lane;
    case IssuerIr => assert LANES[1] == lane;
    case Transcript => assert LANES[2] == lane;
    case Market => assert LANES[3] == lane;
  }

  lemma SettleKept(plan: Plan, c: Cluster, at: nat)
    requires Sound(c) && Settle(c, plan, at).Some?
    ensures Sound(Settle(c, plan, at).value) && Settle(c, plan, at).value.inventory.Some?
  {
    var next := Settle(c, plan, at).value;
    MissKept(c.lanes, c.members, None, "not-observed-before-settlement");
    UniqueIs(DigestsOf(c.members));
    hide LanesSound, RevisionsUnique, OneOriginalEach, SortLanes, MissingOf, MissLanes, Unique, DigestsOf, CountIn;
    forall lane: Lane ensures lane in next.inventory.value.missingLanes <==> CountIn(c.members, lane) == 0 {
      SettledLanes(c.lanes, c.members, "not-observed-before-settlement", lane);
    }
    SettledLanes(c.lanes, c.members, "not-observed-before-settlement", Sec);
    forall d ensures d in next.inventory.value.memberDigests <==> exists i :: 0 <= i < |c.members| && c.members[i].artifactDigest == d {
      DigestsIs(c.members, d);
    }
  }

  lemma {:induction false} LanesForIs(plan: Plan, lanes: seq<Lane>)
    requires LanesFor(plan, lanes).Some?
    ensures var r := LanesFor(plan, lanes).value;
            |r| == |lanes| && forall i :: 0 <= i < |r| ==> r[i].lane == lanes[i] && r[i].memberCount == 0 && r[i].status != Observed
  {
    if lanes != [] { LanesForIs(plan, lanes[1..]); }
  }

  lemma CreateSound(plan: Plan, at: nat)
    requires Create(plan, at).Some?
    ensures Sound(Create(plan, at).value)
  {
    LanesForIs(plan, LANES);
    hide LanesFor;
  }

  /** Complete is entered by settling; the bare transition to it would leave no inventory. */
  predicate ThroughSettlement(op: Op) {
    !(op.GoTo? && op.to == Complete)
  }

  lemma ApplyKept(plan: Plan, c: Cluster, op: Op)
    requires Sound(c) && Apply(plan, c, op).Some?
    ensures Sound(Apply(plan, c, op).value)
    ensures Apply(plan, c, op).value.revision == c.revision + 1
    ensures |Apply(plan, c, op).value.members| + Apply(plan, c, op).value.duplicateCount
              == |c.members| + c.duplicateCount + (if op.Record? then 1 else 0)
    ensures ThroughSettlement(op) && (c.status == Complete ==> c.inventory.Some?) ==>
              (Apply(plan, c, op).value.status == Complete ==> Apply(plan, c, op).value.inventory.Some?)
  {
    match op
    case Record(m) => RecordKept(plan, c, m); hide LanesSound, RevisionsUnique, OneOriginalEach, InventorySound, MemberAdmitted, Linked, FindRevision, ObserveLanes;
    case SettleAt(at) => SettleKept(plan, c, at); hide Sound, MissLanes, MissingOf, SortLanes, Unique, DigestsOf;
    case Missing(lane, reason, _) => MissKept(c.lanes, c.members, Some(lane), reason); hide LanesSound, RevisionsUnique, OneOriginalEach, MissLanes;
    case _ => { hide LanesSound, RevisionsUnique, OneOriginalEach; }
  }

  /** A complete cluster takes no further operation, and one completed by the bare transition has no inventory. */
  lemma CompletedBare(plan: Plan, c: Cluster, op: Op)
    requires Sound(c) && Apply(plan, c, op).Some?
    ensures c.status != Complete
    ensures !ThroughSettlement(op) ==> Apply(plan, c, op).value.status == Complete && Apply(plan, c, op).value.inventory.None?
  {
    hide LanesSound, RevisionsUnique, OneOriginalEach, MemberAdmitted, Linked, FindRevision, ObserveLanes, MissLanes, Unique, SortLanes;
  }

  predicate AllThroughSettlement(ops: seq<Op>) {
    forall i :: 0 <= i < |ops| ==> ThroughSettlement(ops[i])
  }

  function RunOf(plan: Plan, c: Cluster, ops: seq<Op>): Option<Cluster>
    decreases |ops|
  {
    if ops == [] then Some(c)
    else
      var next := Apply(plan, c, ops[0]);
      if next.None? then None else RunOf(plan, next.value, ops[1..])
  }

  function RecordCalls(ops: seq<Op>): nat {
    if ops == [] then 0 else (if ops[0].Record? then 1 else 0) + RecordCalls(ops[1..])
  }

  /**
    In every run the lanes count their members, revisions are unique, each record has one original, and
    every accepted record call is either a member or a counted duplicate. A run that completes has its
    inventory exactly if it completed through settlement.
   */
  lemma {:induction false} RunSound(plan: Plan, c: Cluster, ops: seq<Op>)
    requires Sound(c) && RunOf(plan, c, ops).Some?
    ensures var last := RunOf(plan, c, ops).value;
            && Sound(last)
            && |last.members| + last.duplicateCount == |c.members| + c.duplicateCount + RecordCalls(ops)
            && last.revision == c.revision + |ops|
            && ((c.status == Complete ==> c.inventory.Some?) ==>
                  (last.status == Complete ==> (last.inventory.Some? <==> AllThroughSettlement(ops))))
    decreases |ops|
  {
    hide Sound, Apply, ThroughSettlement;
    if ops != [] {
      ApplyKept(plan, c, ops[0]);
      CompletedBare(plan, c, ops[0]);
      var next := Apply(plan, c, ops[0]).value;
      RunSound(plan, next, ops[1..]);
      assert ops == [ops[0]] + ops[1..];
      if next.status == Complete && ops[1..] != [] { CompletedBare(plan, next, ops[1]); }
    }
  }

  /** From creation on: nothing was counted before. */
  lemma RunFromCreation(plan: Plan, at: nat, ops: seq<Op>)
    requires Create(plan, at).Some? && RunOf(plan, Create(plan, at).value, ops).Some?
    ensures var last := RunOf(plan, Create(plan, at).value, ops).value;
            && Sound(last) && |last.members| + last.duplicateCount == RecordCalls(ops)
            && last.revision == 1 + |ops|
            && (last.status == Complete ==> (last.inventory.Some? <==> AllThroughSettlement(ops)))
  {
    CreateSound(plan, at);
    RunSound(plan, Create(plan, at).value, ops);
    hide Sound, RunOf, AllThroughSettlement, LanesFor;
  }

  /** The bare transition completes a cluster without an inventory. */
  lemma BareCompletionHasNoInventory(c: Cluster, at: nat)
    requires c.status == Settling && c.inventory.None?
    ensures Go(c, Complete, at).Some? && Go(c, Complete, at).value.status == Complete && Go(c, Complete, at).value.inventory.None?
  {
  }
}
