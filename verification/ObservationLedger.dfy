/**
  The observation ledger: entries of a causal graph, each named by the hash of its own contents,
  and the validator that admits a bundle of them in one pass.

  An identifier is a natural number. Every identifier of the source is a fixed prefix followed by
  64 lower-case hexadecimal digits, so comparing two identifiers as strings and comparing the
  digests as numbers is the same order.
 */
module ObservationLedger {
  import opened Base

  const MAX_ENTRIES: nat := 4096
  const MAX_EDGES: nat := 12279
  const MAX_PARENTS: nat := 32
  const MAX_CAUSAL_DEPTH: nat := 16
  const MAX_CLOCK_BASES: nat := 32
  const MAX_RAW_LINKS: nat := 16
  const MAX_ENTRIES_PER_ACQUISITION: nat := 32
  const MAX_PROJECTIONS_PER_SUBJECT: nat := 32
  const IDENTIFIER_MAX_BYTES: nat := 512

  type Id = nat

  // ----- Entries -----

  datatype WallClock = SystemUtc | RecordedFixture | ReplayedOriginal
  datatype Synchronization = VerifiedBound | OperatorAsserted | Unspecified | NotApplicable

  datatype ClockBasis = ClockBasis(
    id: Id, wallClock: WallClock, synchronization: Synchronization, maximumErrorMs: Option<nat>,
    monotonic: bool, sessionId: Option<string>)

  datatype Clock = Unstamped | Stamp(basis: Id, wallMs: nat, monotonicUs: Option<nat>)

  datatype Mode = Live | Recorded | Replay

  datatype RawLink = RawLink(role: string, acquisition: Id, vault: Id, vaultHash: Id, digest: Id, size: nat)

  datatype SourceIdentity = SourceIdentity(
    provider: string, source: string, recordId: string, revisionId: string,
    version: Id, family: Id, supersedes: Option<Id>)

  datatype PrimaryKind = RawArtifact | DerivedProjection

  /** Fields that no check compares travel together as `rest`. */
  datatype Emission = Emission(
    projection: Id, projectionDigest: Id, observation: Id, identity: SourceIdentity,
    subject: string, issuerMapping: Id, evidenceBundle: Option<Id>,
    primaryHash: Id, primaryKind: PrimaryKind, links: seq<RawLink>, rest: string)

  datatype Capture = Capture(
    observation: Id, version: Id, eventId: Id, eventHash: Id, position: nat, receivedAtMs: nat, logicalAtMs: nat)

  datatype TrustedBasis =
    | CaptureBasis(eventId: Id, receivedAtMs: nat, logicalAtMs: nat, clockBasis: Id)
    | RetrievalBasis(role: string, acquisition: Id, vault: Id, retrievedAtMs: nat, clockBasis: Id)

  datatype Purpose = ClusterFirstObservation | AnalysisBranchInput | MarketReferenceAnchor

  datatype Selection = Selection(
    purpose: Purpose, byCapture: bool, basis: TrustedBasis, observation: Id, version: Id,
    subject: string, issuerMapping: Id, asOfMs: nat, branch: Option<string>, joinKey: Option<Id>)

  datatype Stage = RequestStage | ArtifactStoreStage | VerifiedReadStage | NormalizationStage | CaptureStage | SelectionStage

  datatype Facts =
    | ClockBasisDeclared(clockBasis: ClockBasis)
    | AcquisitionDeclared(acquisition: Id, provider: string, attempt: string, request: Id, route: string)
    | RequestStarted(acquisition: Id)
    | RequestSucceeded(acquisition: Id, response: Id)
    | ArtifactCommitted(acquisition: Id, vault: Id, vaultHash: Id, digest: Id, size: nat, mode: Mode, retrievedAtMs: Option<nat>)
    | ArtifactVerified(acquisition: Id, vault: Id, digest: Id, metadataSize: nat, consumedSize: nat)
    | NormalizationEmitted(emission: Emission)
    | NormalizationIgnored(links: seq<RawLink>, reason: string, rest: string)
    | NormalizationQuarantined(links: seq<RawLink>, normalizer: Option<string>, transcript: Option<Id>, reason: string, rest: string)
    | CaptureAppended(capture: Capture)
    | CaptureRedelivered(capture: Capture)
    | SelectionRecorded(selection: Selection)
    | FailureRecorded(stage: Stage, failedAfter: Kind, failedAcquisition: Option<Id>, failedObservation: Option<Id>, reason: string, detail: Option<Id>)
    | ClockRegression(prior: Id, regressing: Id, priorWallMs: nat, currentWallMs: nat, monotonicOrderPreserved: bool)

  datatype Kind =
    | KClockBasis | KAcquisition | KRequestStarted | KRequestSucceeded | KCommitted | KVerified
    | KEmitted | KIgnored | KQuarantined | KAppended | KRedelivered | KSelection | KFailure | KRegression

  function KindOf(f: Facts): Kind {
    match f
    case ClockBasisDeclared(_) => KClockBasis
    case AcquisitionDeclared(_, _, _, _, _) => KAcquisition
    case RequestStarted(_) => KRequestStarted
    case RequestSucceeded(_, _) => KRequestSucceeded
    case ArtifactCommitted(_, _, _, _, _, _, _) => KCommitted
    case ArtifactVerified(_, _, _, _, _) => KVerified
    case NormalizationEmitted(_) => KEmitted
    case NormalizationIgnored(_, _, _) => KIgnored
    case NormalizationQuarantined(_, _, _, _, _) => KQuarantined
    case CaptureAppended(_) => KAppended
    case CaptureRedelivered(_) => KRedelivered
    case SelectionRecorded(_) => KSelection
    case FailureRecorded(_, _, _, _, _, _) => KFailure
    case ClockRegression(_, _, _, _, _) => KRegression
  }

  datatype Body = Body(execution: string, parents: seq<Id>, clock: Clock, facts: Facts)

  datatype Entry = Entry(id: Id, body: Body)

  /** The two functions of the surroundings: the hash that names an entry, and the check that the
      identities inside its facts are the ones derived from its other fields. */
  datatype Kernel = Kernel(hash: Body -> Id, derived: Facts -> bool)

  ghost predicate CollisionFree(k: Kernel) {
    forall a, b :: k.hash(a) == k.hash(b) ==> a == b
  }

  // ----- Validity of one entry on its own -----

  predicate Bounded(s: string) {
    0 < |s| <= IDENTIFIER_MAX_BYTES
  }

  predicate ValidClockBasis(b: ClockBasis) {
    && (b.wallClock != SystemUtc) == (b.synchronization == NotApplicable)
    && b.maximumErrorMs.Some? == (b.synchronization == VerifiedBound)
    && b.sessionId.Some? == b.monotonic
    && (b.sessionId.Some? ==> Bounded(b.sessionId.value))
  }

  predicate ValidLinks(links: seq<RawLink>) {
    && 1 <= |links| <= MAX_RAW_LINKS
    && (forall i :: 0 <= i < |links| ==> Bounded(links[i].role))
    && (forall i, j :: 0 <= i < j < |links| ==> links[i].role != links[j].role)
    && (forall i :: 0 < i < |links| ==> StringLess(links[i - 1].role, links[i].role))
  }

  function CountDigest(links: seq<RawLink>, digest: Id): nat {
    if links == [] then 0
    else (if links[0].digest == digest then 1 else 0) + CountDigest(links[1..], digest)
  }

  predicate ValidFacts(k: Kernel, f: Facts) {
    match f
    case ClockBasisDeclared(b) => ValidClockBasis(b) && k.derived(f)
    case AcquisitionDeclared(_, provider, attempt, _, route) =>
      Bounded(provider) && Bounded(attempt) && Bounded(route) && k.derived(f)
    case RequestStarted(_) => true
    case RequestSucceeded(_, _) => true
    case ArtifactCommitted(_, _, _, _, _, _, _) => true
    case ArtifactVerified(_, _, _, metadata, consumed) => metadata == consumed
    case NormalizationEmitted(n) =>
      && ValidLinks(n.links)
      && Bounded(n.subject)
      && (n.primaryKind == RawArtifact ==> CountDigest(n.links, n.primaryHash) == 1)
      && (n.primaryKind == DerivedProjection ==> n.primaryHash == n.projectionDigest)
      && k.derived(f)
    case NormalizationIgnored(links, reason, _) => ValidLinks(links) && Bounded(reason)
    case NormalizationQuarantined(links, normalizer, transcript, reason, _) =>
      && ValidLinks(links)
      && normalizer.Some? == transcript.Some?
      && (normalizer.Some? ==> Bounded(normalizer.value))
      && Bounded(reason)
    case CaptureAppended(c) => c.position >= 1
    case CaptureRedelivered(c) => c.position >= 1
    case SelectionRecorded(s) =>
      && Bounded(s.subject)
      && s.branch.Some? == (s.purpose == AnalysisBranchInput)
      && (s.branch.Some? ==> Bounded(s.branch.value))
      && s.byCapture == s.basis.CaptureBasis?
      && (s.basis.CaptureBasis? ==> s.basis.receivedAtMs <= s.asOfMs)
      && (s.basis.RetrievalBasis? ==> Bounded(s.basis.role) && s.basis.retrievedAtMs <= s.asOfMs)
      && s.joinKey.Some? == (s.purpose == MarketReferenceAnchor)
      && (s.joinKey.Some? ==> k.derived(f))
    case FailureRecorded(_, _, _, _, reason, _) => Bounded(reason)
    case ClockRegression(_, _, priorWall, currentWall, _) => currentWall < priorWall
  }

  function Create(k: Kernel, body: Body): Option<Entry> {
    if Bounded(body.execution) && |body.parents| <= MAX_PARENTS && StrictlyAscending(body.parents) && ValidFacts(k, body.facts)
    then Some(Entry(k.hash(body), body))
    else None
  }

  // ----- The causal parents of an entry -----

  type ById = map<Id, Entry>

  /** A map of entries by their identifiers, a later one in place of an earlier one. */
  function Index(entries: seq<Entry>): ById {
    if entries == [] then map[]
    else Index(entries[..|entries| - 1])[entries[|entries| - 1].id := entries[|entries| - 1]]
  }

  function FactsAt(byId: ById, id: Id): Facts
    requires id in byId
  {
    byId[id].body.facts
  }

  /** The parents that resolve and are (or are not) clock declarations, in parent order. */
  function SelectParents(byId: ById, ids: seq<Id>, declarations: bool): (r: seq<Id>)
    ensures forall x :: x in r <==> x in ids && x in byId && FactsAt(byId, x).ClockBasisDeclared? == declarations
  {
    if ids == [] then []
    else
      var rest := SelectParents(byId, ids[1..], declarations);
      if ids[0] in byId && FactsAt(byId, ids[0]).ClockBasisDeclared? == declarations then [ids[0]] + rest else rest
  }

  function CausalIds(byId: ById, ids: seq<Id>): (r: seq<Id>)
    ensures forall x :: x in r <==> x in ids && x in byId && !FactsAt(byId, x).ClockBasisDeclared?
  {
    SelectParents(byId, ids, false)
  }

  function BasisIds(byId: ById, ids: seq<Id>): seq<Id> {
    SelectParents(byId, ids, true)
  }

  function KindsOf(byId: ById, ids: seq<Id>): (r: seq<Kind>)
    requires forall x :: x in ids ==> x in byId
    ensures |r| == |ids|
    ensures forall i :: 0 <= i < |r| ==> r[i] == KindOf(FactsAt(byId, ids[i]))
  {
    if ids == [] then [] else [KindOf(FactsAt(byId, ids[0]))] + KindsOf(byId, ids[1..])
  }

  function Repeat(kind: Kind, n: nat): (r: seq<Kind>)
    ensures |r| == n
    ensures forall x :: x in r ==> x == kind
  {
    seq(n, i => kind)
  }

  function LinksOf(f: Facts): seq<RawLink> {
    match f
    case NormalizationEmitted(n) => n.links
    case NormalizationIgnored(links, _, _) => links
    case NormalizationQuarantined(links, _, _, _, _) => links
    case _ => []
  }

  predicate IsNormalization(f: Facts) {
    f.NormalizationEmitted? || f.NormalizationIgnored? || f.NormalizationQuarantined?
  }

  predicate IsCapture(f: Facts) {
    f.CaptureAppended? || f.CaptureRedelivered?
  }

  predicate IsRequest(f: Facts) {
    f.RequestStarted? || f.RequestSucceeded?
  }

  /** The kinds an entry's causal parents must have; a selection by capture accepts either capture
      kind and is treated apart. */
  function RequiredKinds(f: Facts): seq<Kind> {
    match f
    case ClockBasisDeclared(_) => []
    case AcquisitionDeclared(_, _, _, _, _) => []
    case RequestStarted(_) => [KAcquisition]
    case RequestSucceeded(_, _) => [KRequestStarted]
    case ArtifactCommitted(_, _, _, _, _, mode, _) =>
      if mode == Live then [KAcquisition, KRequestSucceeded] else [KAcquisition]
    case ArtifactVerified(_, _, _, _, _) => [KCommitted]
    case NormalizationEmitted(n) => Repeat(KVerified, |n.links|)
    case NormalizationIgnored(links, _, _) => Repeat(KVerified, |links|)
    case NormalizationQuarantined(links, _, _, _, _) => Repeat(KVerified, |links|)
    case CaptureAppended(_) => [KEmitted]
    case CaptureRedelivered(_) => [KEmitted]
    case SelectionRecorded(_) => [KVerified, KEmitted]
    case FailureRecorded(_, failedAfter, _, _, _, _) => [failedAfter]
    case ClockRegression(_, _, _, _, _) => []
  }

  predicate KindsAgree(byId: ById, causal: seq<Id>, f: Facts)
    requires forall x :: x in causal ==> x in byId
  {
    if f.SelectionRecorded? && f.selection.byCapture
    then |causal| == 1 && IsCapture(FactsAt(byId, causal[0]))
    else multiset(KindsOf(byId, causal)) == multiset(RequiredKinds(f))
  }

  /** The `acquisitionObservationId` of facts that have that field; a failure may hold null. */
  function AcquisitionOf(f: Facts): Option<Id> {
    match f
    case AcquisitionDeclared(a, _, _, _, _) => Some(a)
    case RequestStarted(a) => Some(a)
    case RequestSucceeded(a, _) => Some(a)
    case ArtifactCommitted(a, _, _, _, _, _, _) => Some(a)
    case ArtifactVerified(a, _, _, _, _) => Some(a)
    case FailureRecorded(_, _, a, _, _, _) => a
    case _ => None
  }

  predicate HasAcquisitionField(f: Facts) {
    f.AcquisitionDeclared? || IsRequest(f) || f.ArtifactCommitted? || f.ArtifactVerified? || f.FailureRecorded?
  }

  predicate SameAcquisition(byId: ById, causal: seq<Id>, f: Facts)
    requires forall x :: x in causal ==> x in byId
  {
    AcquisitionOf(f).Some? ==>
      forall x :: x in causal && HasAcquisitionField(FactsAt(byId, x)) ==> AcquisitionOf(FactsAt(byId, x)) == AcquisitionOf(f)
  }

  /** `parents.find`: the first parent of one of the given kinds. */
  function FirstOfKind(byId: ById, ids: seq<Id>, kinds: set<Kind>): (r: Option<Id>)
    ensures r.Some? ==> r.value in ids && r.value in byId && KindOf(FactsAt(byId, r.value)) in kinds
    ensures r.None? ==> forall x :: x in ids && x in byId ==> KindOf(FactsAt(byId, x)) !in kinds
  {
    if ids == [] then None
    else if ids[0] in byId && KindOf(FactsAt(byId, ids[0])) in kinds then Some(ids[0])
    else FirstOfKind(byId, ids[1..], kinds)
  }

  predicate VerifiesLink(f: Facts, link: RawLink) {
    f.ArtifactVerified? && f.acquisition == link.acquisition && f.vault == link.vault && f.digest == link.digest
  }

  function FirstVerifying(byId: ById, ids: seq<Id>, link: RawLink): (r: Option<Id>)
    requires forall x :: x in ids ==> x in byId
    ensures r.Some? ==> r.value in ids && VerifiesLink(FactsAt(byId, r.value), link)
    ensures r.None? ==> forall x :: x in ids ==> !VerifiesLink(FactsAt(byId, x), link)
  {
    if ids == [] then None
    else if VerifiesLink(FactsAt(byId, ids[0]), link) then Some(ids[0])
    else FirstVerifying(byId, ids[1..], link)
  }

  predicate CommitsLink(f: Facts, link: RawLink) {
    && f.ArtifactCommitted? && f.acquisition == link.acquisition && f.vault == link.vault
    && f.vaultHash == link.vaultHash && f.digest == link.digest && f.size == link.size
  }

  /** A raw link is backed by the first matching verified parent and that parent's commit. */
  predicate LinkBacked(byId: ById, causal: seq<Id>, link: RawLink)
    requires forall x :: x in causal ==> x in byId
  {
    var verified := FirstVerifying(byId, causal, link);
    && verified.Some?
    && FactsAt(byId, verified.value).metadataSize == link.size
    && var commit := FirstOfKind(byId, byId[verified.value].body.parents, {KCommitted});
    && commit.Some?
    && CommitsLink(FactsAt(byId, commit.value), link)
  }

  function FirstLink(links: seq<RawLink>, role: string, acquisition: Id, vault: Id): (r: Option<RawLink>) {
    if links == [] then None
    else if links[0].role == role && links[0].acquisition == acquisition && links[0].vault == vault then Some(links[0])
    else FirstLink(links[1..], role, acquisition, vault)
  }

  predicate SelectsNormalization(s: Selection, n: Emission) {
    && s.observation == n.observation && s.version == n.identity.version
    && s.subject == n.subject && s.issuerMapping == n.issuerMapping
  }

  function CaptureOf(f: Facts): Capture
    requires IsCapture(f)
  {
    f.capture
  }

  predicate BasisOfCapture(basis: TrustedBasis, captured: Entry)
    requires IsCapture(captured.body.facts)
  {
    var c := CaptureOf(captured.body.facts);
    && basis.CaptureBasis?
    && basis.eventId == c.eventId && basis.receivedAtMs == c.receivedAtMs && basis.logicalAtMs == c.logicalAtMs
    && captured.body.clock.Stamp? && captured.body.clock.basis == basis.clockBasis
  }

  predicate BasisOfCommit(basis: TrustedBasis, commit: Entry) {
    && basis.RetrievalBasis? && commit.body.facts.ArtifactCommitted?
    && commit.body.facts.retrievedAtMs == Some(basis.retrievedAtMs)
    && commit.body.clock.Stamp? && commit.body.clock.basis == basis.clockBasis
  }

  predicate SelectsCapture(byId: ById, causal: seq<Id>, s: Selection)
    requires forall x :: x in causal ==> x in byId
  {
    var captured := FirstOfKind(byId, causal, {KAppended, KRedelivered});
    && captured.Some?
    && BasisOfCapture(s.basis, byId[captured.value])
    && var normalized := FirstOfKind(byId, byId[captured.value].body.parents, {KEmitted});
    && normalized.Some?
    && SelectsNormalization(s, FactsAt(byId, normalized.value).emission)
  }

  /** The verified parent of a raw link, and its commit, are where the retrieval time comes from. */
  predicate RetrievedBy(byId: ById, causal: seq<Id>, basis: TrustedBasis, link: RawLink)
    requires forall x :: x in causal ==> x in byId
  {
    var verified := FirstVerifying(byId, causal, link);
    && verified.Some?
    && FactsAt(byId, verified.value).metadataSize == link.size
    && FactsAt(byId, verified.value).consumedSize == link.size
    && var commit := FirstOfKind(byId, byId[verified.value].body.parents, {KCommitted});
    && commit.Some?
    && CommitsLink(FactsAt(byId, commit.value), link)
    && BasisOfCommit(basis, byId[commit.value])
  }

  predicate SelectsRetrieval(byId: ById, causal: seq<Id>, s: Selection)
    requires forall x :: x in causal ==> x in byId
  {
    && s.basis.RetrievalBasis?
    && var normalized := FirstOfKind(byId, causal, {KEmitted});
    && normalized.Some?
    && var n := FactsAt(byId, normalized.value).emission;
    && SelectsNormalization(s, n)
    && var link := FirstLink(n.links, s.basis.role, s.basis.acquisition, s.basis.vault);
    && link.Some?
    && RetrievedBy(byId, causal, s.basis, link.value)
  }

  /** `ValidFacts` has already tied the selection basis to the kind of the trusted basis. */
  predicate SelectionBacked(byId: ById, causal: seq<Id>, s: Selection)
    requires forall x :: x in causal ==> x in byId
  {
    if s.byCapture then SelectsCapture(byId, causal, s) else SelectsRetrieval(byId, causal, s)
  }

  predicate StageFollows(stage: Stage, failedAfter: Kind) {
    match stage
    case RequestStage => failedAfter == KAcquisition || failedAfter == KRequestStarted
    case ArtifactStoreStage => failedAfter == KRequestSucceeded
    case VerifiedReadStage => failedAfter == KCommitted
    case NormalizationStage => failedAfter == KVerified
    case CaptureStage => failedAfter == KEmitted
    case SelectionStage => failedAfter == KEmitted || failedAfter == KAppended || failedAfter == KRedelivered
  }

  function ObservationOf(f: Facts): Option<Id> {
    match f
    case NormalizationEmitted(n) => Some(n.observation)
    case CaptureAppended(c) => Some(c.observation)
    case CaptureRedelivered(c) => Some(c.observation)
    case _ => None
  }

  predicate FailureBacked(f: Facts, parent: Facts)
    requires f.FailureRecorded?
  {
    && StageFollows(f.stage, f.failedAfter)
    && if f.stage == CaptureStage || f.stage == SelectionStage then
         f.failedAcquisition.None? && f.failedObservation.Some? && f.failedObservation == ObservationOf(parent)
       else
         f.failedAcquisition.Some? && f.failedAcquisition == AcquisitionOf(parent) && f.failedObservation.None?
  }

  predicate RegressionBacked(byId: ById, causal: seq<Id>, e: Entry)
    requires e.body.facts.ClockRegression?
  {
    var f := e.body.facts;
    && multiset(causal) == multiset{f.prior, f.regressing}
    && f.prior in byId && f.regressing in byId
    && var prior := byId[f.prior].body.clock;
    && var regressing := byId[f.regressing].body.clock;
    && prior.Stamp? && regressing.Stamp? && prior.basis == regressing.basis
    && e.body.clock == regressing
    && f.priorWallMs == prior.wallMs && f.currentWallMs == regressing.wallMs
    && regressing.wallMs < prior.wallMs
    && (prior.monotonicUs.Some? && regressing.monotonicUs.Some? ==> prior.monotonicUs.value <= regressing.monotonicUs.value)
    && f.monotonicOrderPreserved ==
         (prior.monotonicUs.Some? && regressing.monotonicUs.Some? && prior.monotonicUs.value < regressing.monotonicUs.value)
  }

  /** What each kind of entry asks of its causal parents besides their kinds. */
  predicate ParentFactsAgree(byId: ById, causal: seq<Id>, f: Facts)
    requires forall x :: x in causal ==> x in byId
    requires KindsAgree(byId, causal, f)
  {
    match f
    case ArtifactVerified(_, vault, digest, metadataSize, _) =>
      && causal != []
      && var c := FactsAt(byId, causal[0]);
      c.ArtifactCommitted? && c.vault == vault && c.digest == digest && c.size == metadataSize
    case NormalizationEmitted(n) => forall l :: l in n.links ==> LinkBacked(byId, causal, l)
    case NormalizationIgnored(links, _, _) => forall l :: l in links ==> LinkBacked(byId, causal, l)
    case NormalizationQuarantined(links, _, _, _, _) => forall l :: l in links ==> LinkBacked(byId, causal, l)
    case CaptureAppended(c) => causal != [] && CapturesEmission(c, FactsAt(byId, causal[0]))
    case CaptureRedelivered(c) => causal != [] && CapturesEmission(c, FactsAt(byId, causal[0]))
    case SelectionRecorded(s) => SelectionBacked(byId, causal, s)
    case FailureRecorded(_, _, _, _, _, _) => causal != [] && FailureBacked(f, FactsAt(byId, causal[0]))
    case _ => true
  }

  predicate CapturesEmission(c: Capture, parent: Facts) {
    parent.NormalizationEmitted? && parent.emission.observation == c.observation && parent.emission.identity.version == c.version
  }

  predicate ParentTransition(byId: ById, e: Entry) {
    var causal := CausalIds(byId, e.body.parents);
    if e.body.facts.ClockRegression? then RegressionBacked(byId, causal, e)
    else
      && KindsAgree(byId, causal, e.body.facts)
      && SameAcquisition(byId, causal, e.body.facts)
      && ParentFactsAgree(byId, causal, e.body.facts)
  }

  // ----- The tables the validator carries from entry to entry -----

  datatype CommitIdentity = CommitIdentity(vault: Id, vaultHash: Id, digest: Id, size: nat)
  datatype VaultEvidence = VaultEvidence(vaultHash: Id, digest: Id, size: nat)
  datatype RevisionKey = RevisionKey(provider: string, source: string, recordId: string, revisionId: string)
  datatype RevisionValue = RevisionValue(projectionDigest: Id, evidenceBundle: Option<Id>, version: Id, family: Id)

  datatype Graph = Graph(execution: Option<string>, byId: ById, depths: map<Id, nat>, edges: nat)

  datatype Clocks = Clocks(
    bases: ById, lastMonotonic: map<Id, nat>, lastWall: ById, required: set<(Id, Id)>, witnessed: set<(Id, Id)>)

  datatype Evidence = Evidence(
    acquisitionCounts: map<Id, nat>,
    projectionCounts: map<string, nat>,
    blockedCommits: set<Id>,
    blockedNormalizations: set<Id>,
    recordedCommits: set<Id>,
    commits: map<Id, CommitIdentity>,
    vaultEvidence: map<Id, VaultEvidence>,
    revisions: map<RevisionKey, RevisionValue>)

  datatype Tables = Tables(graph: Graph, clocks: Clocks, evidence: Evidence)

  const EMPTY: Tables :=
    Tables(Graph(None, map[], map[], 0), Clocks(map[], map[], map[], {}, {}), Evidence(map[], map[], {}, {}, {}, map[], map[], map[]))

  function MaxDepth(depths: map<Id, nat>, ids: seq<Id>): nat {
    if ids == [] then 0
    else Max(if ids[0] in depths then depths[ids[0]] else 0, MaxDepth(depths, ids[1..]))
  }

  function DepthOf(depths: map<Id, nat>, ids: seq<Id>): nat {
    1 + MaxDepth(depths, ids)
  }

  function CountAt<K>(counts: map<K, nat>, key: K): nat {
    if key in counts then counts[key] else 0
  }

  function AcquisitionsTouched(f: Facts): set<Id> {
    (if AcquisitionOf(f).Some? then {AcquisitionOf(f).value} else {}) +
    (set l | l in LinksOf(f) :: l.acquisition)
  }

  function CommitIdentityOf(f: Facts): CommitIdentity
    requires f.ArtifactCommitted?
  {
    CommitIdentity(f.vault, f.vaultHash, f.digest, f.size)
  }

  function VaultEvidenceOf(f: Facts): VaultEvidence
    requires f.ArtifactCommitted?
  {
    VaultEvidence(f.vaultHash, f.digest, f.size)
  }

  function RevisionKeyOf(n: Emission): RevisionKey {
    RevisionKey(n.identity.provider, n.identity.source, n.identity.recordId, n.identity.revisionId)
  }

  function RevisionValueOf(n: Emission): RevisionValue {
    RevisionValue(n.projectionDigest, n.evidenceBundle, n.identity.version, n.identity.family)
  }

  /** Identity, parents, size and depth of the next entry, then its parent rule. */
  predicate GraphOk(k: Kernel, g: Graph, e: Entry) {
    && Create(k, e.body) == Some(e)
    && (g.execution.Some? ==> g.execution.value == e.body.execution)
    && e.id !in g.byId
    && (forall p :: p in e.body.parents ==> p in g.byId)
    && g.edges + |e.body.parents| <= MAX_EDGES
    && DepthOf(g.depths, e.body.parents) <= MAX_CAUSAL_DEPTH
    && ParentTransition(g.byId, e)
  }

  function RecordGraph(g: Graph, e: Entry): Graph {
    Graph(Some(e.body.execution), g.byId[e.id := e], g.depths[e.id := DepthOf(g.depths, e.body.parents)], g.edges + |e.body.parents|)
  }

  predicate CommitOk(v: Evidence, byId: ById, f: Facts)
    requires f.ArtifactCommitted?
  {
    && f.acquisition !in v.blockedCommits
    && (f.mode != Live ==>
          forall x :: x in byId && IsRequest(FactsAt(byId, x)) ==> FactsAt(byId, x).acquisition != f.acquisition)
    && (f.acquisition in v.commits ==> v.commits[f.acquisition] == CommitIdentityOf(f))
    && (f.vault in v.vaultEvidence ==> v.vaultEvidence[f.vault] == VaultEvidenceOf(f))
  }

  /** The rules that look across the bundle by acquisition, vault observation, revision and subject. */
  predicate EvidenceOk(v: Evidence, byId: ById, f: Facts) {
    && (forall l :: l in LinksOf(f) ==> l.acquisition !in v.blockedNormalizations)
    && (forall a :: a in AcquisitionsTouched(f) ==> CountAt(v.acquisitionCounts, a) + 1 <= MAX_ENTRIES_PER_ACQUISITION)
    && (IsRequest(f) ==> f.acquisition !in v.recordedCommits)
    && (f.ArtifactCommitted? ==> CommitOk(v, byId, f))
    && (f.NormalizationEmitted? ==> RevisionOk(v, f.emission))
  }

  predicate RevisionOk(v: Evidence, n: Emission) {
    && (RevisionKeyOf(n) in v.revisions ==> v.revisions[RevisionKeyOf(n)] == RevisionValueOf(n))
    && CountAt(v.projectionCounts, n.subject) + 1 <= MAX_PROJECTIONS_PER_SUBJECT
  }

  function AddCounts(counts: map<Id, nat>, touched: set<Id>): map<Id, nat> {
    map a | a in counts.Keys + touched :: CountAt(counts, a) + if a in touched then 1 else 0
  }

  predicate BlocksNormalization(stage: Stage) {
    stage == ArtifactStoreStage || stage == VerifiedReadStage || stage == NormalizationStage
  }

  function RecordCommit(w: Evidence, f: Facts): Evidence
    requires f.ArtifactCommitted?
  {
    w.(recordedCommits := if f.mode != Live then w.recordedCommits + {f.acquisition} else w.recordedCommits,
       commits := w.commits[f.acquisition := CommitIdentityOf(f)],
       vaultEvidence := w.vaultEvidence[f.vault := VaultEvidenceOf(f)])
  }

  function RecordRevision(w: Evidence, n: Emission): Evidence {
    w.(revisions := w.revisions[RevisionKeyOf(n) := RevisionValueOf(n)],
       projectionCounts := w.projectionCounts[n.subject := CountAt(w.projectionCounts, n.subject) + 1])
  }

  function RecordFailure(w: Evidence, stage: Stage, acquisition: Option<Id>): Evidence {
    if acquisition.None? then w
    else if stage == RequestStage then w.(blockedCommits := w.blockedCommits + {acquisition.value})
    else if BlocksNormalization(stage) then w.(blockedNormalizations := w.blockedNormalizations + {acquisition.value})
    else w
  }

  function RecordEvidence(v: Evidence, f: Facts): Evidence {
    var w := v.(acquisitionCounts := AddCounts(v.acquisitionCounts, AcquisitionsTouched(f)));
    match f
    case ArtifactCommitted(_, _, _, _, _, _, _) => RecordCommit(w, f)
    case NormalizationEmitted(n) => RecordRevision(w, n)
    case FailureRecorded(stage, _, acquisition, _, _, _) => RecordFailure(w, stage, acquisition)
    case _ => w
  }

  predicate StampOk(byId: ById, c: Clocks, e: Entry)
    requires e.body.clock.Stamp?
  {
    var clock := e.body.clock;
    var f := e.body.facts;
    && clock.basis in c.bases
    && var declaration := c.bases[clock.basis];
    && BasisIds(byId, e.body.parents) == [declaration.id]
    && declaration.body.facts.ClockBasisDeclared?
    && (clock.monotonicUs.Some? ==> declaration.body.facts.clockBasis.monotonic)
    && (clock.monotonicUs.Some? && clock.basis in c.lastMonotonic ==> c.lastMonotonic[clock.basis] <= clock.monotonicUs.value)
    && (f.ClockRegression? ==>
          (f.prior, f.regressing) in c.required && (f.prior, f.regressing) !in c.witnessed)
  }

  predicate ClockOk(byId: ById, c: Clocks, e: Entry) {
    var f := e.body.facts;
    if f.ClockBasisDeclared? then
      e.body.clock.Unstamped? && e.body.parents == [] && |c.bases.Keys + {f.clockBasis.id}| <= MAX_CLOCK_BASES
    else if e.body.clock.Unstamped? then
      BasisIds(byId, e.body.parents) == []
    else
      StampOk(byId, c, e)
  }

  /** Does a stamped entry's wall clock fall behind the last entry on its basis? */
  predicate FallsBehind(lastWall: ById, e: Entry) {
    var clock := e.body.clock;
    && clock.Stamp? && clock.basis in lastWall
    && lastWall[clock.basis].body.clock.Stamp? && clock.wallMs < lastWall[clock.basis].body.clock.wallMs
  }

  function RecordClock(c: Clocks, e: Entry): Clocks {
    var f := e.body.facts;
    var clock := e.body.clock;
    if f.ClockBasisDeclared? then c.(bases := c.bases[f.clockBasis.id := e])
    else if clock.Unstamped? then c
    else
      var mono := if clock.monotonicUs.Some? then c.lastMonotonic[clock.basis := clock.monotonicUs.value] else c.lastMonotonic;
      var wall := c.lastWall[clock.basis := e];
      if f.ClockRegression? then
        c.(lastMonotonic := mono, lastWall := wall, witnessed := c.witnessed + {(f.prior, f.regressing)})
      else if FallsBehind(c.lastWall, e) then
        c.(lastMonotonic := mono, lastWall := wall, required := c.required + {(c.lastWall[clock.basis].id, e.id)})
      else
        c.(lastMonotonic := mono, lastWall := wall)
  }

  predicate Admits(k: Kernel, s: Tables, e: Entry) {
    && GraphOk(k, s.graph, e)
    && EvidenceOk(s.evidence, s.graph.byId, e.body.facts)
    && ClockOk(s.graph.byId, s.clocks, e)
  }

  function Advance(s: Tables, e: Entry): Tables {
    Tables(RecordGraph(s.graph, e), RecordClock(s.clocks, e), RecordEvidence(s.evidence, e.body.facts))
  }

  function Step(k: Kernel, s: Tables, e: Entry): Option<Tables> {
    if Admits(k, s, e) then Some(Advance(s, e)) else None
  }

  function Stepper(k: Kernel): (Tables, Entry) -> Option<Tables> {
    (s, e) => Step(k, s, e)
  }

  /** The validator's pass over the entries from the tables `s`. */
  function Run(k: Kernel, s: Tables, entries: seq<Entry>): Option<Tables> {
    Fold(Stepper(k), s, entries)
  }

  /** Every regression that was owed has its one witness. */
  predicate Settled(s: Tables) {
    |s.clocks.required| == |s.clocks.witnessed| && s.clocks.required <= s.clocks.witnessed
  }

  predicate Accepted(k: Kernel, entries: seq<Entry>) {
    |entries| <= MAX_ENTRIES && Run(k, EMPTY, entries).Some? && Settled(Run(k, EMPTY, entries).value)
  }

  lemma RefusedPrefix(k: Kernel, entries: seq<Entry>, n: nat, s: Tables)
    requires n < |entries|
    requires Run(k, EMPTY, entries[..n]) == Some(s) && !Admits(k, s, entries[n])
    ensures !Accepted(k, entries)
  {
    var step := Stepper(k);
    assert step(s, entries[n]) == Step(k, s, entries[n]) == None;
    FoldRefused(step, EMPTY, entries, n);
  }

  /** One more entry for each acquisition an entry touches, refusing the bundle at the limit. */
  method CountAcquisitions(counts: map<Id, nat>, touched: set<Id>) returns (ok: bool, counted: map<Id, nat>)
    ensures ok <==> forall a :: a in touched ==> CountAt(counts, a) + 1 <= MAX_ENTRIES_PER_ACQUISITION
    ensures ok ==> counted == AddCounts(counts, touched)
  {
    counted := counts;
    var remaining := touched;
    while remaining != {}
      invariant remaining <= touched
      invariant forall a :: a in touched - remaining ==> CountAt(counts, a) + 1 <= MAX_ENTRIES_PER_ACQUISITION
      invariant counted == AddCounts(counts, touched - remaining)
      decreases remaining
    {
      var a :| a in remaining;
      var count := CountAt(counted, a) + 1;
      if count > MAX_ENTRIES_PER_ACQUISITION {
        return false, counted;
      }
      counted := counted[a := count];
      remaining := remaining - {a};
    }
    assert touched - remaining == touched;
    ok := true;
  }

  method AdmitEvidence(v: Evidence, byId: ById, f: Facts) returns (ok: bool, w: Evidence)
    ensures ok == EvidenceOk(v, byId, f)
    ensures ok ==> w == RecordEvidence(v, f)
  {
    w := v;
    if exists l :: l in LinksOf(f) && l.acquisition in v.blockedNormalizations {
      return false, w;
    }
    var counted, counts := CountAcquisitions(v.acquisitionCounts, AcquisitionsTouched(f));
    if !counted || (IsRequest(f) && f.acquisition in v.recordedCommits) {
      return false, w;
    }
    w := w.(acquisitionCounts := counts);
    if f.ArtifactCommitted? {
      if !CommitOk(v, byId, f) {
        return false, w;
      }
      w := RecordCommit(w, f);
    } else if f.NormalizationEmitted? {
      if !RevisionOk(v, f.emission) {
        return false, w;
      }
      w := RecordRevision(w, f.emission);
    } else if f.FailureRecorded? {
      w := RecordFailure(w, f.stage, f.failedAcquisition);
    }
    ok := true;
  }

  method AdmitClock(byId: ById, c: Clocks, e: Entry) returns (ok: bool, d: Clocks)
    ensures ok == ClockOk(byId, c, e)
    ensures ok ==> d == RecordClock(c, e)
  {
    ok, d := ClockOk(byId, c, e), c;
    var f := e.body.facts;
    var clock := e.body.clock;
    if ok && f.ClockBasisDeclared? {
      d := d.(bases := d.bases[f.clockBasis.id := e]);
    } else if ok && clock.Stamp? {
      if f.ClockRegression? {
        d := d.(witnessed := d.witnessed + {(f.prior, f.regressing)});
      } else if FallsBehind(d.lastWall, e) {
        d := d.(required := d.required + {(d.lastWall[clock.basis].id, e.id)});
      }
      if clock.monotonicUs.Some? {
        d := d.(lastMonotonic := d.lastMonotonic[clock.basis := clock.monotonicUs.value]);
      }
      d := d.(lastWall := d.lastWall[clock.basis := e]);
    }
  }

  /** The validator's loop: refuse at the first entry that breaks a rule, then settle regressions. */
  method ValidateBundle(k: Kernel, entries: seq<Entry>) returns (accepted: bool)
    ensures accepted == Accepted(k, entries)
  {
    if |entries| > MAX_ENTRIES {
      return false;
    }
    var s := EMPTY;
    for i := 0 to |entries|
      invariant Run(k, EMPTY, entries[..i]) == Some(s)
    {
      var entry := entries[i];
      FoldLast(Stepper(k), EMPTY, entries, i);
      if !GraphOk(k, s.graph, entry) {
        RefusedPrefix(k, entries, i, s);
        return false;
      }
      var evident, evidence := AdmitEvidence(s.evidence, s.graph.byId, entry.body.facts);
      if !evident {
        RefusedPrefix(k, entries, i, s);
        return false;
      }
      var timely, clocks := AdmitClock(s.graph.byId, s.clocks, entry);
      if !timely {
        RefusedPrefix(k, entries, i, s);
        return false;
      }
      s := Tables(RecordGraph(s.graph, entry), clocks, evidence);
    }
    assert entries[..|entries|] == entries;
    accepted := |s.clocks.required| == |s.clocks.witnessed| && s.clocks.required <= s.clocks.witnessed;
  }
}
