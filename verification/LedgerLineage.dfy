/**
  What each kind of entry descends from, read off the entries alone: no parent lists, no searches and no
  table of entries by identifier.
 */
module LedgerLineage {
  import opened Base
  import opened ObservationLedger
  import opened LedgerInvariants
  import opened LedgerMeaning
  import LedgerClocks
  import LedgerEvidence
  import LedgerEntries

  // ----- Causes -----

  /** Entry `i` is a parent of `e` and no clock declaration. */
  predicate Causes(before: seq<Entry>, e: Entry, i: nat) {
    i < |before| && before[i].id in e.body.parents && !before[i].body.facts.ClockBasisDeclared?
  }

  predicate Sole(before: seq<Entry>, e: Entry, i: nat) {
    Causes(before, e, i) && forall j: nat :: j < |before| && Causes(before, e, j) ==> j == i
  }

  predicate Pair(before: seq<Entry>, e: Entry, i: nat, j: nat) {
    && Causes(before, e, i) && Causes(before, e, j) && i != j
    && forall n: nat :: n < |before| && Causes(before, e, n) ==> n == i || n == j
  }

  predicate Uncaused(before: seq<Entry>, e: Entry) {
    forall i: nat :: i < |before| ==> !Causes(before, e, i)
  }

  function CauseSet(before: seq<Entry>, e: Entry): set<nat> {
    set i: nat | i < |before| && Causes(before, e, i)
  }

  // ----- The stages an entry may come from -----

  predicate Declares(d: Entry, a: Id) {
    d.body.facts.AcquisitionDeclared? && d.body.facts.acquisition == a
  }

  predicate StartsRequest(d: Entry, a: Id) {
    d.body.facts.RequestStarted? && d.body.facts.acquisition == a
  }

  predicate EndsRequest(d: Entry, a: Id) {
    d.body.facts.RequestSucceeded? && d.body.facts.acquisition == a
  }

  predicate CommitsAs(d: Entry, a: Id, vault: Id, digest: Id, size: nat) {
    var f := d.body.facts;
    f.ArtifactCommitted? && f.acquisition == a && f.vault == vault && f.digest == digest && f.size == size
  }

  predicate VerifiesAs(d: Entry, l: RawLink) {
    var f := d.body.facts;
    && f.ArtifactVerified? && f.acquisition == l.acquisition && f.vault == l.vault && f.digest == l.digest
    && f.metadataSize == l.size && f.consumedSize == l.size
  }

  predicate CommittedFor(d: Entry, l: RawLink) {
    CommitsAs(d, l.acquisition, l.vault, l.digest, l.size) && d.body.facts.vaultHash == l.vaultHash
  }

  /** The artifact of a raw link was verified by a cause of the entry, after the commit the link speaks of. */
  predicate LinkFrom(before: seq<Entry>, e: Entry, l: RawLink) {
    exists i: nat, c: nat :: i < |before| && c < |before| && LinkedThrough(before, e, l, i, c)
  }

  predicate LinkedThrough(before: seq<Entry>, e: Entry, l: RawLink, i: nat, c: nat)
    requires i < |before| && c < |before|
  {
    Causes(before, e, i) && VerifiesAs(before[i], l) && Causes(before, before[i], c) && CommittedFor(before[c], l)
  }

  /** A normalization comes from as many verified artifacts as it has raw links, and from each link's own. */
  predicate FromVerified(before: seq<Entry>, e: Entry, links: seq<RawLink>) {
    && (forall i: nat :: i < |before| && Causes(before, e, i) ==> before[i].body.facts.ArtifactVerified?)
    && |CauseSet(before, e)| == |links|
    && forall l :: l in links ==> LinkFrom(before, e, l)
  }

  predicate EmitsVersion(d: Entry, observation: Id, version: Id) {
    d.body.facts.NormalizationEmitted? && d.body.facts.emission.observation == observation
    && d.body.facts.emission.identity.version == version
  }

  predicate EmitsSelected(d: Entry, s: Selection) {
    && EmitsVersion(d, s.observation, s.version)
    && d.body.facts.emission.subject == s.subject && d.body.facts.emission.issuerMapping == s.issuerMapping
  }

  /** The capture a trusted basis quotes, stamped on the clock it names. */
  predicate CapturedOn(d: Entry, b: TrustedBasis) {
    && (d.body.facts.CaptureAppended? || d.body.facts.CaptureRedelivered?) && b.CaptureBasis?
    && d.body.facts.capture.eventId == b.eventId && d.body.facts.capture.receivedAtMs == b.receivedAtMs
    && d.body.facts.capture.logicalAtMs == b.logicalAtMs
    && d.body.clock.Stamp? && d.body.clock.basis == b.clockBasis
  }

  predicate SelectedByCapture(before: seq<Entry>, e: Entry, s: Selection) {
    exists i: nat, m: nat :: i < |before| && m < |before|
                             && Sole(before, e, i) && CapturedOn(before[i], s.basis) && Causes(before, before[i], m) && EmitsSelected(before[m], s)
  }

  predicate RetrievedOn(d: Entry, b: TrustedBasis) {
    && b.RetrievalBasis? && d.body.facts.ArtifactCommitted? && d.body.facts.retrievedAtMs == Some(b.retrievedAtMs)
    && d.body.clock.Stamp? && d.body.clock.basis == b.clockBasis
  }

  /** The raw link of an emission that a trusted basis names. */
  predicate Names(b: TrustedBasis, l: RawLink) {
    b.RetrievalBasis? && l.role == b.role && l.acquisition == b.acquisition && l.vault == b.vault
  }

  predicate SelectedThrough(before: seq<Entry>, e: Entry, s: Selection, i: nat, j: nat, c: nat)
    requires i < |before| && j < |before| && c < |before|
  {
    && Pair(before, e, i, j) && EmitsSelected(before[j], s) && Causes(before, before[i], c) && RetrievedOn(before[c], s.basis)
    && exists l :: l in before[j].body.facts.emission.links && Names(s.basis, l) && VerifiesAs(before[i], l) && CommittedFor(before[c], l)
  }

  predicate SelectedByRetrieval(before: seq<Entry>, e: Entry, s: Selection) {
    exists i: nat, j: nat, c: nat :: i < |before| && j < |before| && c < |before| && SelectedThrough(before, e, s, i, j, c)
  }

  /** The entries a failure at a stage may follow. */
  predicate FailsAfter(stage: Stage, d: Entry) {
    var f := d.body.facts;
    match stage
    case RequestStage => f.AcquisitionDeclared? || f.RequestStarted?
    case ArtifactStoreStage => f.RequestSucceeded?
    case VerifiedReadStage => f.ArtifactCommitted?
    case NormalizationStage => f.ArtifactVerified?
    case CaptureStage => f.NormalizationEmitted?
    case SelectionStage => f.NormalizationEmitted? || f.CaptureAppended? || f.CaptureRedelivered?
  }

  /** Up to normalization a failure names the acquisition it ends, from capture on the observation. */
  predicate FailsFor(e: Entry, d: Entry)
    requires e.body.facts.FailureRecorded?
  {
    var f, g := e.body.facts, d.body.facts;
    if f.stage == CaptureStage || f.stage == SelectionStage then
      && f.failedAcquisition == None
      && f.failedObservation == (if g.NormalizationEmitted? then Some(g.emission.observation)
                                 else if g.CaptureAppended? || g.CaptureRedelivered? then Some(g.capture.observation) else None)
    else
      f.failedObservation == None && HasAcquisition(g) && f.failedAcquisition == Some(g.acquisition)
  }

  predicate HasAcquisition(f: Facts) {
    f.AcquisitionDeclared? || f.RequestStarted? || f.RequestSucceeded? || f.ArtifactCommitted? || f.ArtifactVerified?
  }

  /** Two entries on one clock, the later one behind in wall time but not in monotonic time. */
  predicate FellBack(p: Entry, r: Entry, e: Entry)
    requires e.body.facts.ClockRegression?
  {
    var f, was, now := e.body.facts, p.body.clock, r.body.clock;
    && p.id == f.prior && r.id == f.regressing
    && was.Stamp? && now.Stamp? && was.basis == now.basis && now == e.body.clock
    && now.wallMs < was.wallMs && f.priorWallMs == was.wallMs && f.currentWallMs == now.wallMs
    && if was.monotonicUs.Some? && now.monotonicUs.Some?
       then was.monotonicUs.value <= now.monotonicUs.value
            && (f.monotonicOrderPreserved <==> was.monotonicUs.value < now.monotonicUs.value)
       else !f.monotonicOrderPreserved
  }

  /** What an entry has to descend from. */
  predicate Lineage(before: seq<Entry>, e: Entry) {
    match e.body.facts
    case ClockBasisDeclared(_) => Uncaused(before, e)
    case AcquisitionDeclared(_, _, _, _, _) => Uncaused(before, e)
    case RequestStarted(a) => exists i: nat :: i < |before| && Sole(before, e, i) && Declares(before[i], a)
    case RequestSucceeded(a, _) => exists i: nat :: i < |before| && Sole(before, e, i) && StartsRequest(before[i], a)
    case ArtifactCommitted(a, _, _, _, _, mode, _) =>
      if mode == Live then exists i: nat, j: nat :: i < |before| && j < |before| && Pair(before, e, i, j) && Declares(before[i], a) && EndsRequest(before[j], a)
      else exists i: nat :: i < |before| && Sole(before, e, i) && Declares(before[i], a)
    case ArtifactVerified(a, vault, digest, size, _) =>
      exists i: nat :: i < |before| && Sole(before, e, i) && CommitsAs(before[i], a, vault, digest, size)
    case NormalizationEmitted(n) => FromVerified(before, e, n.links)
    case NormalizationIgnored(links, _, _) => FromVerified(before, e, links)
    case NormalizationQuarantined(links, _, _, _, _) => FromVerified(before, e, links)
    case CaptureAppended(c) => exists i: nat :: i < |before| && Sole(before, e, i) && EmitsVersion(before[i], c.observation, c.version)
    case CaptureRedelivered(c) => exists i: nat :: i < |before| && Sole(before, e, i) && EmitsVersion(before[i], c.observation, c.version)
    case SelectionRecorded(s) => if s.byCapture then SelectedByCapture(before, e, s) else SelectedByRetrieval(before, e, s)
    case FailureRecorded(stage, failedAfter, _, _, _, _) =>
      exists i: nat :: i < |before| && Sole(before, e, i) && KindOf(before[i].body.facts) == failedAfter && FailsAfter(stage, before[i]) && FailsFor(e, before[i])
    case ClockRegression(_, _, _, _, _) => exists i: nat, j: nat :: i < |before| && j < |before| && Pair(before, e, i, j) && FellBack(before[i], before[j], e)
  }

  // ----- Causes and the list of causal parents -----

  ghost predicate Unrepeated(entries: seq<Entry>) {
    forall i, j :: 0 <= i < j < |entries| ==> entries[i].id != entries[j].id
  }

  /** The entries before `e`, as the validator has them on file. */
  ghost predicate OnFile(byId: ById, before: seq<Entry>, e: Entry) {
    LedgerClocks.Filed(byId, before) && Unrepeated(before) && StrictlyAscending(e.body.parents)
  }

  lemma CausalAre(byId: ById, before: seq<Entry>, e: Entry, x: Id)
    requires OnFile(byId, before, e)
    ensures x in CausalIds(byId, e.body.parents) <==> exists i: nat :: Causes(before, e, i) && before[i].id == x
  {
    if x in byId {
      var i :| 0 <= i < |before| && before[i] == byId[x];
      assert before[i].id == x;
    }
  }

  lemma CausalDistinct(byId: ById, e: Entry)
    requires StrictlyAscending(e.body.parents)
    ensures Distinct(CausalIds(byId, e.body.parents))
  {
    StrictlyAscendingDistinct(e.body.parents);
    DistinctMultiplicity(e.body.parents);
    forall x ensures multiset(CausalIds(byId, e.body.parents))[x] <= 1 { SelectCount(byId, e.body.parents, false, x); }
    DistinctMultiplicity(CausalIds(byId, e.body.parents));
  }

  /** A cause is found in the list, and what is in the list is a cause. */
  lemma CauseListed(byId: ById, before: seq<Entry>, e: Entry, i: nat)
    requires OnFile(byId, before, e) && i < |before|
    ensures before[i].id in byId && byId[before[i].id] == before[i]
    ensures Causes(before, e, i) <==> before[i].id in CausalIds(byId, e.body.parents)
  {
  }

  lemma ListedCause(byId: ById, before: seq<Entry>, e: Entry, x: Id) returns (i: nat)
    requires OnFile(byId, before, e) && x in CausalIds(byId, e.body.parents)
    ensures i < |before| && before[i].id == x && Causes(before, e, i) && x in byId && byId[x] == before[i]
  {
    CausalAre(byId, before, e, x);
    i :| Causes(before, e, i) && before[i].id == x;
    CauseListed(byId, before, e, i);
  }

  lemma NoneListed(byId: ById, before: seq<Entry>, e: Entry)
    requires OnFile(byId, before, e)
    ensures Uncaused(before, e) <==> CausalIds(byId, e.body.parents) == []
  {
    hide OnFile, CausalIds, Causes;
    var causal := CausalIds(byId, e.body.parents);
    if causal != [] { var i := ListedCause(byId, before, e, causal[0]); }
    forall i: nat | i < |before| && Causes(before, e, i) ensures causal != [] { CauseListed(byId, before, e, i); }
  }

  lemma AllEqual(s: seq<Id>, x: Id)
    requires Distinct(s) && x in s && forall y :: y in s ==> y == x
    ensures s == [x]
  {
    if |s| > 1 { FirstTwo(s, x); }
  }

  lemma FirstTwo(s: seq<Id>, x: Id)
    requires |s| > 1 && forall y :: y in s ==> y == x
    ensures s[0] == x && s[1] == x
  {
    assert s[0] in s && s[1] in s;
  }

  lemma SoleListed(byId: ById, before: seq<Entry>, e: Entry, i: nat)
    requires OnFile(byId, before, e) && i < |before|
    ensures Sole(before, e, i) <==> CausalIds(byId, e.body.parents) == [before[i].id]
    ensures before[i].id in byId && byId[before[i].id] == before[i]
  {
    hide CausalIds, Causes;
    var causal := CausalIds(byId, e.body.parents);
    CauseListed(byId, before, e, i);
    CausalDistinct(byId, e);
    if Sole(before, e, i) {
      forall x | x in causal ensures x == before[i].id { var j := ListedCause(byId, before, e, x); }
      AllEqual(causal, before[i].id);
    }
    if causal == [before[i].id] {
      forall j: nat | j < |before| && Causes(before, e, j) ensures j == i { CauseListed(byId, before, e, j); }
    }
  }

  lemma SoleExists(byId: ById, before: seq<Entry>, e: Entry) returns (i: nat)
    requires OnFile(byId, before, e) && |CausalIds(byId, e.body.parents)| == 1
    ensures i < |before| && Sole(before, e, i) && CausalIds(byId, e.body.parents) == [before[i].id]
    ensures before[i].id in byId && byId[before[i].id] == before[i]
  {
    hide OnFile, CausalIds, Causes, Sole;
    i := ListedCause(byId, before, e, CausalIds(byId, e.body.parents)[0]);
    SoleListed(byId, before, e, i);
  }

  lemma PairListed(byId: ById, before: seq<Entry>, e: Entry, i: nat, j: nat)
    requires OnFile(byId, before, e) && i < |before| && j < |before| && i != j
    ensures Pair(before, e, i, j) <==> multiset(CausalIds(byId, e.body.parents)) == multiset{before[i].id, before[j].id}
    ensures before[i].id in byId && byId[before[i].id] == before[i] && before[j].id in byId && byId[before[j].id] == before[j]
    ensures before[i].id != before[j].id
  {
    hide CausalIds, Causes;
    var causal := CausalIds(byId, e.body.parents);
    CauseListed(byId, before, e, i);
    CauseListed(byId, before, e, j);
    CausalDistinct(byId, e);
    DistinctMultiplicity(causal);
    if Pair(before, e, i, j) {
      forall x ensures multiset(causal)[x] == multiset{before[i].id, before[j].id}[x] {
        if x in causal { var n := ListedCause(byId, before, e, x); }
        assert x in causal <==> x in multiset(causal);
      }
    }
    if multiset(causal) == multiset{before[i].id, before[j].id} {
      forall n: nat | n < |before| && Causes(before, e, n) ensures n == i || n == j {
        CauseListed(byId, before, e, n);
        assert before[n].id in multiset(causal);
      }
      assert before[i].id in multiset(causal) && before[j].id in multiset(causal);
    }
  }

  lemma PairExists(byId: ById, before: seq<Entry>, e: Entry) returns (i: nat, j: nat)
    requires OnFile(byId, before, e) && |CausalIds(byId, e.body.parents)| == 2
    ensures i < |before| && j < |before| && Pair(before, e, i, j)
    ensures CausalIds(byId, e.body.parents) == [before[i].id, before[j].id]
    ensures before[i].id in byId && byId[before[i].id] == before[i] && before[j].id in byId && byId[before[j].id] == before[j]
  {
    hide OnFile, CausalIds, Causes, Pair;
    var causal := CausalIds(byId, e.body.parents);
    DistinctCausal(byId, before, e);
    i := ListedCause(byId, before, e, causal[0]);
    j := ListedCause(byId, before, e, causal[1]);
    assert causal[0] != causal[1];
    assert causal == [before[i].id, before[j].id];
    PairListed(byId, before, e, i, j);
  }

  lemma DistinctCausal(byId: ById, before: seq<Entry>, e: Entry)
    requires OnFile(byId, before, e)
    ensures Distinct(CausalIds(byId, e.body.parents))
  {
    CausalDistinct(byId, e);
  }

  // ----- Kinds -----

  lemma KindsAll(byId: ById, ids: seq<Id>, kind: Kind)
    requires (forall x :: x in ids ==> x in byId) && multiset(KindsOf(byId, ids)) == multiset(Repeat(kind, |ids|))
    ensures forall x :: x in ids ==> KindOf(FactsAt(byId, x)) == kind
  {
    hide KindOf;
    var kinds := KindsOf(byId, ids);
    MultisetMembers(kinds, Repeat(kind, |ids|));
    forall x | x in ids ensures KindOf(FactsAt(byId, x)) == kind {
      var i :| 0 <= i < |ids| && ids[i] == x;
      assert kinds[i] in kinds;
    }
  }

  lemma AllOfKind(byId: ById, ids: seq<Id>, kind: Kind)
    requires forall x :: x in ids ==> x in byId
    ensures multiset(KindsOf(byId, ids)) == multiset(Repeat(kind, |ids|)) <==> forall x :: x in ids ==> KindOf(FactsAt(byId, x)) == kind
  {
    hide KindOf;
    var kinds := KindsOf(byId, ids);
    if multiset(kinds) == multiset(Repeat(kind, |ids|)) { KindsAll(byId, ids, kind); }
    if forall x :: x in ids ==> KindOf(FactsAt(byId, x)) == kind {
      assert forall i :: 0 <= i < |ids| ==> ids[i] in ids;
      assert kinds == Repeat(kind, |ids|);
    }
  }

  lemma OneKind(byId: ById, causal: seq<Id>, kind: Kind)
    requires forall x :: x in causal ==> x in byId
    ensures multiset(KindsOf(byId, causal)) == multiset([kind]) <==> |causal| == 1 && KindOf(FactsAt(byId, causal[0])) == kind
  {
    if multiset(KindsOf(byId, causal)) == multiset([kind]) { SingleKind(byId, causal, kind); }
  }

  lemma PairBag<T>(s: seq<T>, a: T, b: T)
    requires a != b
    ensures multiset(s) == multiset([a, b]) <==> s == [a, b] || s == [b, a]
  {
    if multiset(s) == multiset([a, b]) {
      PairDistinct(s, a, b);
      MultisetMembers(s, [a, b]);
      assert s[0] in s && s[1] in s;
    }
  }

  lemma TwoKinds(byId: ById, causal: seq<Id>, a: Kind, b: Kind)
    requires (forall x :: x in causal ==> x in byId) && a != b
    ensures multiset(KindsOf(byId, causal)) == multiset([a, b]) <==> KindsOf(byId, causal) == [a, b] || KindsOf(byId, causal) == [b, a]
  {
    PairBag(KindsOf(byId, causal), a, b);
  }

  // ----- Entries with one causal parent -----

  /** The kinds with a single causal parent, and the kind it has to be of. */
  function ParentKind(f: Facts): Option<Kind> {
    match f
    case RequestStarted(_) => Some(KAcquisition)
    case RequestSucceeded(_, _) => Some(KRequestStarted)
    case ArtifactCommitted(_, _, _, _, _, mode, _) => if mode == Live then None else Some(KAcquisition)
    case ArtifactVerified(_, _, _, _, _) => Some(KCommitted)
    case CaptureAppended(_) => Some(KEmitted)
    case CaptureRedelivered(_) => Some(KEmitted)
    case FailureRecorded(_, failedAfter, _, _, _, _) => Some(failedAfter)
    case _ => None
  }

  predicate StepOn(d: Facts, f: Facts) {
    && Some(KindOf(d)) == ParentKind(f)
    && (AcquisitionOf(f).Some? && HasAcquisitionField(d) ==> AcquisitionOf(d) == AcquisitionOf(f))
    && match f
       case ArtifactVerified(_, vault, digest, size, _) => d.ArtifactCommitted? && d.vault == vault && d.digest == digest && d.size == size
       case CaptureAppended(c) => CapturesEmission(c, d)
       case CaptureRedelivered(c) => CapturesEmission(c, d)
       case FailureRecorded(_, _, _, _, _, _) => FailureBacked(f, d)
       case _ => true
  }

  lemma SingleParent(byId: ById, e: Entry)
    requires ParentKind(e.body.facts).Some?
    ensures var causal := CausalIds(byId, e.body.parents);
            ParentTransition(byId, e) <==> |causal| == 1 && StepOn(FactsAt(byId, causal[0]), e.body.facts)
  {
    hide CausalIds, KindsAgree, SameAcquisition, ParentFactsAgree, StepOn;
    var causal := CausalIds(byId, e.body.parents);
    SingleKinds(byId, causal, e.body.facts);
    if |causal| == 1 { SingleFacts(byId, causal, e.body.facts); }
  }

  lemma SingleKinds(byId: ById, causal: seq<Id>, f: Facts)
    requires (forall x :: x in causal ==> x in byId) && ParentKind(f).Some?
    ensures KindsAgree(byId, causal, f) <==> |causal| == 1 && Some(KindOf(FactsAt(byId, causal[0]))) == ParentKind(f)
  {
    hide KindsOf, KindOf, RequiredKinds, ParentKind;
    OneKind(byId, causal, ParentKind(f).value);
    OneRequired(f);
  }

  lemma OneRequired(f: Facts)
    requires ParentKind(f).Some?
    ensures RequiredKinds(f) == [ParentKind(f).value] && !f.SelectionRecorded?
  {
  }

  lemma SingleFacts(byId: ById, causal: seq<Id>, f: Facts)
    requires (forall x :: x in causal ==> x in byId) && ParentKind(f).Some? && |causal| == 1
    ensures KindsAgree(byId, causal, f) && SameAcquisition(byId, causal, f) && ParentFactsAgree(byId, causal, f)
            <==> StepOn(FactsAt(byId, causal[0]), f)
  {
    SingleKinds(byId, causal, f);
    hide KindsAgree, KindOf, CapturesEmission, FailureBacked, AcquisitionOf, HasAcquisitionField;
    assert causal[0] in causal;
    assert SameAcquisition(byId, causal, f) <==>
      (AcquisitionOf(f).Some? && HasAcquisitionField(FactsAt(byId, causal[0])) ==> AcquisitionOf(FactsAt(byId, causal[0])) == AcquisitionOf(f));
  }

  predicate SingleLineage(before: seq<Entry>, e: Entry) {
    exists i: nat :: i < |before| && Sole(before, e, i) && StepOn(before[i].body.facts, e.body.facts)
  }

  lemma SingleExactly(byId: ById, before: seq<Entry>, e: Entry)
    requires OnFile(byId, before, e) && ParentKind(e.body.facts).Some?
    ensures ParentTransition(byId, e) <==> SingleLineage(before, e)
  {
    hide OnFile, CausalIds, ParentTransition, StepOn, ParentKind, Sole;
    var causal := CausalIds(byId, e.body.parents);
    SingleParent(byId, e);
    if |causal| == 1 { var i := SoleExists(byId, before, e); }
    forall i: nat | i < |before| && Sole(before, e, i) ensures causal == [before[i].id] && before[i].id in byId && byId[before[i].id] == before[i] {
      SoleListed(byId, before, e, i);
    }
  }

  lemma SingleIsLineage(before: seq<Entry>, e: Entry)
    requires ParentKind(e.body.facts).Some?
    ensures SingleLineage(before, e) <==> Lineage(before, e)
  {
    hide Sole, Pair, FromVerified, SelectedByCapture, SelectedByRetrieval, Uncaused;
    forall i: nat | i < |before|
      ensures StepOn(before[i].body.facts, e.body.facts) <==> StepIn(before[i], e) {
      StepIs(before[i], e);
    }
  }

  /** The step from a sole causal parent, as `Lineage` words it. */
  predicate StepIn(d: Entry, e: Entry) {
    match e.body.facts
    case RequestStarted(a) => Declares(d, a)
    case RequestSucceeded(a, _) => StartsRequest(d, a)
    case ArtifactCommitted(a, _, _, _, _, mode, _) => mode != Live && Declares(d, a)
    case ArtifactVerified(a, vault, digest, size, _) => CommitsAs(d, a, vault, digest, size)
    case CaptureAppended(c) => EmitsVersion(d, c.observation, c.version)
    case CaptureRedelivered(c) => EmitsVersion(d, c.observation, c.version)
    case FailureRecorded(stage, failedAfter, _, _, _, _) => KindOf(d.body.facts) == failedAfter && FailsAfter(stage, d) && FailsFor(e, d)
    case _ => false
  }

  lemma StepIs(d: Entry, e: Entry)
    requires ParentKind(e.body.facts).Some?
    ensures StepOn(d.body.facts, e.body.facts) <==> StepIn(d, e)
  {
  }

  // ----- Entries without causal parents, and live commits -----

  lemma RootExactly(byId: ById, before: seq<Entry>, e: Entry)
    requires OnFile(byId, before, e) && (e.body.facts.ClockBasisDeclared? || e.body.facts.AcquisitionDeclared?)
    ensures ParentTransition(byId, e) <==> Lineage(before, e)
  {
    hide OnFile, CausalIds, Uncaused;
    NoneListed(byId, before, e);
    var causal := CausalIds(byId, e.body.parents);
    assert |multiset(KindsOf(byId, causal))| == |causal|;
  }

  /** A live commit follows the declaration of its acquisition and the end of its request, in either order. */
  lemma LiveCommitParents(byId: ById, e: Entry)
    requires e.body.facts.ArtifactCommitted? && e.body.facts.mode == Live
    ensures var causal := CausalIds(byId, e.body.parents);
            ParentTransition(byId, e) <==> |causal| == 2 && (DeclaredThenEnded(byId, causal[0], causal[1], e) || DeclaredThenEnded(byId, causal[1], causal[0], e))
  {
    hide CausalIds, KindsAgree, SameAcquisition, DeclaredThenEnded;
    var causal := CausalIds(byId, e.body.parents);
    LiveKinds(byId, causal, e);
    if |causal| == 2 {
      assert causal[0] in causal && causal[1] in causal;
      LiveAcquisition(byId, causal, e);
      LiveSteps(byId, causal[0], causal[1], e);
      LiveSteps(byId, causal[1], causal[0], e);
    }
  }

  lemma LiveKinds(byId: ById, causal: seq<Id>, e: Entry)
    requires (forall x :: x in causal ==> x in byId) && e.body.facts.ArtifactCommitted? && e.body.facts.mode == Live
    ensures KindsAgree(byId, causal, e.body.facts) ==> |causal| == 2
    ensures |causal| == 2 ==>
              (KindsAgree(byId, causal, e.body.facts) <==>
                 OfKinds(byId, causal[0], causal[1], KAcquisition, KRequestSucceeded) || OfKinds(byId, causal[1], causal[0], KAcquisition, KRequestSucceeded))
  {
    hide *;
    TwoKinds(byId, causal, KAcquisition, KRequestSucceeded);
    LiveKindsAre(byId, causal, e);
    KindsLength(byId, causal);
    if |causal| == 2 {
      assert causal[0] in causal && causal[1] in causal;
      KindsOfTwo(byId, causal, KAcquisition, KRequestSucceeded);
      KindsOfTwo(byId, causal, KRequestSucceeded, KAcquisition);
      OfKindsIs(byId, causal[0], causal[1], KAcquisition, KRequestSucceeded);
      OfKindsIs(byId, causal[1], causal[0], KAcquisition, KRequestSucceeded);
    }
  }

  lemma LiveKindsAre(byId: ById, causal: seq<Id>, e: Entry)
    requires (forall x :: x in causal ==> x in byId) && e.body.facts.ArtifactCommitted? && e.body.facts.mode == Live
    ensures KindsAgree(byId, causal, e.body.facts) <==> multiset(KindsOf(byId, causal)) == multiset([KAcquisition, KRequestSucceeded])
  {
    hide KindsOf;
  }

  lemma KindsLength(byId: ById, causal: seq<Id>)
    requires forall x :: x in causal ==> x in byId
    ensures |KindsOf(byId, causal)| == |causal|
  {
  }

  lemma KindsOfTwo(byId: ById, causal: seq<Id>, a: Kind, b: Kind)
    requires (forall x :: x in causal ==> x in byId) && |causal| == 2 && causal[0] in byId && causal[1] in byId
    ensures KindsOf(byId, causal) == [a, b] <==> KindOf(FactsAt(byId, causal[0])) == a && KindOf(FactsAt(byId, causal[1])) == b
  {
    hide KindOf;
    var kinds := KindsOf(byId, causal);
    assert kinds == [kinds[0], kinds[1]];
  }

  lemma OfKindsIs(byId: ById, x: Id, y: Id, a: Kind, b: Kind)
    requires x in byId && y in byId
    ensures OfKinds(byId, x, y, a, b) <==> KindOf(FactsAt(byId, x)) == a && KindOf(FactsAt(byId, y)) == b
  {
    hide KindOf;
  }

  predicate OfKinds(byId: ById, x: Id, y: Id, a: Kind, b: Kind) {
    x in byId && y in byId && KindOf(FactsAt(byId, x)) == a && KindOf(FactsAt(byId, y)) == b
  }

  lemma LiveAcquisition(byId: ById, causal: seq<Id>, e: Entry)
    requires (forall x :: x in causal ==> x in byId) && e.body.facts.ArtifactCommitted? && |causal| == 2
    ensures SameAcquisition(byId, causal, e.body.facts) <==> NamesAcquisition(byId, causal[0], e) && NamesAcquisition(byId, causal[1], e)
  {
    hide HasAcquisitionField;
    assert causal[0] in causal && causal[1] in causal;
    assert forall x :: x in causal ==> x == causal[0] || x == causal[1];
  }

  predicate NamesAcquisition(byId: ById, x: Id, e: Entry)
    requires x in byId && e.body.facts.ArtifactCommitted?
  {
    HasAcquisitionField(FactsAt(byId, x)) ==> AcquisitionOf(FactsAt(byId, x)) == Some(e.body.facts.acquisition)
  }

  lemma LiveSteps(byId: ById, x: Id, y: Id, e: Entry)
    requires x in byId && y in byId && e.body.facts.ArtifactCommitted?
    ensures OfKinds(byId, x, y, KAcquisition, KRequestSucceeded) && NamesAcquisition(byId, x, e) && NamesAcquisition(byId, y, e)
            <==> DeclaredThenEnded(byId, x, y, e)
  {
  }

  predicate DeclaredThenEnded(byId: ById, x: Id, y: Id, e: Entry)
    requires e.body.facts.ArtifactCommitted?
  {
    var a := e.body.facts.acquisition;
    x in byId && y in byId && Declares(byId[x], a) && EndsRequest(byId[y], a)
  }

  lemma LiveCommitExactly(byId: ById, before: seq<Entry>, e: Entry)
    requires OnFile(byId, before, e) && e.body.facts.ArtifactCommitted? && e.body.facts.mode == Live
    ensures ParentTransition(byId, e) <==> Lineage(before, e)
  {
    hide OnFile, CausalIds, ParentTransition, Pair, Declares, EndsRequest;
    var causal := CausalIds(byId, e.body.parents);
    LiveCommitParents(byId, e);
    if |causal| == 2 {
      var i, j := PairExists(byId, before, e);
      PairSwaps(before, e, i, j);
    }
    forall i: nat, j: nat | i < |before| && j < |before| && Pair(before, e, i, j)
      ensures causal == [before[i].id, before[j].id] || causal == [before[j].id, before[i].id]
      ensures before[i].id in byId && byId[before[i].id] == before[i] && before[j].id in byId && byId[before[j].id] == before[j] {
      PairOrders(byId, before, e, i, j);
    }
  }

  lemma PairSwaps(before: seq<Entry>, e: Entry, i: nat, j: nat)
    requires Pair(before, e, i, j)
    ensures Pair(before, e, j, i)
  {
  }

  lemma PairOrders(byId: ById, before: seq<Entry>, e: Entry, i: nat, j: nat)
    requires OnFile(byId, before, e) && i < |before| && j < |before| && Pair(before, e, i, j)
    ensures var causal := CausalIds(byId, e.body.parents); causal == [before[i].id, before[j].id] || causal == [before[j].id, before[i].id]
    ensures before[i].id in byId && byId[before[i].id] == before[i] && before[j].id in byId && byId[before[j].id] == before[j]
    ensures before[i].id != before[j].id
  {
    assert i != j;
    hide OnFile, CausalIds, Pair;
    PairListed(byId, before, e, i, j);
    assert multiset{before[i].id, before[j].id} == multiset([before[i].id, before[j].id]);
    PairBag(CausalIds(byId, e.body.parents), before[i].id, before[j].id);
  }

  // ----- Regressions -----

  lemma RegressionIs(byId: ById, p: Entry, r: Entry, causal: seq<Id>, e: Entry)
    requires multiset(causal) == multiset{p.id, r.id} && p.id != r.id && e.body.facts.ClockRegression?
    requires p.id in byId && byId[p.id] == p && r.id in byId && byId[r.id] == r
    ensures RegressionBacked(byId, causal, e) <==> FellBack(p, r, e) || FellBack(r, p, e)
  {
    var f := e.body.facts;
    assert p.id in multiset{p.id, r.id} && r.id in multiset{p.id, r.id};
    if multiset{f.prior, f.regressing} == multiset{p.id, r.id} {
      assert p.id in multiset{f.prior, f.regressing} && r.id in multiset{f.prior, f.regressing};
    }
  }

  lemma RegressionExactly(byId: ById, before: seq<Entry>, e: Entry)
    requires OnFile(byId, before, e) && e.body.facts.ClockRegression?
    ensures ParentTransition(byId, e) <==> Lineage(before, e)
  {
    hide OnFile, CausalIds, Pair, FellBack, RegressionBacked;
    if RegressionBacked(byId, CausalIds(byId, e.body.parents), e) { var i, j := RegressionFrom(byId, before, e); }
    if i: nat, j: nat :| i < |before| && j < |before| && Pair(before, e, i, j) && FellBack(before[i], before[j], e) {
      PairRegressed(byId, before, e, i, j);
    }
  }

  lemma PairRegressed(byId: ById, before: seq<Entry>, e: Entry, i: nat, j: nat)
    requires OnFile(byId, before, e) && e.body.facts.ClockRegression? && i < |before| && j < |before| && Pair(before, e, i, j)
    ensures RegressionBacked(byId, CausalIds(byId, e.body.parents), e) <==> FellBack(before[i], before[j], e) || FellBack(before[j], before[i], e)
  {
    hide *;
    PairOrders(byId, before, e, i, j);
    assert multiset([before[i].id, before[j].id]) == multiset([before[j].id, before[i].id]) == multiset{before[i].id, before[j].id};
    RegressionIs(byId, before[i], before[j], CausalIds(byId, e.body.parents), e);
  }

  lemma RegressionFrom(byId: ById, before: seq<Entry>, e: Entry) returns (i: nat, j: nat)
    requires OnFile(byId, before, e) && e.body.facts.ClockRegression? && RegressionBacked(byId, CausalIds(byId, e.body.parents), e)
    ensures i < |before| && j < |before| && Pair(before, e, i, j) && FellBack(before[i], before[j], e)
  {
    hide *;
    TwoRegressed(byId, CausalIds(byId, e.body.parents), e);
    i, j := PairExists(byId, before, e);
    PairSwaps(before, e, i, j);
    PairRegressed(byId, before, e, i, j);
    if !FellBack(before[i], before[j], e) { i, j := j, i; }
  }

  lemma TwoRegressed(byId: ById, causal: seq<Id>, e: Entry)
    requires e.body.facts.ClockRegression? && RegressionBacked(byId, causal, e)
    ensures |causal| == 2
  {
    assert |multiset(causal)| == 2;
  }

  // ----- Normalizations -----

  /** The entries before `e` were admitted, and `e` is made as it should be. */
  ghost predicate Standing(k: Kernel, byId: ById, vaultEvidence: map<Id, VaultEvidence>, before: seq<Entry>, e: Entry) {
    && OnFile(byId, before, e) && Sound(byId, vaultEvidence)
    && forall i: nat :: i < |before| ==> Made(k, before[i])
  }

  predicate Made(k: Kernel, e: Entry) {
    StrictlyAscending(e.body.parents) && ValidFacts(k, e.body.facts)
  }

  lemma EarlierOnFile(k: Kernel, byId: ById, vaultEvidence: map<Id, VaultEvidence>, before: seq<Entry>, e: Entry, i: nat)
    requires Standing(k, byId, vaultEvidence, before, e) && i < |before|
    ensures OnFile(byId, before, before[i]) && ValidFacts(k, before[i].body.facts)
    ensures before[i].id in byId && byId[before[i].id] == before[i]
    ensures VerifiedFromCommit(byId, before[i].id) && CapturedFromEmission(byId, before[i].id) && EvidenceRecorded(byId, vaultEvidence)
  {
    hide VerifiedFromCommit, CapturedFromEmission, ValidFacts, EvidenceRecorded, Unrepeated;
    assert Made(k, before[i]);
  }

  lemma VerifiedSizes(byId: ById, id: Id)
    requires id in byId && VerifiedFromCommit(byId, id) && FactsAt(byId, id).ArtifactVerified?
    ensures FactsAt(byId, id).consumedSize == FactsAt(byId, id).metadataSize
  {
    hide SoleParent;
  }

  lemma LinkToCommit(k: Kernel, byId: ById, vaultEvidence: map<Id, VaultEvidence>, before: seq<Entry>, e: Entry, l: RawLink) returns (i: nat, c: nat)
    requires Standing(k, byId, vaultEvidence, before, e) && LinkBacked(byId, CausalIds(byId, e.body.parents), l)
    ensures i < |before| && c < |before| && LinkedThrough(before, e, l, i, c)
  {
    hide Standing, OnFile, Causes, EvidenceRecorded, CapturedFromEmission, VerifiedFromCommit, ValidFacts;
    var x := FirstVerifying(byId, CausalIds(byId, e.body.parents), l).value;
    StandingOnFile(k, byId, vaultEvidence, before, e);
    i := ListedCause(byId, before, e, x);
    EarlierOnFile(k, byId, vaultEvidence, before, e, i);
    VerifiedSizes(byId, x);
    var y := FirstOfKind(byId, byId[x].body.parents, {KCommitted}).value;
    c := ListedCause(byId, before, before[i], y);
  }

  lemma StandingOnFile(k: Kernel, byId: ById, vaultEvidence: map<Id, VaultEvidence>, before: seq<Entry>, e: Entry)
    requires Standing(k, byId, vaultEvidence, before, e)
    ensures OnFile(byId, before, e) && Sound(byId, vaultEvidence)
  {
    hide Sound, OnFile;
  }

  lemma LinkExactly(k: Kernel, byId: ById, vaultEvidence: map<Id, VaultEvidence>, before: seq<Entry>, e: Entry, l: RawLink)
    requires Standing(k, byId, vaultEvidence, before, e)
    ensures LinkBacked(byId, CausalIds(byId, e.body.parents), l) <==> LinkFrom(before, e, l)
  {
    hide Standing, OnFile, LinkBacked, CausalIds, Causes, Sound, VerifiedFromCommit, CapturedFromEmission, ValidFacts;
    var causal := CausalIds(byId, e.body.parents);
    StandingOnFile(k, byId, vaultEvidence, before, e);
    if LinkBacked(byId, causal, l) { var i, c := LinkToCommit(k, byId, vaultEvidence, before, e, l); }
    if i: nat, c: nat :| i < |before| && c < |before| && LinkedThrough(before, e, l, i, c) {
      CauseListed(byId, before, e, i);
      EarlierOnFile(k, byId, vaultEvidence, before, e, c);
      assert FactsAt(byId, before[c].id) == before[c].body.facts;
      LinkBackedMeaning(byId, vaultEvidence, causal, l);
    }
  }

  lemma {:induction false} IdsOfSet(before: seq<Entry>, s: set<nat>)
    requires Unrepeated(before) && forall i :: i in s ==> i < |before|
    ensures |IdsAt(before, s)| == |s|
  {
    if s != {} {
      var i :| i in s;
      IdsOfSet(before, s - {i});
      assert before[i].id !in IdsAt(before, s - {i});
      assert IdsAt(before, s) == IdsAt(before, s - {i}) + {before[i].id};
    }
  }

  lemma {:induction false} DistinctSize(s: seq<Id>)
    requires Distinct(s)
    ensures |MembersOf(s)| == |s|
  {
    if s != [] {
      var rest := s[1..];
      assert forall i :: 0 <= i < |rest| ==> rest[i] == s[i + 1] && rest[i] != s[0];
      DistinctSize(rest);
      assert s == [s[0]] + rest && s[0] !in MembersOf(rest);
      assert MembersOf(s) == MembersOf(rest) + {s[0]};
    }
  }

  function MembersOf(s: seq<Id>): set<Id> {
    set x | x in s
  }

  function IdsAt(before: seq<Entry>, s: set<nat>): set<Id>
    requires forall i :: i in s ==> i < |before|
  {
    set i | i in s :: before[i].id
  }

  lemma CauseCount(byId: ById, before: seq<Entry>, e: Entry)
    requires OnFile(byId, before, e)
    ensures |CauseSet(before, e)| == |CausalIds(byId, e.body.parents)|
  {
    hide CausalIds, Causes;
    var causal := CausalIds(byId, e.body.parents);
    IdsOfSet(before, CauseSet(before, e));
    CausalDistinct(byId, e);
    DistinctSize(causal);
    forall x ensures x in MembersOf(causal) <==> x in IdsAt(before, CauseSet(before, e)) {
      if x in causal { var i := ListedCause(byId, before, e, x); assert i in CauseSet(before, e); }
      if i :| i in CauseSet(before, e) && before[i].id == x { CauseListed(byId, before, e, i); }
    }
    assert MembersOf(causal) == IdsAt(before, CauseSet(before, e));
  }

  lemma NormalizationParents(byId: ById, e: Entry)
    requires IsNormalization(e.body.facts)
    ensures var causal := CausalIds(byId, e.body.parents);
            ParentTransition(byId, e) <==>
              && |causal| == |LinksOf(e.body.facts)| && (forall x :: x in causal ==> FactsAt(byId, x).ArtifactVerified?)
              && forall l :: l in LinksOf(e.body.facts) ==> LinkBacked(byId, causal, l)
  {
    hide CausalIds, LinkBacked, KindsAgree, KindsOf, SameAcquisition, ParentFactsAgree, KindOf;
    var causal := CausalIds(byId, e.body.parents);
    AllOfKind(byId, causal, KVerified);
    NormalizationKinds(byId, causal, e);
    KindVerified(byId, causal);
    NormalizationFacts(byId, causal, e);
  }

  lemma KindVerified(byId: ById, ids: seq<Id>)
    requires forall x :: x in ids ==> x in byId
    ensures forall x :: x in ids ==> (KindOf(FactsAt(byId, x)) == KVerified <==> FactsAt(byId, x).ArtifactVerified?)
  {
  }

  lemma NormalizationFacts(byId: ById, causal: seq<Id>, e: Entry)
    requires (forall x :: x in causal ==> x in byId) && IsNormalization(e.body.facts)
    ensures SameAcquisition(byId, causal, e.body.facts)
    ensures KindsAgree(byId, causal, e.body.facts) ==>
              (ParentFactsAgree(byId, causal, e.body.facts) <==> forall l :: l in LinksOf(e.body.facts) ==> LinkBacked(byId, causal, l))
  {
    hide KindsAgree, LinkBacked;
  }

  lemma NormalizationKinds(byId: ById, causal: seq<Id>, e: Entry)
    requires (forall x :: x in causal ==> x in byId) && IsNormalization(e.body.facts)
    ensures KindsAgree(byId, causal, e.body.facts) <==>
              |causal| == |LinksOf(e.body.facts)| && multiset(KindsOf(byId, causal)) == multiset(Repeat(KVerified, |causal|))
  {
    var n := |LinksOf(e.body.facts)|;
    assert |multiset(KindsOf(byId, causal))| == |causal|;
    assert |multiset(Repeat(KVerified, n))| == n;
  }

  lemma NormalizationExactly(k: Kernel, byId: ById, vaultEvidence: map<Id, VaultEvidence>, before: seq<Entry>, e: Entry)
    requires Standing(k, byId, vaultEvidence, before, e) && IsNormalization(e.body.facts)
    ensures ParentTransition(byId, e) <==> Lineage(before, e)
  {
    hide *;
    var causal := CausalIds(byId, e.body.parents);
    StandingOnFile(k, byId, vaultEvidence, before, e);
    NormalizationParents(byId, e);
    CauseCount(byId, before, e);
    forall l ensures LinkBacked(byId, causal, l) <==> LinkFrom(before, e, l) { LinkExactly(k, byId, vaultEvidence, before, e, l); }
    AllVerified(byId, before, e);
    NormalizationLineage(before, e);
  }

  lemma AllVerified(byId: ById, before: seq<Entry>, e: Entry)
    requires OnFile(byId, before, e)
    ensures (forall x :: x in CausalIds(byId, e.body.parents) ==> FactsAt(byId, x).ArtifactVerified?)
            <==> forall i: nat :: i < |before| && Causes(before, e, i) ==> before[i].body.facts.ArtifactVerified?
  {
    hide OnFile, CausalIds, Causes;
    var causal := CausalIds(byId, e.body.parents);
    forall i: nat | i < |before| && Causes(before, e, i)
      ensures before[i].id in causal && FactsAt(byId, before[i].id) == before[i].body.facts {
      CauseListed(byId, before, e, i);
    }
    forall x | x in causal ensures exists i: nat :: i < |before| && Causes(before, e, i) && FactsAt(byId, x) == before[i].body.facts {
      var i := ListedCause(byId, before, e, x);
    }
  }

  lemma NormalizationLineage(before: seq<Entry>, e: Entry)
    requires IsNormalization(e.body.facts)
    ensures Lineage(before, e) <==> 
              && (forall i: nat :: i < |before| && Causes(before, e, i) ==> before[i].body.facts.ArtifactVerified?)
              && |CauseSet(before, e)| == |LinksOf(e.body.facts)|
              && forall l :: l in LinksOf(e.body.facts) ==> LinkFrom(before, e, l)
  {
    hide Causes, CauseSet, LinkFrom;
  }

  // ----- Selections -----

  lemma SelectedCapture(byId: ById, before: seq<Entry>, e: Entry)
    requires OnFile(byId, before, e) && e.body.facts.SelectionRecorded? && e.body.facts.selection.byCapture
    ensures ParentTransition(byId, e) <==>
              exists i: nat :: i < |before| && Sole(before, e, i) && IsCapture(before[i].body.facts)
                               && SelectsCapture(byId, CausalIds(byId, e.body.parents), e.body.facts.selection)
  {
    hide OnFile, CausalIds, Sole, SelectsCapture, KindsOf;
    var causal := CausalIds(byId, e.body.parents);
    if |causal| == 1 { var i := SoleExists(byId, before, e); }
    forall i: nat | i < |before| && Sole(before, e, i) ensures causal == [before[i].id] && before[i].id in byId && byId[before[i].id] == before[i] {
      SoleListed(byId, before, e, i);
    }
  }

  /** The emission behind a capture, found by either side. */
  lemma CaptureSource(k: Kernel, byId: ById, vaultEvidence: map<Id, VaultEvidence>, before: seq<Entry>, e: Entry, i: nat) returns (m: nat)
    requires Standing(k, byId, vaultEvidence, before, e) && i < |before| && IsCapture(before[i].body.facts)
    ensures m < |before| && before[i].id in byId && byId[before[i].id] == before[i] && before[m].id in byId && byId[before[m].id] == before[m]
    ensures FirstOfKind(byId, before[i].body.parents, {KEmitted}) == Some(before[m].id) && before[m].body.facts.NormalizationEmitted?
    ensures Sole(before, before[i], m)
  {
    hide Standing, OnFile, CausalIds, Sole, Causes, Sound, VerifiedFromCommit, CapturesEmission, EvidenceRecorded, ValidFacts;
    EarlierOnFile(k, byId, vaultEvidence, before, e, i);
    EmissionBehind(byId, before[i].id);
    m := SoleExists(byId, before, before[i]);
  }

  lemma SelectsCaptureIs(k: Kernel, byId: ById, vaultEvidence: map<Id, VaultEvidence>, before: seq<Entry>, e: Entry, s: Selection, i: nat)
    requires Standing(k, byId, vaultEvidence, before, e) && i < |before| && IsCapture(before[i].body.facts)
    requires CausalIds(byId, e.body.parents) == [before[i].id]
    ensures SelectsCapture(byId, CausalIds(byId, e.body.parents), s)
            <==> CapturedOn(before[i], s.basis) && exists m: nat :: m < |before| && Causes(before, before[i], m) && EmitsSelected(before[m], s)
  {
    hide Standing, OnFile, CausalIds, Causes;
    var m := CaptureSource(k, byId, vaultEvidence, before, e, i);
    assert FirstOfKind(byId, [before[i].id], {KAppended, KRedelivered}) == Some(before[i].id);
  }

  lemma CaptureSelectionExactly(k: Kernel, byId: ById, vaultEvidence: map<Id, VaultEvidence>, before: seq<Entry>, e: Entry)
    requires Standing(k, byId, vaultEvidence, before, e) && e.body.facts.SelectionRecorded? && e.body.facts.selection.byCapture
    ensures ParentTransition(byId, e) <==> Lineage(before, e)
  {
    hide Standing, OnFile, CausalIds, Causes, Sole, SelectsCapture, CapturedOn, EmitsSelected, ParentTransition;
    var causal, s := CausalIds(byId, e.body.parents), e.body.facts.selection;
    StandingOnFile(k, byId, vaultEvidence, before, e);
    SelectedCapture(byId, before, e);
    forall i: nat | i < |before| && Sole(before, e, i)
      ensures IsCapture(before[i].body.facts) && SelectsCapture(byId, causal, s) <==>
                CapturedOn(before[i], s.basis) && exists m: nat :: m < |before| && Causes(before, before[i], m) && EmitsSelected(before[m], s) {
      SoleListed(byId, before, e, i);
      CapturedIs(before[i], s.basis);
      if IsCapture(before[i].body.facts) { SelectsCaptureIs(k, byId, vaultEvidence, before, e, s, i); }
    }
  }

  lemma CapturedIs(d: Entry, b: TrustedBasis)
    ensures CapturedOn(d, b) ==> IsCapture(d.body.facts)
  {
  }

  lemma RetrievalKinds(byId: ById, e: Entry)
    requires e.body.facts.SelectionRecorded? && !e.body.facts.selection.byCapture
    ensures var causal := CausalIds(byId, e.body.parents);
            ParentTransition(byId, e) <==>
              && |causal| == 2
              && (OfKinds(byId, causal[0], causal[1], KVerified, KEmitted) || OfKinds(byId, causal[1], causal[0], KVerified, KEmitted))
              && SelectsRetrieval(byId, causal, e.body.facts.selection)
  {
    hide CausalIds, SelectsRetrieval, KindsOf, OfKinds;
    var causal := CausalIds(byId, e.body.parents);
    TwoKinds(byId, causal, KVerified, KEmitted);
    KindsLength(byId, causal);
    if |causal| == 2 {
      assert causal[0] in causal && causal[1] in causal;
      KindsOfTwo(byId, causal, KVerified, KEmitted);
      KindsOfTwo(byId, causal, KEmitted, KVerified);
      OfKindsIs(byId, causal[0], causal[1], KVerified, KEmitted);
      OfKindsIs(byId, causal[1], causal[0], KVerified, KEmitted);
    }
  }

  lemma {:induction false} FirstLinkIs(links: seq<RawLink>, l: RawLink)
    requires l in links && forall i, j :: 0 <= i < j < |links| ==> links[i].role != links[j].role
    ensures FirstLink(links, l.role, l.acquisition, l.vault) == Some(l)
  {
    if links[0] != l {
      var j :| 0 <= j < |links| && links[j] == l;
      assert links[0].role != l.role;
      assert forall i :: 0 <= i < |links| - 1 ==> links[1..][i] == links[i + 1];
      assert links[1..][j - 1] == l;
      FirstLinkIs(links[1..], l);
    }
  }

  lemma {:induction false} FirstLinkFrom(links: seq<RawLink>, role: string, a: Id, v: Id)
    ensures FirstLink(links, role, a, v).Some? ==>
              var l := FirstLink(links, role, a, v).value; l in links && l.role == role && l.acquisition == a && l.vault == v
  {
    if links != [] { FirstLinkFrom(links[1..], role, a, v); }
  }

  /** The commit behind a verified artifact, found by either side. */
  lemma VerifiedSource(k: Kernel, byId: ById, vaultEvidence: map<Id, VaultEvidence>, before: seq<Entry>, e: Entry, i: nat) returns (c: nat)
    requires Standing(k, byId, vaultEvidence, before, e) && i < |before| && before[i].body.facts.ArtifactVerified?
    ensures c < |before| && before[i].id in byId && byId[before[i].id] == before[i] && before[c].id in byId && byId[before[c].id] == before[c]
    ensures FirstOfKind(byId, before[i].body.parents, {KCommitted}) == Some(before[c].id) && before[c].body.facts.ArtifactCommitted?
    ensures Sole(before, before[i], c) && before[i].body.facts.metadataSize == before[i].body.facts.consumedSize
  {
    hide Standing, OnFile, CausalIds, Sole, Causes, Sound, CapturedFromEmission, CapturesEmission, EvidenceRecorded, ValidFacts;
    EarlierOnFile(k, byId, vaultEvidence, before, e, i);
    CommitBehind(byId, before[i].id);
    c := SoleExists(byId, before, before[i]);
  }

  /** With the verified artifact at `i` and the emission at `j`, what a selection by retrieval demands of them. */
  predicate Retrieved(before: seq<Entry>, s: Selection, i: nat, j: nat, c: nat)
    requires i < |before| && j < |before| && c < |before| && before[j].body.facts.NormalizationEmitted?
  {
    && EmitsSelected(before[j], s) && RetrievedOn(before[c], s.basis)
    && exists l :: l in before[j].body.facts.emission.links && Names(s.basis, l) && VerifiesAs(before[i], l) && CommittedFor(before[c], l)
  }

  lemma EmissionFound(byId: ById, causal: seq<Id>, v: Entry, n: Entry)
    requires v.id in byId && byId[v.id] == v && n.id in byId && byId[n.id] == n && v.body.facts.ArtifactVerified? && n.body.facts.NormalizationEmitted?
    requires causal == [v.id, n.id] || causal == [n.id, v.id]
    ensures FirstOfKind(byId, causal, {KEmitted}) == Some(n.id)
  {
    assert forall x :: x in causal <==> x == v.id || x == n.id;
  }

  lemma SearchFinds(byId: ById, causal: seq<Id>, v: Entry, n: Entry, l: RawLink)
    requires v.id in byId && byId[v.id] == v && n.id in byId && byId[n.id] == n && v.body.facts.ArtifactVerified? && n.body.facts.NormalizationEmitted?
    requires causal == [v.id, n.id] || causal == [n.id, v.id]
    ensures FirstVerifying(byId, causal, l) == if VerifiesLink(v.body.facts, l) then Some(v.id) else None
  {
    assert forall x :: x in causal <==> x == v.id || x == n.id;
  }

  lemma LinkChosen(n: Emission, b: TrustedBasis, l: RawLink)
    requires b.RetrievalBasis? && forall i, j :: 0 <= i < j < |n.links| ==> n.links[i].role != n.links[j].role
    ensures FirstLink(n.links, b.role, b.acquisition, b.vault) == Some(l) <==> l in n.links && Names(b, l)
  {
    FirstLinkFrom(n.links, b.role, b.acquisition, b.vault);
    if l in n.links && Names(b, l) { FirstLinkIs(n.links, l); }
  }

  lemma RolesDistinct(k: Kernel, d: Entry)
    requires ValidFacts(k, d.body.facts) && d.body.facts.NormalizationEmitted?
    ensures var links := d.body.facts.emission.links; forall i, j :: 0 <= i < j < |links| ==> links[i].role != links[j].role
  {
  }

  lemma RetrievedByIs(byId: ById, causal: seq<Id>, v: Entry, c: Entry, b: TrustedBasis, l: RawLink)
    requires (forall x :: x in causal ==> x in byId) && b.RetrievalBasis?
    requires v.id in byId && byId[v.id] == v && c.id in byId && byId[c.id] == c && v.body.facts.ArtifactVerified?
    requires FirstVerifying(byId, causal, l) == if VerifiesLink(v.body.facts, l) then Some(v.id) else None
    requires FirstOfKind(byId, v.body.parents, {KCommitted}) == Some(c.id) && c.body.facts.ArtifactCommitted?
    ensures RetrievedBy(byId, causal, b, l) <==> VerifiesAs(v, l) && CommittedFor(c, l) && RetrievedOn(c, b)
  {
  }

  lemma SelectsRetrievalIs(k: Kernel, byId: ById, causal: seq<Id>, before: seq<Entry>, s: Selection, i: nat, j: nat, c: nat)
    requires i < |before| && j < |before| && c < |before| && (forall x :: x in causal ==> x in byId)
    requires before[i].id in byId && byId[before[i].id] == before[i] && before[i].body.facts.ArtifactVerified?
    requires before[j].id in byId && byId[before[j].id] == before[j] && before[j].body.facts.NormalizationEmitted?
    requires before[c].id in byId && byId[before[c].id] == before[c] && before[c].body.facts.ArtifactCommitted?
    requires FirstOfKind(byId, before[i].body.parents, {KCommitted}) == Some(before[c].id)
    requires causal == [before[i].id, before[j].id] || causal == [before[j].id, before[i].id]
    requires ValidFacts(k, before[j].body.facts)
    ensures SelectsRetrieval(byId, causal, s) <==> Retrieved(before, s, i, j, c)
  {
    hide ValidFacts, RetrievedBy, FirstOfKind, FirstVerifying, VerifiesAs, CommittedFor, RetrievedOn, FirstLink, VerifiesLink, Names;
    RolesDistinct(k, before[j]);
    BasisNamed(s.basis);
    EmissionFound(byId, causal, before[i], before[j]);
    var n := before[j].body.facts.emission;
    if s.basis.RetrievalBasis? {
      forall l ensures RetrievedBy(byId, causal, s.basis, l) <==> VerifiesAs(before[i], l) && CommittedFor(before[c], l) && RetrievedOn(before[c], s.basis) {
        SearchFinds(byId, causal, before[i], before[j], l);
        RetrievedByIs(byId, causal, before[i], before[c], s.basis, l);
      }
      if SelectsRetrieval(byId, causal, s) {
        LinkChosen(n, s.basis, FirstLink(n.links, s.basis.role, s.basis.acquisition, s.basis.vault).value);
      }
      if l :| l in n.links && Names(s.basis, l) && VerifiesAs(before[i], l) && CommittedFor(before[c], l) { LinkChosen(n, s.basis, l); }
      SelectedIs(before[j], s);
    }
  }

  lemma SelectedIs(d: Entry, s: Selection)
    requires d.body.facts.NormalizationEmitted?
    ensures SelectsNormalization(s, d.body.facts.emission) <==> EmitsSelected(d, s)
  {
  }

  lemma BasisNamed(b: TrustedBasis)
    ensures forall l :: Names(b, l) ==> b.RetrievalBasis?
  {
  }

  /** Of a pair, one is the verified artifact and the other the emission. */
  predicate VerifiedAndEmitted(d: Entry, n: Entry) {
    d.body.facts.ArtifactVerified? && n.body.facts.NormalizationEmitted?
  }

  lemma PairRetrieved(k: Kernel, byId: ById, vaultEvidence: map<Id, VaultEvidence>, before: seq<Entry>, e: Entry, i: nat, j: nat)
    requires Standing(k, byId, vaultEvidence, before, e) && e.body.facts.SelectionRecorded?
    requires i < |before| && j < |before| && Pair(before, e, i, j) && VerifiedAndEmitted(before[i], before[j])
    ensures SelectsRetrieval(byId, CausalIds(byId, e.body.parents), e.body.facts.selection)
            <==> exists c: nat :: c < |before| && SelectedThrough(before, e, e.body.facts.selection, i, j, c)
  {
    hide Standing, OnFile, CausalIds, Sole, SelectsRetrieval, Pair, EmitsSelected, RetrievedOn, Names, VerifiesAs, CommittedFor, ValidFacts, VerifiedFromCommit, CapturedFromEmission,
      EvidenceRecorded, FirstOfKind, SelectedThrough, Retrieved, Causes;
    var causal, s := CausalIds(byId, e.body.parents), e.body.facts.selection;
    StandingOnFile(k, byId, vaultEvidence, before, e);
    PairOrders(byId, before, e, i, j);
    EarlierOnFile(k, byId, vaultEvidence, before, e, j);
    var c := VerifiedSource(k, byId, vaultEvidence, before, e, i);
    SelectsRetrievalIs(k, byId, causal, before, s, i, j, c);
    SoleIs(before, before[i], c);
    forall d: nat | d < |before| ensures SelectedThrough(before, e, s, i, j, d) <==> d == c && Retrieved(before, s, i, j, c) {
      ThroughSole(before, e, s, i, j, d, c);
    }
    assert SelectedThrough(before, e, s, i, j, c) <==> Retrieved(before, s, i, j, c);
  }

  lemma ThroughSole(before: seq<Entry>, e: Entry, s: Selection, i: nat, j: nat, d: nat, c: nat)
    requires i < |before| && j < |before| && d < |before| && c < |before| && Pair(before, e, i, j) && before[j].body.facts.NormalizationEmitted?
    requires Causes(before, before[i], c) && forall n: nat :: n < |before| && Causes(before, before[i], n) ==> n == c
    ensures SelectedThrough(before, e, s, i, j, d) <==> d == c && Retrieved(before, s, i, j, c)
  {
    hide Pair, Causes, EmitsSelected, RetrievedOn, Names, VerifiesAs, CommittedFor;
  }

  lemma SoleIs(before: seq<Entry>, e: Entry, c: nat)
    requires Sole(before, e, c)
    ensures Causes(before, e, c) && forall d: nat :: d < |before| && Causes(before, e, d) ==> d == c
  {
    hide Causes;
  }

  lemma RetrievalSelectionExactly(k: Kernel, byId: ById, vaultEvidence: map<Id, VaultEvidence>, before: seq<Entry>, e: Entry)
    requires Standing(k, byId, vaultEvidence, before, e) && e.body.facts.SelectionRecorded? && !e.body.facts.selection.byCapture
    ensures ParentTransition(byId, e) <==> Lineage(before, e)
  {
    hide *;
    RetrievalIsLineage(before, e);
    if ParentTransition(byId, e) {
      var i, j := RetrievalPair(k, byId, vaultEvidence, before, e);
    }
    if SelectedByRetrieval(before, e, e.body.facts.selection) {
      var i, j, c := SelectedParts(before, e, e.body.facts.selection);
      StandingOnFile(k, byId, vaultEvidence, before, e);
      PairOrders(byId, before, e, i, j);
      PairRetrieved(k, byId, vaultEvidence, before, e, i, j);
      RetrievalKinds(byId, e);
      KindsOfPair(byId, before[i], before[j]);
    }
  }

  lemma KindsOfPair(byId: ById, v: Entry, n: Entry)
    requires v.id in byId && byId[v.id] == v && n.id in byId && byId[n.id] == n
    ensures OfKinds(byId, v.id, n.id, KVerified, KEmitted) <==> VerifiedAndEmitted(v, n)
  {
  }

  lemma RetrievalIsLineage(before: seq<Entry>, e: Entry)
    requires e.body.facts.SelectionRecorded? && !e.body.facts.selection.byCapture
    ensures Lineage(before, e) <==> SelectedByRetrieval(before, e, e.body.facts.selection)
  {
    hide SelectedByRetrieval;
  }

  lemma SelectedParts(before: seq<Entry>, e: Entry, s: Selection) returns (i: nat, j: nat, c: nat)
    requires SelectedByRetrieval(before, e, s)
    ensures i < |before| && j < |before| && c < |before| && SelectedThrough(before, e, s, i, j, c)
    ensures Pair(before, e, i, j) && VerifiedAndEmitted(before[i], before[j])
  {
    hide Pair, Causes, RetrievedOn;
    i, j, c :| i < |before| && j < |before| && c < |before| && SelectedThrough(before, e, s, i, j, c);
  }

  lemma RetrievalPair(k: Kernel, byId: ById, vaultEvidence: map<Id, VaultEvidence>, before: seq<Entry>, e: Entry) returns (i: nat, j: nat)
    requires Standing(k, byId, vaultEvidence, before, e) && e.body.facts.SelectionRecorded? && !e.body.facts.selection.byCapture && ParentTransition(byId, e)
    ensures i < |before| && j < |before| && exists c: nat :: c < |before| && SelectedThrough(before, e, e.body.facts.selection, i, j, c)
    ensures SelectedByRetrieval(before, e, e.body.facts.selection)
  {
    hide Standing, OnFile, CausalIds, SelectsRetrieval, Pair, ParentTransition, VerifiedAndEmitted, SelectedThrough, OfKinds;
    StandingOnFile(k, byId, vaultEvidence, before, e);
    RetrievalKinds(byId, e);
    i, j := PairExists(byId, before, e);
    KindsOfPair(byId, before[i], before[j]);
    KindsOfPair(byId, before[j], before[i]);
    PairSwaps(before, e, i, j);
    if !VerifiedAndEmitted(before[i], before[j]) { i, j := j, i; }
    PairRetrieved(k, byId, vaultEvidence, before, e, i, j);
  }

  // ----- All kinds -----

  /** The validator's parent rule, for every kind of entry, is the lineage asked of it. */
  lemma LineageExactly(k: Kernel, byId: ById, vaultEvidence: map<Id, VaultEvidence>, before: seq<Entry>, e: Entry)
    requires Standing(k, byId, vaultEvidence, before, e)
    ensures ParentTransition(byId, e) <==> Lineage(before, e)
  {
    hide Standing, OnFile, ParentTransition, Lineage, SingleLineage;
    StandingOnFile(k, byId, vaultEvidence, before, e);
    var f := e.body.facts;
    if ParentKind(f).Some? {
      SingleExactly(byId, before, e);
      SingleIsLineage(before, e);
    } else {
      match f
      case ArtifactCommitted(_, _, _, _, _, _, _) => LiveCommitExactly(byId, before, e);
      case SelectionRecorded(s) =>
        if s.byCapture { CaptureSelectionExactly(k, byId, vaultEvidence, before, e); } else { RetrievalSelectionExactly(k, byId, vaultEvidence, before, e); }
      case ClockRegression(_, _, _, _, _) => RegressionExactly(byId, before, e);
      case ClockBasisDeclared(_) => RootExactly(byId, before, e);
      case AcquisitionDeclared(_, _, _, _, _) => RootExactly(byId, before, e);
      case _ => NormalizationExactly(k, byId, vaultEvidence, before, e);
    }
  }

  // ----- Acceptance, by lineage -----

  /** An entry is well made and new, its parents stand before it within the bounds, and it descends from what it has to. */
  ghost predicate DescentRules(k: Kernel, before: seq<Entry>, e: Entry) {
    && LedgerEntries.WellMade(k, e)
    && (before != [] ==> before[0].body.execution == e.body.execution)
    && (forall i :: 0 <= i < |before| ==> before[i].id != e.id)
    && ParentsBefore(before, e)
    && EdgeCount(before + [e]) <= MAX_EDGES
    && PathsShort(before + [e], |before|)
    && Lineage(before, e)
  }

  ghost predicate RulesByLineage(k: Kernel, before: seq<Entry>, e: Entry) {
    DescentRules(k, before, e) && LedgerEvidence.EvidenceRules(before, e) && LedgerClocks.ClockRules(before, e)
  }

  lemma CreatedMade(k: Kernel, e: Entry)
    requires Create(k, e.body) == Some(e)
    ensures Made(k, e)
  {
  }

  lemma RulesCreated(k: Kernel, before: seq<Entry>, e: Entry)
    requires EntryRules(k, before, e)
    ensures Create(k, e.body) == Some(e) && forall i :: 0 <= i < |before| ==> before[i].id != e.id
  {
    hide Create, ParentTransition, PathsShort, EdgeCount, LedgerEvidence.EvidenceRules, LedgerClocks.ClockRules;
  }

  /** After a prefix that kept the rules, the next entry stands on it. */
  lemma PrefixStands(k: Kernel, before: seq<Entry>, e: Entry)
    requires AllRules(k, before) && StrictlyAscending(e.body.parents)
    ensures exists v :: Standing(k, Index(before), v, before, e)
  {
    hide EntryRules, Sound, Create, TablesMean, Made, Run, LedgerClocks.Filed;
    assert before[..|before|] == before;
    RunExactly(k, before, |before|);
    var t := Run(k, EMPTY, before).value;
    SoundRun(k, EMPTY, before) by { SoundStart(); }
    MeansFiled(t, before);
    forall i, j | 0 <= i < j < |before| ensures before[i].id != before[j].id {
      RulesCreated(k, before[..j], before[j]);
      assert before[..j][i] == before[i];
    }
    forall i: nat | i < |before| ensures Made(k, before[i]) {
      RulesCreated(k, before[..i], before[i]);
      CreatedMade(k, before[i]);
    }
    assert Standing(k, Index(before), t.evidence.vaultEvidence, before, e);
  }

  lemma SoundStart()
    ensures Sound(EMPTY.graph.byId, EMPTY.evidence.vaultEvidence)
  {
  }

  lemma MeansFiled(t: Tables, before: seq<Entry>)
    requires TablesMean(t, before)
    ensures t.graph.byId == Index(before) && LedgerClocks.Filed(Index(before), before)
  {
    hide LedgerClocks.Filed, Index, DepthMeans, EdgeCount;
  }

  lemma RulesAgree(k: Kernel, before: seq<Entry>, e: Entry)
    requires AllRules(k, before)
    ensures EntryRules(k, before, e) <==> RulesByLineage(k, before, e)
  {
    hide AllRules, ParentTransition, Lineage, Create, ParentsBefore, EdgeCount, PathsShort, LedgerEvidence.EvidenceRules, LedgerClocks.ClockRules, Standing,
      LedgerEntries.WellMade;
    LedgerEntries.MadeExactly(k, e);
    if Create(k, e.body) == Some(e) {
      CreatedMade(k, e);
      PrefixStands(k, before, e);
      var v :| Standing(k, Index(before), v, before, e);
      LineageExactly(k, Index(before), v, before, e);
    }
  }

  lemma {:induction false} RulesAgreeTo(k: Kernel, entries: seq<Entry>, n: nat)
    requires n <= |entries|
    ensures (forall i :: 0 <= i < n ==> EntryRules(k, entries[..i], entries[i])) <==> forall i :: 0 <= i < n ==> RulesByLineage(k, entries[..i], entries[i])
  {
    hide EntryRules, RulesByLineage;
    if n > 0 {
      RulesAgreeTo(k, entries, n - 1);
      if forall i :: 0 <= i < n - 1 ==> EntryRules(k, entries[..i], entries[i]) {
        var before := entries[..n - 1];
        forall i | 0 <= i < |before| ensures EntryRules(k, before[..i], before[i]) {
          assert before[..i] == entries[..i] && before[i] == entries[i];
        }
        RulesAgree(k, before, entries[n - 1]);
      }
    }
  }

  /**
    A bundle is accepted if and only if it is not too long, every entry is well made and new, has its parents
    and its lineage among the entries before it, keeps the rules on failures, commits, counts and clocks, and
    every fall of a wall clock is attested.
   */
  lemma AcceptedByLineage(k: Kernel, entries: seq<Entry>)
    ensures Accepted(k, entries) <==>
              && |entries| <= MAX_ENTRIES
              && (forall i :: 0 <= i < |entries| ==> RulesByLineage(k, entries[..i], entries[i]))
              && LedgerClocks.AllAttested(entries)
  {
    hide Accepted, EntryRules, RulesByLineage, LedgerClocks.AllAttested;
    AcceptedExactly(k, entries);
    RulesAgreeTo(k, entries, |entries|);
  }

  // ----- Selections do not look ahead -----

  lemma LineageAt(k: Kernel, entries: seq<Entry>, j: nat)
    requires Accepted(k, entries) && j < |entries|
    ensures Lineage(entries[..j], entries[j]) && LedgerEntries.WellMade(k, entries[j])
  {
    hide Accepted, Lineage, LedgerEntries.WellMade, LedgerEvidence.EvidenceRules, LedgerClocks.ClockRules, LedgerClocks.AllAttested, ParentsBefore, EdgeCount, PathsShort;
    AcceptedByLineage(k, entries);
    assert RulesByLineage(k, entries[..j], entries[j]);
  }

  /** The capture or the commit a selection trusts stands before it, and was received by the time the selection is as of. */
  lemma SelectionsTimely(k: Kernel, entries: seq<Entry>, j: nat) returns (i: nat)
    requires Accepted(k, entries) && j < |entries| && entries[j].body.facts.SelectionRecorded?
    ensures i < j
    ensures var s, f := entries[j].body.facts.selection, entries[i].body.facts;
            if s.byCapture then (f.CaptureAppended? || f.CaptureRedelivered?) && f.capture.receivedAtMs <= s.asOfMs
            else f.ArtifactCommitted? && f.retrievedAtMs.Some? && f.retrievedAtMs.value <= s.asOfMs
  {
    hide Accepted, Causes, Sole, Pair, EmitsSelected;
    LineageAt(k, entries, j);
    var before, s := entries[..j], entries[j].body.facts.selection;
    SelectionMade(k, entries[j]);
    hide LedgerEntries.WellMade;
    if s.byCapture {
      var c: nat, m: nat :| c < |before| && m < |before|
                       && Sole(before, entries[j], c) && CapturedOn(before[c], s.basis) && Causes(before, before[c], m) && EmitsSelected(before[m], s);
      i := c;
    } else {
      var v: nat, n: nat, c: nat :| v < |before| && n < |before| && c < |before| && SelectedThrough(before, entries[j], s, v, n, c);
      i := c;
    }
    assert before[i] == entries[i];
  }

  lemma SelectionMade(k: Kernel, e: Entry)
    requires LedgerEntries.WellMade(k, e) && e.body.facts.SelectionRecorded?
    ensures LedgerEntries.SelectionWellMade(e.body.facts.selection)
  {
    hide LedgerEntries.SelectionWellMade;
  }
}
