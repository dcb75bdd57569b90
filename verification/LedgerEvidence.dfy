/**
  The rules a bundle keeps across its entries, read off the entries alone: what a failure rules out, which
  commits agree, how often an acquisition and a subject may occur. And what the validator's tables, which
  decide these rules in one pass, hold after every prefix.
 */
module LedgerEvidence {
  import opened Base
  import opened ObservationLedger
  import opened ReplayTheorem

  // ----- Reading entries -----

  predicate FailedAt(e: Entry, stage: Stage, a: Id) {
    e.body.facts.FailureRecorded? && e.body.facts.stage == stage && e.body.facts.failedAcquisition == Some(a)
  }

  /** A request that failed leaves nothing to commit. */
  predicate NothingToCommit(e: Entry, a: Id) {
    FailedAt(e, RequestStage, a)
  }

  /** Bytes that were not stored, not read back or not normalized cannot be normalized later on. */
  predicate NothingToNormalize(e: Entry, a: Id) {
    FailedAt(e, ArtifactStoreStage, a) || FailedAt(e, VerifiedReadStage, a) || FailedAt(e, NormalizationStage, a)
  }

  predicate Commits(e: Entry, a: Id) {
    e.body.facts.ArtifactCommitted? && e.body.facts.acquisition == a
  }

  predicate Requests(e: Entry, a: Id) {
    (e.body.facts.RequestStarted? || e.body.facts.RequestSucceeded?) && e.body.facts.acquisition == a
  }

  predicate SameCommit(e: Entry, d: Entry)
    requires e.body.facts.ArtifactCommitted? && d.body.facts.ArtifactCommitted?
  {
    var f, g := e.body.facts, d.body.facts;
    f.vault == g.vault && f.vaultHash == g.vaultHash && f.digest == g.digest && f.size == g.size
  }

  predicate SameVaultEvidence(e: Entry, d: Entry)
    requires e.body.facts.ArtifactCommitted? && d.body.facts.ArtifactCommitted?
  {
    var f, g := e.body.facts, d.body.facts;
    f.vaultHash == g.vaultHash && f.digest == g.digest && f.size == g.size
  }

  predicate SameRevision(e: Entry, d: Entry)
    requires e.body.facts.NormalizationEmitted? && d.body.facts.NormalizationEmitted?
  {
    var i, j := e.body.facts.emission.identity, d.body.facts.emission.identity;
    i.provider == j.provider && i.source == j.source && i.recordId == j.recordId && i.revisionId == j.revisionId
  }

  predicate SameProjection(e: Entry, d: Entry)
    requires e.body.facts.NormalizationEmitted? && d.body.facts.NormalizationEmitted?
  {
    var m, n := e.body.facts.emission, d.body.facts.emission;
    && m.projectionDigest == n.projectionDigest && m.evidenceBundle == n.evidenceBundle
    && m.identity.version == n.identity.version && m.identity.family == n.identity.family
  }

  /** An entry names an acquisition by itself or through a raw link. */
  predicate Touches(e: Entry, a: Id) {
    AcquisitionOf(e.body.facts) == Some(a) || exists l :: l in LinksOf(e.body.facts) && l.acquisition == a
  }

  function TouchCount(entries: seq<Entry>, a: Id): nat {
    if entries == [] then 0
    else TouchCount(entries[..|entries| - 1], a) + if Touches(entries[|entries| - 1], a) then 1 else 0
  }

  predicate Projects(e: Entry, subject: string) {
    e.body.facts.NormalizationEmitted? && e.body.facts.emission.subject == subject
  }

  function ProjectionCount(entries: seq<Entry>, subject: string): nat {
    if entries == [] then 0
    else ProjectionCount(entries[..|entries| - 1], subject) + if Projects(entries[|entries| - 1], subject) then 1 else 0
  }

  // ----- The rules -----

  predicate CommitAllowed(before: seq<Entry>, e: Entry)
    requires e.body.facts.ArtifactCommitted?
  {
    forall i :: 0 <= i < |before| ==> CommitAfter(before[i], e)
  }

  predicate CommitAfter(d: Entry, e: Entry)
    requires e.body.facts.ArtifactCommitted?
  {
    var a := e.body.facts.acquisition;
    && !NothingToCommit(d, a)
    && (e.body.facts.mode != Live ==> !Requests(d, a))
    && (Commits(d, a) ==> SameCommit(d, e))
    && (d.body.facts.ArtifactCommitted? && d.body.facts.vault == e.body.facts.vault ==> SameVaultEvidence(d, e))
  }

  predicate RequestAllowed(before: seq<Entry>, e: Entry)
    requires IsRequest(e.body.facts)
  {
    forall i :: 0 <= i < |before| && Commits(before[i], e.body.facts.acquisition) ==> before[i].body.facts.mode == Live
  }

  predicate LinksAllowed(before: seq<Entry>, e: Entry) {
    forall i, l :: 0 <= i < |before| && l in LinksOf(e.body.facts) ==> !NothingToNormalize(before[i], l.acquisition)
  }

  predicate EmissionAllowed(before: seq<Entry>, e: Entry)
    requires e.body.facts.NormalizationEmitted?
  {
    && (forall i :: 0 <= i < |before| && before[i].body.facts.NormalizationEmitted? && SameRevision(before[i], e) ==>
          SameProjection(before[i], e))
    && ProjectionCount(before + [e], e.body.facts.emission.subject) <= MAX_PROJECTIONS_PER_SUBJECT
  }

  /** An entry after those before it. */
  ghost predicate EvidenceRules(before: seq<Entry>, e: Entry) {
    && (e.body.facts.ArtifactCommitted? ==> CommitAllowed(before, e))
    && (IsRequest(e.body.facts) ==> RequestAllowed(before, e))
    && LinksAllowed(before, e)
    && (e.body.facts.NormalizationEmitted? ==> EmissionAllowed(before, e))
    && forall a :: Touches(e, a) ==> TouchCount(before + [e], a) <= MAX_ENTRIES_PER_ACQUISITION
  }

  // ----- What the tables hold -----

  ghost predicate BlocksMean(v: Evidence, entries: seq<Entry>) {
    && (forall a :: a in v.blockedCommits <==> exists i :: 0 <= i < |entries| && NothingToCommit(entries[i], a))
    && (forall a :: a in v.blockedNormalizations <==> exists i :: 0 <= i < |entries| && NothingToNormalize(entries[i], a))
    && (forall a :: a in v.recordedCommits <==>
          exists i :: 0 <= i < |entries| && Commits(entries[i], a) && entries[i].body.facts.mode != Live)
  }

  ghost predicate CountsMean(v: Evidence, entries: seq<Entry>) {
    && (forall a :: CountAt(v.acquisitionCounts, a) == TouchCount(entries, a))
    && (forall s :: CountAt(v.projectionCounts, s) == ProjectionCount(entries, s))
  }

  predicate CommitKeys(v: Evidence, entries: seq<Entry>) {
    forall a :: a in v.commits ==> exists i :: 0 <= i < |entries| && Commits(entries[i], a)
  }

  predicate VaultKeys(v: Evidence, entries: seq<Entry>) {
    forall x :: x in v.vaultEvidence ==> exists i :: 0 <= i < |entries| && CommitsVault(entries[i], x)
  }

  predicate CommitsVault(e: Entry, x: Id) {
    e.body.facts.ArtifactCommitted? && e.body.facts.vault == x
  }

  predicate AllRecorded(v: Evidence, entries: seq<Entry>) {
    forall i :: 0 <= i < |entries| && entries[i].body.facts.ArtifactCommitted? ==> CommitRecorded(v, entries[i].body.facts)
  }

  predicate CommitsMean(v: Evidence, entries: seq<Entry>) {
    CommitKeys(v, entries) && VaultKeys(v, entries) && AllRecorded(v, entries)
  }

  predicate CommitRecorded(v: Evidence, f: Facts)
    requires f.ArtifactCommitted?
  {
    && f.acquisition in v.commits && v.commits[f.acquisition] == CommitIdentityOf(f)
    && f.vault in v.vaultEvidence && v.vaultEvidence[f.vault] == VaultEvidenceOf(f)
  }

  ghost predicate RevisionsMean(v: Evidence, entries: seq<Entry>) {
    && (forall r :: r in v.revisions ==>
          exists i :: 0 <= i < |entries| && entries[i].body.facts.NormalizationEmitted? && RevisionKeyOf(entries[i].body.facts.emission) == r)
    && forall i :: 0 <= i < |entries| && entries[i].body.facts.NormalizationEmitted? ==>
         RevisionRecorded(v, entries[i].body.facts.emission)
  }

  predicate RevisionRecorded(v: Evidence, n: Emission) {
    RevisionKeyOf(n) in v.revisions && v.revisions[RevisionKeyOf(n)] == RevisionValueOf(n)
  }

  ghost predicate EvidenceMeans(v: Evidence, entries: seq<Entry>) {
    BlocksMean(v, entries) && CountsMean(v, entries) && CommitsMean(v, entries) && RevisionsMean(v, entries)
  }

  // ----- The rules are what the tables decide -----

  lemma CountsNext(entries: seq<Entry>, e: Entry, a: Id, s: string)
    ensures TouchCount(entries + [e], a) == TouchCount(entries, a) + if Touches(e, a) then 1 else 0
    ensures ProjectionCount(entries + [e], s) == ProjectionCount(entries, s) + if Projects(e, s) then 1 else 0
  {
    assert (entries + [e])[..|entries|] == entries;
  }

  lemma TouchedIs(e: Entry, a: Id)
    ensures a in AcquisitionsTouched(e.body.facts) <==> Touches(e, a)
  {
  }

  /** The requests among a prefix are those the table of entries holds. */
  lemma RequestsHeld(byId: ById, entries: seq<Entry>, a: Id)
    requires Holds(byId, entries)
    ensures (exists x :: x in byId && IsRequest(FactsAt(byId, x)) && FactsAt(byId, x).acquisition == a)
            <==> exists i :: 0 <= i < |entries| && Requests(entries[i], a)
  {
    if x :| x in byId && IsRequest(FactsAt(byId, x)) && FactsAt(byId, x).acquisition == a {
      var i :| 0 <= i < |entries| && entries[i] == byId[x];
      assert Requests(entries[i], a);
    }
    if i :| 0 <= i < |entries| && Requests(entries[i], a) {
      assert byId[entries[i].id] == entries[i];
    }
  }

  lemma CommitDecided(v: Evidence, byId: ById, entries: seq<Entry>, e: Entry)
    requires BlocksMean(v, entries) && CommitsMean(v, entries) && Holds(byId, entries) && e.body.facts.ArtifactCommitted?
    ensures CommitOk(v, byId, e.body.facts) <==> CommitAllowed(entries, e)
  {
    var f := e.body.facts;
    RequestsHeld(byId, entries, f.acquisition);
    hide Holds, IsRequest, NothingToCommit, NothingToNormalize;
    if CommitOk(v, byId, f) {
      forall i | 0 <= i < |entries| ensures CommitAfter(entries[i], e) {
        if entries[i].body.facts.ArtifactCommitted? { RecordedAt(v, entries, i); }
      }
    }
    if CommitAllowed(entries, e) {
      CommitTables(v, entries, e);
      NoRequests(entries, e);
    }
  }

  lemma NoRequests(entries: seq<Entry>, e: Entry)
    requires e.body.facts.ArtifactCommitted? && CommitAllowed(entries, e)
    ensures e.body.facts.mode != Live ==> !exists i :: 0 <= i < |entries| && Requests(entries[i], e.body.facts.acquisition)
  {
    if e.body.facts.mode != Live {
      forall i | 0 <= i < |entries| ensures !Requests(entries[i], e.body.facts.acquisition) { assert CommitAfter(entries[i], e); }
    }
  }

  lemma CommitTables(v: Evidence, entries: seq<Entry>, e: Entry)
    requires CommitsMean(v, entries) && e.body.facts.ArtifactCommitted? && CommitAllowed(entries, e)
    ensures var f := e.body.facts;
            && (f.acquisition in v.commits ==> v.commits[f.acquisition] == CommitIdentityOf(f))
            && (f.vault in v.vaultEvidence ==> v.vaultEvidence[f.vault] == VaultEvidenceOf(f))
  {
    hide NothingToCommit, Requests, CommitKeys, VaultKeys, AllRecorded;
    var f := e.body.facts;
    if f.acquisition in v.commits {
      var i := CommitHolder(v, entries, f.acquisition);
      RecordedAt(v, entries, i);
      assert CommitAfter(entries[i], e);
    }
    if f.vault in v.vaultEvidence {
      var i := VaultHolder(v, entries, f.vault);
      RecordedAt(v, entries, i);
      assert CommitAfter(entries[i], e);
    }
  }

  lemma CommitHolder(v: Evidence, entries: seq<Entry>, a: Id) returns (i: nat)
    requires CommitKeys(v, entries) && a in v.commits
    ensures i < |entries| && Commits(entries[i], a)
  {
    i :| 0 <= i < |entries| && Commits(entries[i], a);
  }

  lemma VaultHolder(v: Evidence, entries: seq<Entry>, x: Id) returns (i: nat)
    requires VaultKeys(v, entries) && x in v.vaultEvidence
    ensures i < |entries| && CommitsVault(entries[i], x)
  {
    i :| 0 <= i < |entries| && CommitsVault(entries[i], x);
  }

  lemma RecordedAt(v: Evidence, entries: seq<Entry>, i: nat)
    requires AllRecorded(v, entries) && i < |entries| && entries[i].body.facts.ArtifactCommitted?
    ensures CommitRecorded(v, entries[i].body.facts)
  {
  }

  lemma RequestDecided(v: Evidence, entries: seq<Entry>, e: Entry)
    requires BlocksMean(v, entries) && IsRequest(e.body.facts)
    ensures e.body.facts.acquisition !in v.recordedCommits <==> RequestAllowed(entries, e)
  {
    hide NothingToCommit, NothingToNormalize;
  }

  lemma LinksDecided(v: Evidence, entries: seq<Entry>, e: Entry)
    requires BlocksMean(v, entries)
    ensures (forall l :: l in LinksOf(e.body.facts) ==> l.acquisition !in v.blockedNormalizations) <==> LinksAllowed(entries, e)
  {
    hide NothingToCommit, NothingToNormalize, LinksOf, Commits;
    if LinksAllowed(entries, e) {
      forall l | l in LinksOf(e.body.facts) ensures l.acquisition !in v.blockedNormalizations { }
    }
  }

  lemma SameKeys(e: Entry, d: Entry)
    requires e.body.facts.NormalizationEmitted? && d.body.facts.NormalizationEmitted?
    ensures SameRevision(e, d) <==> RevisionKeyOf(e.body.facts.emission) == RevisionKeyOf(d.body.facts.emission)
    ensures SameProjection(e, d) <==> RevisionValueOf(e.body.facts.emission) == RevisionValueOf(d.body.facts.emission)
  {
  }

  lemma EmissionDecided(v: Evidence, entries: seq<Entry>, e: Entry)
    requires RevisionsMean(v, entries) && CountsMean(v, entries) && e.body.facts.NormalizationEmitted?
    ensures RevisionOk(v, e.body.facts.emission) <==> EmissionAllowed(entries, e)
  {
    var n := e.body.facts.emission;
    CountsNext(entries, e, 0, n.subject);
    hide SameRevision, SameProjection, RevisionKeyOf, RevisionValueOf, TouchCount, ProjectionCount;
    forall i | 0 <= i < |entries| && entries[i].body.facts.NormalizationEmitted?
      ensures SameRevision(entries[i], e) <==> RevisionKeyOf(entries[i].body.facts.emission) == RevisionKeyOf(n)
      ensures SameProjection(entries[i], e) <==> RevisionValueOf(entries[i].body.facts.emission) == RevisionValueOf(n) {
      SameKeys(entries[i], e);
    }
    if RevisionOk(v, n) {
      forall i | 0 <= i < |entries| && entries[i].body.facts.NormalizationEmitted? && SameRevision(entries[i], e)
        ensures SameProjection(entries[i], e) {
        assert RevisionRecorded(v, entries[i].body.facts.emission);
      }
    }
    if EmissionAllowed(entries, e) && RevisionKeyOf(n) in v.revisions {
      var i :| 0 <= i < |entries| && entries[i].body.facts.NormalizationEmitted? && RevisionKeyOf(entries[i].body.facts.emission) == RevisionKeyOf(n);
      assert RevisionRecorded(v, entries[i].body.facts.emission) && SameRevision(entries[i], e);
    }
  }

  lemma CountsDecided(v: Evidence, entries: seq<Entry>, e: Entry)
    requires CountsMean(v, entries)
    ensures (forall a :: a in AcquisitionsTouched(e.body.facts) ==> CountAt(v.acquisitionCounts, a) + 1 <= MAX_ENTRIES_PER_ACQUISITION)
            <==> forall a :: Touches(e, a) ==> TouchCount(entries + [e], a) <= MAX_ENTRIES_PER_ACQUISITION
  {
    hide TouchCount, ProjectionCount, Touches, AcquisitionsTouched;
    forall a: Id
      ensures a in AcquisitionsTouched(e.body.facts) <==> Touches(e, a)
      ensures TouchCount(entries + [e], a) == TouchCount(entries, a) + if Touches(e, a) then 1 else 0 {
      TouchedIs(e, a);
      CountsNext(entries, e, a, "");
    }
  }

  /** The validator's tables decide exactly the rules. */
  lemma RulesDecided(v: Evidence, byId: ById, entries: seq<Entry>, e: Entry)
    requires EvidenceMeans(v, entries) && Holds(byId, entries)
    ensures EvidenceOk(v, byId, e.body.facts) <==> EvidenceRules(entries, e)
  {
    hide BlocksMean, CountsMean, CommitsMean, RevisionsMean, Holds, CommitOk, CommitAllowed, RequestAllowed, LinksAllowed, RevisionOk,
      EmissionAllowed, Touches, TouchCount, AcquisitionsTouched, LinksOf;
    LinksDecided(v, entries, e);
    CountsDecided(v, entries, e);
    if e.body.facts.ArtifactCommitted? { CommitDecided(v, byId, entries, e); }
    if IsRequest(e.body.facts) { RequestDecided(v, entries, e); }
    if e.body.facts.NormalizationEmitted? { EmissionDecided(v, entries, e); }
  }

  // ----- The tables keep their meaning -----

  predicate Grown(entries: seq<Entry>, e: Entry, all: seq<Entry>) {
    && all == entries + [e] && |all| == |entries| + 1 && all[|entries|] == e
    && forall i :: 0 <= i < |entries| ==> all[i] == entries[i]
  }

  lemma BlocksNext(v: Evidence, entries: seq<Entry>, e: Entry)
    requires BlocksMean(v, entries)
    ensures BlocksMean(RecordEvidence(v, e.body.facts), entries + [e])
  {
    var all, w := entries + [e], RecordEvidence(v, e.body.facts);
    assert Grown(entries, e, all);
    hide AddCounts, AcquisitionsTouched;
    BlockedSets(v, e);
    hide RecordEvidence;
    forall a
      ensures a in w.blockedCommits <==> exists i :: 0 <= i < |all| && NothingToCommit(all[i], a)
      ensures a in w.blockedNormalizations <==> exists i :: 0 <= i < |all| && NothingToNormalize(all[i], a)
      ensures a in w.recordedCommits <==> exists i :: 0 <= i < |all| && Commits(all[i], a) && all[i].body.facts.mode != Live {
      hide NothingToCommit, NothingToNormalize, Commits;
      if a in v.blockedCommits { var i :| 0 <= i < |entries| && NothingToCommit(entries[i], a); assert NothingToCommit(all[i], a); }
      if a in v.blockedNormalizations { var i :| 0 <= i < |entries| && NothingToNormalize(entries[i], a); assert NothingToNormalize(all[i], a); }
      if NothingToCommit(e, a) { assert NothingToCommit(all[|entries|], a); }
      if NothingToNormalize(e, a) { assert NothingToNormalize(all[|entries|], a); }
      if a in v.recordedCommits { RecordedStays(v, entries, e, a); }
      if i :| 0 <= i < |all| && NothingToCommit(all[i], a) { if i < |entries| { assert NothingToCommit(entries[i], a); } }
      if i :| 0 <= i < |all| && NothingToNormalize(all[i], a) { if i < |entries| { assert NothingToNormalize(entries[i], a); } }
      RecordedGrows(v, entries, e, a);
    }
  }

  lemma RecordedStays(v: Evidence, entries: seq<Entry>, e: Entry, a: Id)
    requires BlocksMean(v, entries) && a in v.recordedCommits
    ensures var all := entries + [e]; exists i :: 0 <= i < |all| && Commits(all[i], a) && all[i].body.facts.mode != Live
  {
    var all := entries + [e];
    var i :| 0 <= i < |entries| && Commits(entries[i], a) && entries[i].body.facts.mode != Live;
    assert all[i] == entries[i];
  }

  lemma RecordedGrows(v: Evidence, entries: seq<Entry>, e: Entry, a: Id)
    requires BlocksMean(v, entries)
    ensures var all := entries + [e];
            (exists i :: 0 <= i < |all| && Commits(all[i], a) && all[i].body.facts.mode != Live)
            <==> a in v.recordedCommits || (Commits(e, a) && e.body.facts.mode != Live)
  {
    var all := entries + [e];
    if i :| 0 <= i < |all| && Commits(all[i], a) && all[i].body.facts.mode != Live {
      if i < |entries| { assert all[i] == entries[i]; }
    }
    if a in v.recordedCommits { RecordedStays(v, entries, e, a); }
    if Commits(e, a) && e.body.facts.mode != Live { assert all[|entries|] == e; }
  }

  lemma BlockedSets(v: Evidence, e: Entry)
    ensures var w := RecordEvidence(v, e.body.facts);
            && (forall a :: a in w.blockedCommits <==> a in v.blockedCommits || NothingToCommit(e, a))
            && (forall a :: a in w.blockedNormalizations <==> a in v.blockedNormalizations || NothingToNormalize(e, a))
            && (forall a :: a in w.recordedCommits <==> a in v.recordedCommits || (Commits(e, a) && e.body.facts.mode != Live))
  {
    hide AddCounts, AcquisitionsTouched;
  }

  lemma CountsKept(v: Evidence, entries: seq<Entry>, e: Entry)
    requires CountsMean(v, entries)
    ensures CountsMean(RecordEvidence(v, e.body.facts), entries + [e])
  {
    hide RecordEvidence, TouchCount, ProjectionCount, Touches, AcquisitionsTouched, CountAt;
    var w := RecordEvidence(v, e.body.facts);
    forall a: Id ensures CountAt(w.acquisitionCounts, a) == TouchCount(entries + [e], a) {
      CountsNext(entries, e, a, "");
      TouchedIs(e, a);
      CountAdded(v, e, a);
    }
    forall s: string ensures CountAt(w.projectionCounts, s) == ProjectionCount(entries + [e], s) {
      CountsNext(entries, e, 0, s);
      ProjectionAdded(v, e, s);
    }
  }

  lemma ProjectionAdded(v: Evidence, e: Entry, s: string)
    ensures CountAt(RecordEvidence(v, e.body.facts).projectionCounts, s)
              == CountAt(v.projectionCounts, s) + if Projects(e, s) then 1 else 0
  {
    hide AcquisitionsTouched, AddCounts, CommitIdentityOf, VaultEvidenceOf, RevisionKeyOf, RevisionValueOf, BlocksNormalization;
  }

  lemma CountAdded(v: Evidence, e: Entry, a: Id)
    ensures CountAt(RecordEvidence(v, e.body.facts).acquisitionCounts, a)
              == CountAt(v.acquisitionCounts, a) + if a in AcquisitionsTouched(e.body.facts) then 1 else 0
  {
    hide AcquisitionsTouched, AddCounts, CommitIdentityOf, VaultEvidenceOf, RevisionKeyOf, RevisionValueOf, BlocksNormalization;
    CountsAdded(v.acquisitionCounts, AcquisitionsTouched(e.body.facts), a);
  }

  lemma CountsAdded(counts: map<Id, nat>, touched: set<Id>, a: Id)
    ensures CountAt(AddCounts(counts, touched), a) == CountAt(counts, a) + if a in touched then 1 else 0
  {
  }

  lemma CommitsKept(v: Evidence, byId: ById, entries: seq<Entry>, e: Entry)
    requires CommitsMean(v, entries) && (e.body.facts.ArtifactCommitted? ==> CommitOk(v, byId, e.body.facts))
    ensures CommitsMean(RecordEvidence(v, e.body.facts), entries + [e])
  {
    var all, w := entries + [e], RecordEvidence(v, e.body.facts);
    CommitTablesNext(v, e);
    hide *;
    assert Grown(entries, e, all) by { GrowsByOne(entries, e); }
    if e.body.facts.ArtifactCommitted? { CommitAgreed(v, byId, e.body.facts); }
    CommitsMeans(v, entries);
    CommitKeysKept(v, w, entries, e, all);
    VaultKeysKept(v, w, entries, e, all);
    RecordsKept(v, w, entries, e, all);
    CommitsMeans(w, all);
  }

  lemma CommitsMeans(v: Evidence, entries: seq<Entry>)
    ensures CommitsMean(v, entries) <==> CommitKeys(v, entries) && VaultKeys(v, entries) && AllRecorded(v, entries)
  {
    hide CommitKeys, VaultKeys, AllRecorded;
  }

  lemma GrowsByOne(entries: seq<Entry>, e: Entry)
    ensures Grown(entries, e, entries + [e])
  {
  }

  lemma CommitKeysKept(v: Evidence, w: Evidence, entries: seq<Entry>, e: Entry, all: seq<Entry>)
    requires CommitKeys(v, entries) && Grown(entries, e, all)
    requires var f := e.body.facts; w.commits == if f.ArtifactCommitted? then v.commits[f.acquisition := CommitIdentityOf(f)] else v.commits
    ensures CommitKeys(w, all)
  {
    forall a | a in w.commits ensures exists i :: 0 <= i < |all| && Commits(all[i], a) {
      if a in v.commits { var i := CommitHolder(v, entries, a); assert Commits(all[i], a); }
      else { assert Commits(all[|entries|], a); }
    }
  }

  lemma VaultKeysKept(v: Evidence, w: Evidence, entries: seq<Entry>, e: Entry, all: seq<Entry>)
    requires VaultKeys(v, entries) && Grown(entries, e, all)
    requires var f := e.body.facts; w.vaultEvidence == if f.ArtifactCommitted? then v.vaultEvidence[f.vault := VaultEvidenceOf(f)] else v.vaultEvidence
    ensures VaultKeys(w, all)
  {
    forall x | x in w.vaultEvidence ensures exists i :: 0 <= i < |all| && CommitsVault(all[i], x) {
      if x in v.vaultEvidence { var i := VaultHolder(v, entries, x); assert CommitsVault(all[i], x); }
      else { assert CommitsVault(all[|entries|], x); }
    }
  }

  lemma RecordsKept(v: Evidence, w: Evidence, entries: seq<Entry>, e: Entry, all: seq<Entry>)
    requires AllRecorded(v, entries) && Grown(entries, e, all)
    requires var f := e.body.facts; w.commits == if f.ArtifactCommitted? then v.commits[f.acquisition := CommitIdentityOf(f)] else v.commits
    requires var f := e.body.facts; w.vaultEvidence == if f.ArtifactCommitted? then v.vaultEvidence[f.vault := VaultEvidenceOf(f)] else v.vaultEvidence
    requires var f := e.body.facts; f.ArtifactCommitted? ==>
               && (f.acquisition in v.commits ==> v.commits[f.acquisition] == CommitIdentityOf(f))
               && (f.vault in v.vaultEvidence ==> v.vaultEvidence[f.vault] == VaultEvidenceOf(f))
    ensures AllRecorded(w, all)
  {
    hide CommitIdentityOf, VaultEvidenceOf;
    forall i | 0 <= i < |all| && all[i].body.facts.ArtifactCommitted? ensures CommitRecorded(w, all[i].body.facts) {
      if i < |entries| { RecordedAt(v, entries, i); }
    }
  }

  lemma CommitAgreed(v: Evidence, byId: ById, f: Facts)
    requires f.ArtifactCommitted? && CommitOk(v, byId, f)
    ensures f.acquisition in v.commits ==> v.commits[f.acquisition] == CommitIdentityOf(f)
    ensures f.vault in v.vaultEvidence ==> v.vaultEvidence[f.vault] == VaultEvidenceOf(f)
  {
    hide IsRequest;
  }

  lemma CommitTablesNext(v: Evidence, e: Entry)
    ensures var w, f := RecordEvidence(v, e.body.facts), e.body.facts;
            && w.commits == (if f.ArtifactCommitted? then v.commits[f.acquisition := CommitIdentityOf(f)] else v.commits)
            && w.vaultEvidence == (if f.ArtifactCommitted? then v.vaultEvidence[f.vault := VaultEvidenceOf(f)] else v.vaultEvidence)
            && w.revisions == (if f.NormalizationEmitted? then v.revisions[RevisionKeyOf(f.emission) := RevisionValueOf(f.emission)]
                               else v.revisions)
  {
    hide AddCounts, AcquisitionsTouched;
  }

  lemma RevisionsKept(v: Evidence, entries: seq<Entry>, e: Entry)
    requires RevisionsMean(v, entries) && (e.body.facts.NormalizationEmitted? ==> RevisionOk(v, e.body.facts.emission))
    ensures RevisionsMean(RecordEvidence(v, e.body.facts), entries + [e])
  {
    var all, w := entries + [e], RecordEvidence(v, e.body.facts);
    assert Grown(entries, e, all);
    CommitTablesNext(v, e);
    hide RecordEvidence, RevisionKeyOf, RevisionValueOf, CountAt;
    forall r | r in w.revisions
      ensures exists i :: 0 <= i < |all| && all[i].body.facts.NormalizationEmitted? && RevisionKeyOf(all[i].body.facts.emission) == r {
      if r in v.revisions {
        var i :| 0 <= i < |entries| && entries[i].body.facts.NormalizationEmitted? && RevisionKeyOf(entries[i].body.facts.emission) == r;
        assert all[i] == entries[i];
      } else { assert all[|entries|] == e; }
    }
    forall i | 0 <= i < |all| && all[i].body.facts.NormalizationEmitted? ensures RevisionRecorded(w, all[i].body.facts.emission) {
      if i < |entries| { assert RevisionRecorded(v, entries[i].body.facts.emission); }
    }
  }

  lemma EvidenceNext(v: Evidence, byId: ById, entries: seq<Entry>, e: Entry)
    requires EvidenceMeans(v, entries) && EvidenceOk(v, byId, e.body.facts)
    ensures EvidenceMeans(RecordEvidence(v, e.body.facts), entries + [e])
  {
    hide BlocksMean, CountsMean, CommitsMean, RevisionsMean, CommitOk, RevisionOk, RecordEvidence, AcquisitionsTouched, LinksOf, IsRequest;
    BlocksNext(v, entries, e);
    CountsKept(v, entries, e);
    CommitsKept(v, byId, entries, e);
    RevisionsKept(v, entries, e);
  }
}
