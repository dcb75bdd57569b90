/**
  What every accepted prefix of a ledger keeps: the graph is closed under parents, each verified
  artifact and each capture hangs on exactly one stage fact, and one vault observation has one
  evidence triple. These facts make the validator's `find` calls independent of parent order.
 */
module LedgerInvariants {
  import opened Base
  import opened ObservationLedger

  predicate Selected(byId: ById, id: Id, declarations: bool) {
    id in byId && FactsAt(byId, id).ClockBasisDeclared? == declarations
  }

  /** Selecting parents keeps the multiplicity of what it selects. */
  lemma {:induction false} SelectCount(byId: ById, ids: seq<Id>, declarations: bool, x: Id)
    ensures multiset(SelectParents(byId, ids, declarations))[x] ==
              if Selected(byId, x, declarations) then multiset(ids)[x] else 0
  {
    if ids != [] {
      assert ids == [ids[0]] + ids[1..];
      SelectCount(byId, ids[1..], declarations, x);
    }
  }

  /** Entries added later do not change which parents resolve, once all of them do. */
  lemma {:induction false} SelectStable(byId: ById, e: Entry, ids: seq<Id>, declarations: bool)
    requires e.id !in byId && forall x :: x in ids ==> x in byId
    ensures SelectParents(byId[e.id := e], ids, declarations) == SelectParents(byId, ids, declarations)
  {
    if ids != [] {
      assert ids[0] in ids;
      SelectStable(byId, e, ids[1..], declarations);
    }
  }

  /** With a single causal parent, `find` returns it whatever the clock declarations around it. */
  lemma SoleFirst(byId: ById, ids: seq<Id>, kinds: set<Kind>)
    requires |CausalIds(byId, ids)| == 1 && KClockBasis !in kinds
    requires KindOf(FactsAt(byId, CausalIds(byId, ids)[0])) in kinds
    ensures FirstOfKind(byId, ids, kinds) == Some(CausalIds(byId, ids)[0])
  {
    var causal := CausalIds(byId, ids);
    var found := FirstOfKind(byId, ids, kinds);
    assert causal[0] in causal;
    if found.Some? {
      assert found.value in causal;
      assert found.value == causal[0];
    }
  }

  function SoleParent(byId: ById, id: Id): Option<Id>
    requires id in byId
  {
    var causal := CausalIds(byId, byId[id].body.parents);
    if |causal| == 1 then Some(causal[0]) else None
  }

  predicate Closed(byId: ById) {
    forall id :: id in byId ==> byId[id].id == id && forall p :: p in byId[id].body.parents ==> p in byId
  }

  /** A verified artifact has one causal parent, the commit it verified. */
  predicate VerifiedFromCommit(byId: ById, id: Id)
    requires id in byId
  {
    FactsAt(byId, id).ArtifactVerified? ==>
      && SoleParent(byId, id).Some?
      && SoleParent(byId, id).value in byId
      && var v := FactsAt(byId, id);
      var c := FactsAt(byId, SoleParent(byId, id).value);
      && c.ArtifactCommitted? && c.acquisition == v.acquisition && c.vault == v.vault
      && c.digest == v.digest && c.size == v.metadataSize && v.consumedSize == v.metadataSize
  }

  /** A capture has one causal parent, the emission it captured. */
  predicate CapturedFromEmission(byId: ById, id: Id)
    requires id in byId
  {
    IsCapture(FactsAt(byId, id)) ==>
      && SoleParent(byId, id).Some?
      && SoleParent(byId, id).value in byId
      && CapturesEmission(CaptureOf(FactsAt(byId, id)), FactsAt(byId, SoleParent(byId, id).value))
  }

  predicate EvidenceRecorded(byId: ById, vaultEvidence: map<Id, VaultEvidence>) {
    forall id :: id in byId && FactsAt(byId, id).ArtifactCommitted? ==>
      && FactsAt(byId, id).vault in vaultEvidence
      && vaultEvidence[FactsAt(byId, id).vault] == VaultEvidenceOf(FactsAt(byId, id))
  }

  predicate Sound(byId: ById, vaultEvidence: map<Id, VaultEvidence>) {
    && Closed(byId)
    && (forall id :: id in byId ==> VerifiedFromCommit(byId, id))
    && (forall id :: id in byId ==> CapturedFromEmission(byId, id))
    && EvidenceRecorded(byId, vaultEvidence)
  }

  lemma SingleKind(byId: ById, causal: seq<Id>, kind: Kind)
    requires forall x :: x in causal ==> x in byId
    requires multiset(KindsOf(byId, causal)) == multiset([kind])
    ensures |causal| == 1 && KindOf(FactsAt(byId, causal[0])) == kind
  {
    var kinds := KindsOf(byId, causal);
    MultisetMembers(kinds, [kind]);
    assert kinds[0] in kinds;
  }

  lemma OldParentsKept(byId: ById, e: Entry, id: Id)
    requires Closed(byId) && e.id !in byId && id in byId
    ensures CausalIds(byId[e.id := e], byId[id].body.parents) == CausalIds(byId, byId[id].body.parents)
    ensures SoleParent(byId[e.id := e], id) == SoleParent(byId, id)
  {
    SelectStable(byId, e, byId[id].body.parents, false);
  }

  lemma NewVerified(k: Kernel, byId: ById, e: Entry)
    requires e.id !in byId && e.body.facts.ArtifactVerified? && ValidFacts(k, e.body.facts)
    requires forall p :: p in e.body.parents ==> p in byId
    requires ParentTransition(byId, e)
    ensures VerifiedFromCommit(byId[e.id := e], e.id)
  {
    var causal := CausalIds(byId, e.body.parents);
    SelectStable(byId, e, e.body.parents, false);
    SingleKind(byId, causal, KCommitted);
    assert causal[0] in causal;
    assert HasAcquisitionField(FactsAt(byId, causal[0]));
  }

  lemma NewCapture(byId: ById, e: Entry)
    requires e.id !in byId && IsCapture(e.body.facts)
    requires forall p :: p in e.body.parents ==> p in byId
    requires ParentTransition(byId, e)
    ensures CapturedFromEmission(byId[e.id := e], e.id)
  {
    hide CausalIds, CapturesEmission, SelectParents;
    var causal := CausalIds(byId, e.body.parents);
    CausalStable(byId, e);
    CaptureParent(byId, e);
    assert causal[0] in causal;
  }

  lemma CausalStable(byId: ById, e: Entry)
    requires e.id !in byId && forall x :: x in e.body.parents ==> x in byId
    ensures CausalIds(byId[e.id := e], e.body.parents) == CausalIds(byId, e.body.parents)
  {
    SelectStable(byId, e, e.body.parents, false);
  }

  lemma CaptureParent(byId: ById, e: Entry)
    requires IsCapture(e.body.facts) && ParentTransition(byId, e)
    ensures var causal := CausalIds(byId, e.body.parents);
            |causal| == 1 && CapturesEmission(CaptureOf(e.body.facts), FactsAt(byId, causal[0]))
  {
    hide CausalIds, CapturesEmission, KindsOf;
    SingleKind(byId, CausalIds(byId, e.body.parents), KEmitted);
  }

  lemma EvidenceGrows(v: Evidence, byId: ById, e: Entry)
    requires e.id !in byId && EvidenceRecorded(byId, v.vaultEvidence) && EvidenceOk(v, byId, e.body.facts)
    ensures EvidenceRecorded(byId[e.id := e], RecordEvidence(v, e.body.facts).vaultEvidence)
  {
    hide RevisionOk, AcquisitionsTouched, AddCounts;
    var w := RecordEvidence(v, e.body.facts).vaultEvidence;
    assert w == if e.body.facts.ArtifactCommitted? then v.vaultEvidence[e.body.facts.vault := VaultEvidenceOf(e.body.facts)] else v.vaultEvidence;
  }

  lemma StagesKept(k: Kernel, byId: ById, e: Entry, id: Id)
    requires Closed(byId) && e.id !in byId && id in byId[e.id := e]
    requires id in byId ==> VerifiedFromCommit(byId, id) && CapturedFromEmission(byId, id)
    requires ValidFacts(k, e.body.facts) && ParentTransition(byId, e)
    requires forall p :: p in e.body.parents ==> p in byId
    ensures VerifiedFromCommit(byId[e.id := e], id) && CapturedFromEmission(byId[e.id := e], id)
  {
    hide ParentTransition, ValidFacts, SelectParents, SoleParent, CapturesEmission;
    if id != e.id {
      OldParentsKept(byId, e, id);
    } else if e.body.facts.ArtifactVerified? {
      NewVerified(k, byId, e);
    } else if IsCapture(e.body.facts) {
      NewCapture(byId, e);
    }
  }

  /** Every admitted entry keeps the invariant. */
  lemma SoundKept(k: Kernel, g: Graph, v: Evidence, e: Entry)
    requires Sound(g.byId, v.vaultEvidence)
    requires GraphOk(k, g, e) && EvidenceOk(v, g.byId, e.body.facts)
    ensures Sound(RecordGraph(g, e).byId, RecordEvidence(v, e.body.facts).vaultEvidence)
  {
    EvidenceGrows(v, g.byId, e);
    var grown := g.byId[e.id := e];
    forall id | id in grown
      ensures VerifiedFromCommit(grown, id) && CapturedFromEmission(grown, id)
    {
      StagesKept(k, g.byId, e, id);
    }
  }

  /** The invariant holds after every run of the validator. */
  lemma {:induction false} SoundRun(k: Kernel, s: Tables, entries: seq<Entry>)
    requires Sound(s.graph.byId, s.evidence.vaultEvidence)
    requires Run(k, s, entries).Some?
    ensures var t := Run(k, s, entries).value; Sound(t.graph.byId, t.evidence.vaultEvidence)
    decreases |entries|
  {
    if entries != [] {
      var next := Stepper(k)(s, entries[0]);
      assert next == Step(k, s, entries[0]);
      assert next.Some?;
      SoundKept(k, s.graph, s.evidence, entries[0]);
      assert Run(k, s, entries) == Run(k, next.value, entries[1..]);
      SoundRun(k, next.value, entries[1..]);
    }
  }

  // ----- What `find` computes on a sound ledger -----

  /** The commit behind a verified artifact, as the source looks it up. */
  lemma CommitBehind(byId: ById, id: Id)
    requires id in byId && VerifiedFromCommit(byId, id) && FactsAt(byId, id).ArtifactVerified?
    ensures FirstOfKind(byId, byId[id].body.parents, {KCommitted}) == SoleParent(byId, id)
  {
    SoleFirst(byId, byId[id].body.parents, {KCommitted});
  }

  lemma EmissionBehind(byId: ById, id: Id)
    requires id in byId && CapturedFromEmission(byId, id) && IsCapture(FactsAt(byId, id))
    ensures FirstOfKind(byId, byId[id].body.parents, {KEmitted}) == SoleParent(byId, id)
  {
    SoleFirst(byId, byId[id].body.parents, {KEmitted});
  }

  predicate SomeVerifies(byId: ById, causal: seq<Id>, link: RawLink)
    requires forall x :: x in causal ==> x in byId
  {
    exists x :: x in causal && VerifiesLink(FactsAt(byId, x), link)
  }

  predicate EvidenceIs(vaultEvidence: map<Id, VaultEvidence>, link: RawLink) {
    link.vault in vaultEvidence && vaultEvidence[link.vault] == VaultEvidence(link.vaultHash, link.digest, link.size)
  }

  lemma VerifiedEvidence(byId: ById, vaultEvidence: map<Id, VaultEvidence>, id: Id)
    requires id in byId && FactsAt(byId, id).ArtifactVerified?
    requires VerifiedFromCommit(byId, id) && EvidenceRecorded(byId, vaultEvidence)
    ensures var v := FactsAt(byId, id);
            var c := FactsAt(byId, SoleParent(byId, id).value);
            && v.vault in vaultEvidence && vaultEvidence[v.vault] == VaultEvidence(c.vaultHash, v.digest, v.metadataSize)
  {
  }

  /** A raw link is backed iff some verified parent names its artifact and the vault evidence on
      record is the link's own. The order in which `find` meets the parents does not matter. */
  lemma LinkBackedMeaning(byId: ById, vaultEvidence: map<Id, VaultEvidence>, causal: seq<Id>, link: RawLink)
    requires Sound(byId, vaultEvidence) && forall x :: x in causal ==> x in byId
    ensures LinkBacked(byId, causal, link) <==> SomeVerifies(byId, causal, link) && EvidenceIs(vaultEvidence, link)
  {
    var verified := FirstVerifying(byId, causal, link);
    if verified.Some? {
      assert VerifiedFromCommit(byId, verified.value);
      CommitBehind(byId, verified.value);
      VerifiedEvidence(byId, vaultEvidence, verified.value);
    }
  }

  lemma FirstUnique(byId: ById, ids: seq<Id>, kinds: set<Kind>, x: Id)
    requires x in ids && x in byId && KindOf(FactsAt(byId, x)) in kinds
    requires forall y :: y in ids && y in byId && KindOf(FactsAt(byId, y)) in kinds ==> y == x
    ensures FirstOfKind(byId, ids, kinds) == Some(x)
  {
  }

  /** Two parents of two different kinds: each kind has one bearer. */
  lemma PairOfKinds(byId: ById, causal: seq<Id>, a: Kind, b: Kind, x: Id, y: Id)
    requires forall x :: x in causal ==> x in byId
    requires a != b && multiset(KindsOf(byId, causal)) == multiset([a, b])
    requires x in causal && y in causal && KindOf(FactsAt(byId, x)) == KindOf(FactsAt(byId, y))
    ensures x == y
  {
    var kinds := KindsOf(byId, causal);
    PairDistinct(kinds, a, b);
  }
}
