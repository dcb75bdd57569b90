/**
  Exactly which ledgers without a fall of a wall clock the acquisition replay carries over, however many
  request and failure facts it drops on the way.
 */
module AcquisitionDropping {
  import opened Base
  import opened ObservationLedger
  import opened LedgerInvariants
  import opened ReplayTheorem
  import opened LedgerReplay
  import opened ReplayPreservation
  import opened AcquisitionReplay
  import opened ReplayAgreement
  import opened AcquisitionMeaning
  import opened DroppedParents
  import LedgerMeaning
  import LedgerEvidence
  import LedgerClocks

  predicate NoWitness(entries: seq<Entry>) {
    forall i :: 0 <= i < |entries| ==> !entries[i].body.facts.ClockRegression?
  }

  /** Two commits that only their modes and the requests they leave behind tell apart. */
  predicate TwinsLeft(byId: ById, a: Entry, b: Entry) {
    && a.body.facts.ArtifactCommitted? && b.body.facts.ArtifactCommitted?
    && a.body.facts.(mode := Replay) == b.body.facts.(mode := Replay)
    && a.body.clock == b.body.clock
    && (forall p :: p in a.body.parents && !LeftBehind(byId, a, p) ==> p in b.body.parents && !LeftBehind(byId, b, p))
    && (forall p :: p in b.body.parents && !LeftBehind(byId, b, p) ==> p in a.body.parents && !LeftBehind(byId, a, p))
  }

  predicate NoTwinsLeft(entries: seq<Entry>) {
    forall i, j :: 0 <= i < j < |entries| ==> !TwinsLeft(Index(entries), entries[i], entries[j])
  }

  // ----- The place of a kept entry -----

  function Place(entries: seq<Entry>, i: nat): (j: nat)
    requires i < |KeptOf(entries)|
    ensures j < |entries| && entries[j] == KeptOf(entries)[i] && Kept(entries[j])
  {
    var front := entries[..|entries| - 1];
    if i < |KeptOf(front)| then Place(front, i) else |entries| - 1
  }

  lemma {:induction false} PlacesRise(entries: seq<Entry>, i: nat, j: nat)
    requires i < j < |KeptOf(entries)|
    ensures Place(entries, i) < Place(entries, j)
  {
    var front := entries[..|entries| - 1];
    if j < |KeptOf(front)| { PlacesRise(front, i, j); }
  }

  lemma {:induction false} KeptAt(entries: seq<Entry>, j: nat) returns (i: nat)
    requires j < |entries| && Kept(entries[j])
    ensures i < |KeptOf(entries)| && KeptOf(entries)[i] == entries[j] && KeptOf(entries[..j]) == KeptOf(entries)[..i]
  {
    var front := entries[..|entries| - 1];
    if j < |front| {
      i := KeptAt(front, j);
      assert front[j] == entries[j] && front[..j] == entries[..j];
      assert KeptOf(entries)[..i] == KeptOf(front)[..i];
    } else {
      i := |KeptOf(front)|;
      assert KeptOf(entries)[..i] == KeptOf(front);
    }
  }

  /** What stands before a kept entry, and what of it is kept. */
  lemma {:induction false} KeptBefore(entries: seq<Entry>, i: nat) returns (j: nat)
    requires i < |KeptOf(entries)|
    ensures j < |entries| && entries[j] == KeptOf(entries)[i] && Kept(entries[j]) && KeptOf(entries[..j]) == KeptOf(entries)[..i]
  {
    var front := entries[..|entries| - 1];
    if i < |KeptOf(front)| {
      j := KeptBefore(front, i);
      assert front[..j] == entries[..j];
      assert KeptOf(entries)[..i] == KeptOf(front)[..i];
    } else {
      j := |entries| - 1;
      assert KeptOf(entries)[..i] == KeptOf(front);
    }
  }

  // ----- What evidence and clocks see of a new form -----

  predicate Like(e: Entry, f: Entry) {
    Kept(e) && f.body.clock == e.body.clock && FactsCarried(e.body.facts, f.body.facts)
  }

  predicate AllLike(es: seq<Entry>, fs: seq<Entry>) {
    |es| == |fs| && forall i :: 0 <= i < |es| ==> Like(es[i], fs[i])
  }

  lemma TouchesLike(e: Entry, f: Entry, a: Id, s: string)
    requires Like(e, f)
    ensures LedgerEvidence.Touches(f, a) <==> LedgerEvidence.Touches(e, a)
    ensures LedgerEvidence.Projects(f, s) <==> LedgerEvidence.Projects(e, s)
  {
  }

  lemma {:induction false} CountsFall(entries: seq<Entry>, fs: seq<Entry>, a: Id, s: string)
    requires AllLike(KeptOf(entries), fs)
    ensures LedgerEvidence.TouchCount(fs, a) <= LedgerEvidence.TouchCount(entries, a)
    ensures LedgerEvidence.ProjectionCount(fs, s) <= LedgerEvidence.ProjectionCount(entries, s)
    decreases |entries|
  {
    hide LedgerEvidence.Touches, LedgerEvidence.Projects, Like;
    if entries != [] {
      var front, last := entries[..|entries| - 1], entries[|entries| - 1];
      if Kept(last) {
        var head, f := fs[..|fs| - 1], fs[|fs| - 1];
        assert KeptOf(entries)[..|fs| - 1] == KeptOf(front);
        assert forall i :: 0 <= i < |head| ==> head[i] == fs[i] && KeptOf(front)[i] == KeptOf(entries)[i];
        TouchesLike(last, f, a, s);
        CountsFall(front, head, a, s);
      } else {
        CountsFall(front, fs, a, s);
      }
    }
  }

  lemma AllLikeNext(entries: seq<Entry>, e: Entry, fs: seq<Entry>, f: Entry)
    requires AllLike(KeptOf(entries), fs) && Like(e, f)
    ensures AllLike(KeptOf(entries + [e]), fs + [f])
  {
    KeptNext(entries, e);
    hide KeptOf;
  }

  lemma CommitCarried(d: Entry, e: Entry, c: Entry, f: Entry)
    requires Like(d, c) && Like(e, f) && e.body.facts.ArtifactCommitted? && LedgerEvidence.CommitAfter(d, e)
    ensures LedgerEvidence.CommitAfter(c, f)
  {
  }

  lemma RevisionCarried(d: Entry, e: Entry, c: Entry, f: Entry)
    requires Like(d, c) && Like(e, f) && e.body.facts.NormalizationEmitted?
    ensures c.body.facts.NormalizationEmitted? <==> d.body.facts.NormalizationEmitted?
    ensures c.body.facts.NormalizationEmitted? ==>
              && (LedgerEvidence.SameRevision(c, f) <==> LedgerEvidence.SameRevision(d, e))
              && (LedgerEvidence.SameProjection(c, f) <==> LedgerEvidence.SameProjection(d, e))
  {
  }

  lemma LikeParts(e: Entry, f: Entry, a: Id)
    requires Like(e, f)
    ensures f.body.facts.ArtifactCommitted? <==> e.body.facts.ArtifactCommitted?
    ensures f.body.facts.NormalizationEmitted? <==> e.body.facts.NormalizationEmitted?
    ensures f.body.facts.ClockBasisDeclared? <==> e.body.facts.ClockBasisDeclared?
    ensures f.body.facts.ClockBasisDeclared? ==> f.body.facts == e.body.facts
    ensures f.body.facts.NormalizationEmitted? ==> f.body.facts == e.body.facts
    ensures LinksOf(f.body.facts) == LinksOf(e.body.facts) && !IsRequest(f.body.facts) && !f.body.facts.ClockRegression?
    ensures !LedgerEvidence.NothingToNormalize(f, a)
    ensures f.body.clock == e.body.clock
  {
  }

  lemma CommitsCarried(entries: seq<Entry>, e: Entry, fs: seq<Entry>, f: Entry)
    requires AllLike(KeptOf(entries), fs) && Like(e, f) && e.body.facts.ArtifactCommitted? && LedgerEvidence.CommitAllowed(entries, e)
    requires f.body.facts.ArtifactCommitted?
    ensures LedgerEvidence.CommitAllowed(fs, f)
  {
    hide Like, LedgerEvidence.CommitAfter, KeptOf;
    forall i | 0 <= i < |fs| ensures LedgerEvidence.CommitAfter(fs[i], f) {
      var j := Place(entries, i);
      assert LedgerEvidence.CommitAfter(entries[j], e);
      CommitCarried(entries[j], e, fs[i], f);
    }
  }

  lemma EmissionCarried(entries: seq<Entry>, e: Entry, fs: seq<Entry>, f: Entry)
    requires AllLike(KeptOf(entries), fs) && Like(e, f) && e.body.facts.NormalizationEmitted? && LedgerEvidence.EmissionAllowed(entries, e)
    requires f.body.facts.NormalizationEmitted? && f.body.facts == e.body.facts
    ensures LedgerEvidence.EmissionAllowed(fs, f)
  {
    hide Like, LedgerEvidence.SameRevision, LedgerEvidence.SameProjection, KeptOf, LedgerEvidence.ProjectionCount;
    AllLikeNext(entries, e, fs, f);
    CountsFall(entries + [e], fs + [f], 0, f.body.facts.emission.subject);
    forall i | 0 <= i < |fs| && fs[i].body.facts.NormalizationEmitted? && LedgerEvidence.SameRevision(fs[i], f)
      ensures LedgerEvidence.SameProjection(fs[i], f) {
      var j := Place(entries, i);
      RevisionCarried(entries[j], e, fs[i], f);
    }
  }

  lemma EvidenceCarried(entries: seq<Entry>, e: Entry, fs: seq<Entry>, f: Entry)
    requires AllLike(KeptOf(entries), fs) && Like(e, f) && LedgerEvidence.EvidenceRules(entries, e)
    ensures LedgerEvidence.EvidenceRules(fs, f)
  {
    hide Like, LedgerEvidence.CommitAllowed, LedgerEvidence.EmissionAllowed, LedgerEvidence.RequestAllowed, KeptOf, LedgerEvidence.TouchCount,
      LedgerEvidence.Touches, LinksOf, LedgerEvidence.NothingToNormalize, IsRequest;
    LikeParts(e, f, 0);
    if e.body.facts.ArtifactCommitted? { CommitsCarried(entries, e, fs, f); }
    if e.body.facts.NormalizationEmitted? { EmissionCarried(entries, e, fs, f); }
    AllLikeNext(entries, e, fs, f);
    forall a: Id | LedgerEvidence.Touches(f, a) ensures LedgerEvidence.TouchCount(fs + [f], a) <= MAX_ENTRIES_PER_ACQUISITION {
      TouchesLike(e, f, a, "");
      CountsFall(entries + [e], fs + [f], a, "");
    }
    forall i: nat, l | i < |fs| && l in LinksOf(f.body.facts) ensures !LedgerEvidence.NothingToNormalize(fs[i], l.acquisition) {
      LikeParts(KeptOf(entries)[i], fs[i], l.acquisition);
    }
  }

  // ----- New names of kept parents -----

  /** New forms under a table of new names, kept entries hanging on kept ones. */
  ghost predicate Hung(byId: ById, m: Renaming, execution: string, entries: seq<Entry>, fs: seq<Entry>) {
    && AllImaged(byId, m, execution, KeptOf(entries), fs)
    && (forall i :: 0 <= i < |entries| && Kept(entries[i]) ==> KeptHangsIn(byId, entries, i))
    && AllKept(KeptOf(entries))
  }

  predicate NamesApart(fs: seq<Entry>) {
    forall i, j :: 0 <= i < j < |fs| ==> fs[i].id != fs[j].id
  }

  /** And no two of one name. */
  ghost predicate Renewed(byId: ById, m: Renaming, execution: string, entries: seq<Entry>, fs: seq<Entry>) {
    Hung(byId, m, execution, entries, fs) && NamesApart(fs)
  }

  predicate AllKept(es: seq<Entry>) {
    forall i :: 0 <= i < |es| ==> Kept(es[i])
  }

  predicate KeptHangsIn(byId: ById, entries: seq<Entry>, i: nat)
    requires i < |entries|
  {
    forall p :: p in entries[i].body.parents && !LeftBehind(byId, entries[i], p) ==>
      exists j :: 0 <= j < i && entries[j].id == p && Kept(entries[j])
  }

  lemma HungAt(byId: ById, m: Renaming, execution: string, entries: seq<Entry>, fs: seq<Entry>, i: nat)
    requires Hung(byId, m, execution, entries, fs) && i < |fs|
    ensures |KeptOf(entries)| == |fs| && Imaged(byId, m, execution, KeptOf(entries)[i], fs[i]) && Kept(KeptOf(entries)[i])
  {
    hide Imaged, KeptOf;
  }

  lemma RenewedAt(byId: ById, m: Renaming, execution: string, entries: seq<Entry>, fs: seq<Entry>, i: nat)
    requires Renewed(byId, m, execution, entries, fs) && i < |fs|
    ensures |KeptOf(entries)| == |fs| && Imaged(byId, m, execution, KeptOf(entries)[i], fs[i]) && Kept(KeptOf(entries)[i])
  {
    HungAt(byId, m, execution, entries, fs, i);
    hide Imaged, KeptOf, Hung;
  }

  lemma RenewedApart(byId: ById, m: Renaming, execution: string, entries: seq<Entry>, fs: seq<Entry>, i: nat, j: nat)
    requires Renewed(byId, m, execution, entries, fs) && i < |fs| && j < |fs| && fs[i].id == fs[j].id
    ensures i == j
  {
    hide Hung;
  }

  /** A new parent is the new form of a kept parent, and conversely. */
  lemma ParentCarried(byId: ById, m: Renaming, execution: string, entries: seq<Entry>, fs: seq<Entry>, i: nat, j: nat)
    requires Renewed(byId, m, execution, entries, fs) && i < |fs| && j < |fs|
    ensures |KeptOf(entries)| == |fs|
    ensures fs[i].id in fs[j].body.parents <==>
              KeptOf(entries)[i].id in KeptOf(entries)[j].body.parents && !LeftBehind(byId, KeptOf(entries)[j], KeptOf(entries)[i].id)
  {
    RenewedAt(byId, m, execution, entries, fs, i);
    RenewedAt(byId, m, execution, entries, fs, j);
    var e, f := KeptOf(entries)[j], fs[j];
    if fs[i].id in f.body.parents {
      var p :| p in e.body.parents && !LeftBehind(byId, e, p) && p in m && m[p] == fs[i].id;
      var h := KeptParent(byId, m, execution, entries, fs, j, p);
      RenewedApart(byId, m, execution, entries, fs, i, h);
    }
    hide Renewed, LeftBehind, FactsCarried, KeptOf;
  }

  /** A parent that is not left behind is a kept entry before. */
  lemma KeptParent(byId: ById, m: Renaming, execution: string, entries: seq<Entry>, fs: seq<Entry>, j: nat, p: Id) returns (h: nat)
    requires Hung(byId, m, execution, entries, fs) && j < |fs| && |KeptOf(entries)| == |fs|
    requires p in KeptOf(entries)[j].body.parents && !LeftBehind(byId, KeptOf(entries)[j], p)
    ensures h < j && KeptOf(entries)[h].id == p && p in m && m[p] == fs[h].id
  {
    var place := Place(entries, j);
    assert KeptHangsIn(byId, entries, place);
    var i :| 0 <= i < place && entries[i].id == p && Kept(entries[i]);
    h := KeptAt(entries, i);
    var g := PlaceBefore(entries, i, h, j);
    HungAt(byId, m, execution, entries, fs, h);
    hide Hung, LeftBehind, FactsCarried, KeptOf;
  }

  lemma PlaceBefore(entries: seq<Entry>, i: nat, h: nat, j: nat) returns (before: bool)
    requires j < |KeptOf(entries)| && i < Place(entries, j) && h < |KeptOf(entries)|
    requires Kept(entries[i]) && KeptOf(entries)[h] == entries[i] && KeptOf(entries[..i]) == KeptOf(entries)[..h]
    ensures h < j
  {
    PlaceIs(entries, i, h);
    if h > j { PlacesRise(entries, j, h); }
    before := true;
  }

  lemma {:induction false} PlaceIs(entries: seq<Entry>, i: nat, h: nat)
    requires i < |entries| && Kept(entries[i]) && h < |KeptOf(entries)| && |KeptOf(entries[..i])| == h
    ensures Place(entries, h) == i
    decreases |entries|
  {
    var front := entries[..|entries| - 1];
    if i < |front| {
      assert front[..i] == entries[..i];
      KeptGrows(front, i);
      PlaceIs(front, i, h);
    } else {
      assert entries[..i] == front;
    }
  }

  lemma {:induction false} KeptGrows(entries: seq<Entry>, i: nat)
    requires i < |entries| && Kept(entries[i])
    ensures |KeptOf(entries[..i])| < |KeptOf(entries)|
  {
    var front := entries[..|entries| - 1];
    if i < |front| {
      assert front[..i] == entries[..i] && front[i] == entries[i];
      KeptGrows(front, i);
    } else {
      assert entries[..i] == front;
    }
  }

  // ----- Clocks -----

  lemma {:induction false} InForceKept(entries: seq<Entry>, b: Id)
    ensures LedgerClocks.InForce(KeptOf(entries), b) == LedgerClocks.InForce(entries, b)
  {
    if entries != [] {
      var front, last := entries[..|entries| - 1], entries[|entries| - 1];
      InForceKept(front, b);
      KeptNext(front, last);
      assert entries == front + [last] && KeptOf(front) + [] == KeptOf(front);
      LedgerClocks.InForceNext(front, last, b);
      LedgerClocks.InForceNext(KeptOf(front), last, b);
    }
  }

  /** The declaration in force among the new forms is the new form of the one in force. */
  lemma {:induction false} InForceLike(es: seq<Entry>, fs: seq<Entry>, b: Id) returns (i: nat)
    requires AllLike(es, fs)
    ensures LedgerClocks.InForce(es, b).None? <==> LedgerClocks.InForce(fs, b).None?
    ensures LedgerClocks.InForce(es, b).Some? ==>
              i < |es| && LedgerClocks.InForce(es, b) == Some(es[i]) && LedgerClocks.InForce(fs, b) == Some(fs[i])
    decreases |es|
  {
    i := 0;
    if es != [] {
      var n := |es| - 1;
      LikeParts(es[n], fs[n], 0);
      if LedgerClocks.Declares(es[n], b) { i := n; }
      else { i := InForceLike(es[..n], fs[..n], b); }
    }
  }

  lemma DeclaredBasesFall(entries: seq<Entry>, fs: seq<Entry>)
    requires AllLike(KeptOf(entries), fs)
    ensures |LedgerClocks.DeclaredBases(fs)| <= |LedgerClocks.DeclaredBases(entries)|
  {
    forall b | b in LedgerClocks.DeclaredBases(fs) ensures b in LedgerClocks.DeclaredBases(entries) {
      var i :| 0 <= i < |fs| && fs[i].body.facts.ClockBasisDeclared? && fs[i].body.facts.clockBasis.id == b;
      LikeParts(KeptOf(entries)[i], fs[i], 0);
      assert entries[Place(entries, i)].body.facts.clockBasis.id == b;
    }
    SubsetSize(LedgerClocks.DeclaredBases(fs), LedgerClocks.DeclaredBases(entries));
  }

  lemma NotLeft(byId: ById, entries: seq<Entry>, e: Entry, i: nat)
    requires LedgerClocks.Filed(byId, entries) && i < |entries| && entries[i].body.facts.ClockBasisDeclared?
    ensures !LeftBehind(byId, e, entries[i].id)
  {
    OwnFiled(byId, entries, i);
    hide LedgerClocks.Filed;
  }

  /** The declarations among the parents are the new forms of those there were. */
  lemma DeclaredParentCarried(
      byId: ById, m: Renaming, execution: string, entries: seq<Entry>, fs: seq<Entry>, i: nat, j: nat, place: nat, allowed: seq<Entry>)
    requires Renewed(byId, m, execution, entries, fs) && LedgerClocks.Filed(byId, entries) && i < j < |fs| && |KeptOf(entries)| == |fs|
    requires place < |entries| && entries[place] == KeptOf(entries)[j] && KeptOf(entries[..place]) == KeptOf(entries)[..j]
    requires LedgerClocks.DeclaredParents(entries[..place], entries[place], allowed) && KeptOf(entries)[i].body.facts.ClockBasisDeclared?
    ensures fs[i].id in fs[j].body.parents <==> KeptOf(entries)[i] in allowed
  {
    hide Renewed, LedgerClocks.Filed, KeptOf, LeftBehind;
    ParentCarried(byId, m, execution, entries, fs, i, j);
    var head := entries[..place];
    assert KeptOf(head)[i] == KeptOf(entries)[i];
    var h := Place(head, i);
    assert head[h] == entries[h];
    NotLeft(byId, entries, entries[place], h);
  }

  lemma AllLikeFrom(byId: ById, m: Renaming, execution: string, entries: seq<Entry>, fs: seq<Entry>)
    requires Renewed(byId, m, execution, entries, fs)
    ensures AllLike(KeptOf(entries), fs)
  {
    hide KeptOf, LeftBehind;
  }

  lemma MonotonicCarried(head: seq<Entry>, e: Entry, before: seq<Entry>, f: Entry)
    requires AllLike(KeptOf(head), before) && f.body.clock == e.body.clock && e.body.clock.Stamp? && LedgerClocks.MonotonicAllowed(head, e)
    ensures LedgerClocks.MonotonicAllowed(before, f)
  {
    hide KeptOf;
    if f.body.clock.monotonicUs.Some? {
      forall i | 0 <= i < |before| && LedgerClocks.StampedOn(before[i], f.body.clock.basis) && before[i].body.clock.monotonicUs.Some?
        ensures before[i].body.clock.monotonicUs.value <= f.body.clock.monotonicUs.value {
        var j := Place(head, i);
        LikeParts(head[j], before[i], 0);
        assert LedgerClocks.StampedOn(head[j], e.body.clock.basis);
      }
    }
  }

  lemma ClockCarried(byId: ById, m: Renaming, execution: string, entries: seq<Entry>, fs: seq<Entry>, j: nat, place: nat)
    requires Renewed(byId, m, execution, entries, fs) && LedgerClocks.Filed(byId, entries) && j < |fs| && |KeptOf(entries)| == |fs|
    requires place < |entries| && entries[place] == KeptOf(entries)[j] && KeptOf(entries[..place]) == KeptOf(entries)[..j]
    requires LedgerClocks.ClockRules(entries[..place], entries[place])
    ensures LedgerClocks.ClockRules(fs[..j], fs[j])
  {
    hide Renewed, LedgerClocks.Filed, KeptOf, LeftBehind, LedgerClocks.DeclaredBases, LedgerClocks.InForce, LedgerClocks.MonotonicAllowed, Like,
      LedgerClocks.DeclaredParents, AllLike;
    var head, e, before, f := entries[..place], entries[place], fs[..j], fs[j];
    AllLikeFrom(byId, m, execution, entries, fs);
    AllLikeFront(KeptOf(entries), fs, j);
    AllLikeAt(KeptOf(entries), fs, j);
    LikeParts(e, f, 0);
    if e.body.facts.ClockBasisDeclared? {
      AllLikeNext(head, e, before, f);
      DeclaredBasesFall(head + [e], before + [f]);
      RenewedAt(byId, m, execution, entries, fs, j);
      NoParents(byId, m, execution, e, f);
    } else if e.body.clock.Unstamped? {
      DeclaredCarried(byId, m, execution, entries, fs, j, place, [], []);
    } else {
      var b := e.body.clock.basis;
      InForceKept(head, b);
      var i := InForceLike(KeptOf(head), before, b);
      DeclaredOne(byId, m, execution, entries, fs, j, place, i);
      AllLikeAt(KeptOf(entries), fs, i);
      LikeParts(KeptOf(entries)[i], fs[i], 0);
      MonotonicCarried(head, e, before, f);
    }
  }

  lemma AllLikeFront(es: seq<Entry>, fs: seq<Entry>, j: nat)
    requires AllLike(es, fs) && j <= |fs|
    ensures AllLike(es[..j], fs[..j])
  {
    hide Like;
  }

  lemma AllLikeAt(es: seq<Entry>, fs: seq<Entry>, j: nat)
    requires AllLike(es, fs) && j < |fs|
    ensures Like(es[j], fs[j])
  {
    hide Like;
  }

  lemma NoParents(byId: ById, m: Renaming, execution: string, e: Entry, f: Entry)
    requires Imaged(byId, m, execution, e, f) && e.body.parents == []
    ensures f.body.parents == []
  {
    hide LeftBehind, FactsCarried;
  }

  lemma DeclaredCarried(
      byId: ById, m: Renaming, execution: string, entries: seq<Entry>, fs: seq<Entry>, j: nat, place: nat, allowed: seq<Entry>, images: seq<Entry>)
    requires Renewed(byId, m, execution, entries, fs) && LedgerClocks.Filed(byId, entries) && j < |fs| && |KeptOf(entries)| == |fs|
    requires place < |entries| && entries[place] == KeptOf(entries)[j] && KeptOf(entries[..place]) == KeptOf(entries)[..j]
    requires LedgerClocks.DeclaredParents(entries[..place], entries[place], allowed) && AllLike(KeptOf(entries), fs)
    requires forall i :: 0 <= i < j ==> (fs[i] in images <==> KeptOf(entries)[i] in allowed)
    ensures LedgerClocks.DeclaredParents(fs[..j], fs[j], images)
  {
    hide Renewed, LedgerClocks.Filed, KeptOf, Like;
    forall i | 0 <= i < j && fs[i].body.facts.ClockBasisDeclared? ensures fs[i].id in fs[j].body.parents <==> fs[i] in images {
      LikeParts(KeptOf(entries)[i], fs[i], 0);
      DeclaredParentCarried(byId, m, execution, entries, fs, i, j, place, allowed);
    }
  }

  lemma DeclaredOne(byId: ById, m: Renaming, execution: string, entries: seq<Entry>, fs: seq<Entry>, j: nat, place: nat, i: nat)
    requires Renewed(byId, m, execution, entries, fs) && LedgerClocks.Filed(byId, entries) && i < j < |fs| && |KeptOf(entries)| == |fs|
    requires place < |entries| && entries[place] == KeptOf(entries)[j] && KeptOf(entries[..place]) == KeptOf(entries)[..j]
    requires LedgerClocks.DeclaredParents(entries[..place], entries[place], [KeptOf(entries)[i]]) && AllLike(KeptOf(entries), fs)
    ensures LedgerClocks.DeclaredParents(fs[..j], fs[j], [fs[i]])
  {
    hide Renewed, LedgerClocks.Filed, KeptOf, AllLike, LedgerClocks.DeclaredParents;
    forall h | 0 <= h < j ensures fs[h] in [fs[i]] <==> KeptOf(entries)[h] in [KeptOf(entries)[i]] {
      if fs[h] == fs[i] { RenewedApart(byId, m, execution, entries, fs, h, i); }
      if KeptOf(entries)[h] == KeptOf(entries)[i] { SameImage(byId, m, execution, entries, fs, h, i); }
    }
    DeclaredCarried(byId, m, execution, entries, fs, j, place, [KeptOf(entries)[i]], [fs[i]]);
  }

  lemma SameImage(byId: ById, m: Renaming, execution: string, entries: seq<Entry>, fs: seq<Entry>, h: nat, i: nat)
    requires Renewed(byId, m, execution, entries, fs) && h < |fs| && i < |fs| && |KeptOf(entries)| == |fs|
    requires KeptOf(entries)[h] == KeptOf(entries)[i]
    ensures h == i
  {
    RenewedAt(byId, m, execution, entries, fs, h);
    RenewedAt(byId, m, execution, entries, fs, i);
    RenewedApart(byId, m, execution, entries, fs, h, i);
  }

  // ----- Wall clocks that never fall -----

  predicate WallsRise(entries: seq<Entry>) {
    forall i, j :: 0 <= i < j < |entries| ==> WallAfter(entries[i], entries[j])
  }

  predicate WallAfter(d: Entry, e: Entry) {
    e.body.clock.Stamp? && LedgerClocks.StampedOn(d, e.body.clock.basis) && LedgerClocks.StampedOn(e, e.body.clock.basis) ==>
      d.body.clock.wallMs <= e.body.clock.wallMs
  }

  lemma {:induction false} LastIsTop(entries: seq<Entry>, n: nat, b: Id, i: nat)
    requires n <= |entries| && i < n && LedgerClocks.StampedOn(entries[i], b) && NoWitness(entries)
    requires forall h :: 0 <= h < |entries| ==> LedgerClocks.FellBehind(entries, h).None?
    ensures LedgerClocks.LastStamp(entries[..n], b).Some?
    ensures entries[i].body.clock.wallMs <= LedgerClocks.LastStamp(entries[..n], b).value.body.clock.wallMs
  {
    assert entries[..n][..n - 1] == entries[..n - 1] && entries[..n][n - 1] == entries[n - 1];
    if i < n - 1 {
      LastIsTop(entries, n - 1, b, i);
      assert LedgerClocks.FellBehind(entries, n - 1).None?;
    }
  }

  lemma NotAttested(entries: seq<Entry>, p: Id, r: Id)
    requires NoWitness(entries)
    ensures !LedgerClocks.Attested(entries, p, r)
  {
  }

  lemma WallsRiseFrom(entries: seq<Entry>)
    requires NoWitness(entries) && LedgerClocks.AllAttested(entries)
    ensures WallsRise(entries)
  {
    forall h | 0 <= h < |entries| ensures LedgerClocks.FellBehind(entries, h).None? {
      if LedgerClocks.FellBehind(entries, h).Some? { NotAttested(entries, LedgerClocks.FellBehind(entries, h).value.id, entries[h].id); }
    }
    forall i, j | 0 <= i < j < |entries| ensures WallAfter(entries[i], entries[j]) {
      if entries[j].body.clock.Stamp? && LedgerClocks.StampedOn(entries[i], entries[j].body.clock.basis) {
        LastIsTop(entries, j, entries[j].body.clock.basis, i);
        assert LedgerClocks.FellBehind(entries, j).None?;
      }
    }
  }

  lemma WallsCarried(entries: seq<Entry>, fs: seq<Entry>)
    requires WallsRise(entries) && AllLike(KeptOf(entries), fs)
    ensures WallsRise(fs) && LedgerClocks.AllAttested(fs)
  {
    forall i, j | 0 <= i < j < |fs| ensures WallAfter(fs[i], fs[j]) {
      PlacesRise(entries, i, j);
      assert WallAfter(entries[Place(entries, i)], entries[Place(entries, j)]);
      LikeParts(entries[Place(entries, i)], fs[i], 0);
      LikeParts(entries[Place(entries, j)], fs[j], 0);
    }
    hide KeptOf, Like;
    forall i | 0 <= i < |fs| ensures LedgerClocks.FellBehind(fs, i).None? { NeverFalls(fs, i); }
  }

  lemma NeverFalls(fs: seq<Entry>, i: nat)
    requires WallsRise(fs) && i < |fs|
    ensures LedgerClocks.FellBehind(fs, i).None?
  {
    if fs[i].body.clock.Stamp? && !fs[i].body.facts.ClockBasisDeclared? {
      var before := LedgerClocks.LastStamp(fs[..i], fs[i].body.clock.basis);
      if before.Some? {
        var h :| 0 <= h < i && fs[..i][h] == before.value;
        assert WallAfter(fs[h], fs[i]);
      }
    }
  }

  // ----- The graph -----

  lemma PlaceIn(entries: seq<Entry>, i: nat, j: nat, place: nat)
    requires i <= j < |KeptOf(entries)| && place < |entries| && KeptOf(entries[..place]) == KeptOf(entries)[..j] && Kept(entries[place])
    requires entries[place] == KeptOf(entries)[j]
    ensures Place(entries, j) == place && Place(entries, i) <= place
  {
    PlaceIs(entries, place, j);
    if i < j { PlacesRise(entries, i, j); }
  }

  /** A path among the new forms is one among the kept entries they come from. */
  lemma PathLifts(byId: ById, m: Renaming, execution: string, entries: seq<Entry>, fs: seq<Entry>, j: nat, place: nat, p: seq<nat>)
    returns (q: seq<nat>)
    requires Renewed(byId, m, execution, entries, fs) && j < |fs| && |KeptOf(entries)| == |fs| && place == Place(entries, j)
    requires LedgerMeaning.PathTo(fs[..j] + [fs[j]], p, j)
    ensures LedgerMeaning.PathTo(entries[..place] + [entries[place]], q, place) && |q| == |p|
  {
    hide Renewed, KeptOf, LeftBehind;
    var some, all := fs[..j] + [fs[j]], entries[..place] + [entries[place]];
    LedgerMeaning.PathRises(some, p);
    assert forall h :: 0 <= h <= j ==> some[h] == fs[h];
    assert forall h :: 0 <= h <= place ==> all[h] == entries[h];
    q := seq(|p|, x requires 0 <= x < |p| => Place(entries, p[x]));
    forall x | 0 <= x < |q| ensures q[x] <= place {
      if p[x] < j { PlacesRise(entries, p[x], j); }
    }
    forall x | 0 < x < |q| ensures q[x - 1] < q[x] && all[q[x - 1]].id in all[q[x]].body.parents {
      PlacesRise(entries, p[x - 1], p[x]);
      ParentCarried(byId, m, execution, entries, fs, p[x - 1], p[x]);
    }
  }

  lemma {:induction false} EdgesFall(byId: ById, m: Renaming, execution: string, entries: seq<Entry>, fs: seq<Entry>)
    requires AllImaged(byId, m, execution, KeptOf(entries), fs)
    ensures LedgerMeaning.EdgeCount(fs) <= LedgerMeaning.EdgeCount(entries)
    decreases |entries|
  {
    hide Imaged;
    if entries != [] {
      var front, last := entries[..|entries| - 1], entries[|entries| - 1];
      if Kept(last) {
        var head, f := fs[..|fs| - 1], fs[|fs| - 1];
        assert KeptOf(entries)[..|fs| - 1] == KeptOf(front);
        assert forall i :: 0 <= i < |head| ==> head[i] == fs[i] && KeptOf(front)[i] == KeptOf(entries)[i];
        NoMoreParents(byId, m, execution, last, f);
        EdgesFall(byId, m, execution, front, head);
      } else {
        EdgesFall(byId, m, execution, front, fs);
      }
    }
  }

  lemma NoMoreParents(byId: ById, m: Renaming, execution: string, e: Entry, f: Entry)
    requires Imaged(byId, m, execution, e, f)
    ensures |f.body.parents| <= |e.body.parents| && f.body.execution == execution
  {
    hide LeftBehind, FactsCarried;
  }

  lemma AllImagedFront(byId: ById, m: Renaming, execution: string, es: seq<Entry>, fs: seq<Entry>, j: nat)
    requires AllImaged(byId, m, execution, es, fs) && j <= |fs|
    ensures AllImaged(byId, m, execution, es[..j], fs[..j])
  {
    hide Imaged;
  }

  lemma RenewedHung(byId: ById, m: Renaming, execution: string, entries: seq<Entry>, fs: seq<Entry>)
    requires Renewed(byId, m, execution, entries, fs)
    ensures Hung(byId, m, execution, entries, fs) && NamesApart(fs)
  {
    hide Hung, NamesApart;
  }

  lemma RenewedImages(byId: ById, m: Renaming, execution: string, entries: seq<Entry>, fs: seq<Entry>)
    requires Renewed(byId, m, execution, entries, fs)
    ensures AllImaged(byId, m, execution, KeptOf(entries), fs)
  {
    hide AllImaged, KeptOf, LeftBehind;
  }

  /** All the graph's rules but the last, for a new form. */
  lemma GraphCarried(k: Kernel, byId: ById, m: Renaming, execution: string, entries: seq<Entry>, fs: seq<Entry>, j: nat, place: nat)
    requires Renewed(byId, m, execution, entries, fs) && j < |fs| && |KeptOf(entries)| == |fs|
    requires place < |entries| && entries[place] == KeptOf(entries)[j] && Kept(entries[place]) && KeptOf(entries[..place]) == KeptOf(entries)[..j]
    requires LedgerMeaning.GraphRules(k, entries[..place], entries[place])
    ensures fs[..j] != [] ==> fs[..j][0].body.execution == fs[j].body.execution
    ensures forall i :: 0 <= i < j ==> fs[..j][i].id != fs[j].id
    ensures LedgerMeaning.ParentsBefore(fs[..j], fs[j])
    ensures LedgerMeaning.EdgeCount(fs[..j] + [fs[j]]) <= MAX_EDGES
    ensures LedgerMeaning.PathsShort(fs[..j] + [fs[j]], j)
  {
    hide Renewed, KeptOf, LeftBehind, ParentTransition, Create, LedgerMeaning.EdgeCount, LedgerMeaning.PathTo, Imaged, AllImaged;
    var head, e, before, f := entries[..place], entries[place], fs[..j], fs[j];
    PlaceIn(entries, j, j, place);
    RenewedImages(byId, m, execution, entries, fs);
    RenewedHung(byId, m, execution, entries, fs);
    RenewedAt(byId, m, execution, entries, fs, j);
    NoMoreParents(byId, m, execution, e, f);
    if j > 0 {
      RenewedAt(byId, m, execution, entries, fs, 0);
      NoMoreParents(byId, m, execution, KeptOf(entries)[0], fs[0]);
    }
    forall i | 0 <= i < j ensures before[i].id != f.id {
      assert before[i] == fs[i];
    }
    forall y | y in f.body.parents ensures exists i :: 0 <= i < |before| && before[i].id == y {
      var p := NewFrom(byId, m, execution, e, f, y);
      var h := KeptParent(byId, m, execution, entries, fs, j, p);
      assert before[h].id == y;
    }
    AllImagedFront(byId, m, execution, KeptOf(entries), fs, j + 1);
    assert KeptOf(entries)[..j + 1] == KeptOf(entries)[..j] + [KeptOf(entries)[j]] && fs[..j + 1] == before + [f];
    KeptNext(head, e);
    EdgesFall(byId, m, execution, head + [e], before + [f]);
    forall p | LedgerMeaning.PathTo(before + [f], p, j) ensures |p| <= MAX_CAUSAL_DEPTH {
      var q := PathLifts(byId, m, execution, entries, fs, j, place, p);
    }
  }

  lemma NewFrom(byId: ById, m: Renaming, execution: string, e: Entry, f: Entry, y: Id) returns (p: Id)
    requires Imaged(byId, m, execution, e, f) && y in f.body.parents
    ensures p in e.body.parents && !LeftBehind(byId, e, p) && p in m && m[p] == y
  {
    p :| p in e.body.parents && !LeftBehind(byId, e, p) && p in m && m[p] == y;
  }

  // ----- No two of one name -----

  lemma ImagedFacts(byId: ById, m: Renaming, execution: string, e: Entry, f: Entry)
    requires Imaged(byId, m, execution, e, f)
    ensures f.body.clock == e.body.clock && FactsCarried(e.body.facts, f.body.facts) && f.body.execution == execution
    ensures StrictlyAscending(f.body.parents)
  {
    hide LeftBehind, FactsCarried;
  }

  lemma NewParentOf(byId: ById, m: Renaming, execution: string, e: Entry, f: Entry, p: Id)
    requires Imaged(byId, m, execution, e, f) && p in e.body.parents && !LeftBehind(byId, e, p)
    ensures p in m && m[p] in f.body.parents
  {
    hide LeftBehind, FactsCarried;
  }

  /** Two kept entries with equal new forms have the same parents, but for what they leave behind. */
  lemma SameKeptParents(byId: ById, m: Renaming, execution: string, entries: seq<Entry>, fs: seq<Entry>, i: nat, j: nat, p: Id)
    requires Hung(byId, m, execution, entries, fs) && i < |fs| && j < |fs| && |KeptOf(entries)| == |fs|
    requires NamesApart(fs[..Max(i, j)]) && fs[i].body.parents == fs[j].body.parents
    requires p in KeptOf(entries)[i].body.parents && !LeftBehind(byId, KeptOf(entries)[i], p)
    ensures p in KeptOf(entries)[j].body.parents && !LeftBehind(byId, KeptOf(entries)[j], p)
  {
    hide Hung, LeftBehind, KeptOf, Imaged;
    var a, b := KeptOf(entries)[i], KeptOf(entries)[j];
    HungAt(byId, m, execution, entries, fs, i);
    HungAt(byId, m, execution, entries, fs, j);
    NewParentOf(byId, m, execution, a, fs[i], p);
    var q := NewFrom(byId, m, execution, b, fs[j], m[p]);
    var h := KeptParent(byId, m, execution, entries, fs, i, p);
    var g := KeptParent(byId, m, execution, entries, fs, j, q);
    var top: nat := Max(i, j);
    assert fs[..top][h].id == fs[..top][g].id;
    assert h == g;
  }

  lemma FactsBack(f: Facts, g: Facts, c: Facts)
    requires FactsCarried(f, c) && FactsCarried(g, c)
    ensures f.ArtifactCommitted? <==> g.ArtifactCommitted?
    ensures f.ArtifactCommitted? ==> f.(mode := Replay) == g.(mode := Replay)
    ensures !f.ArtifactCommitted? ==> f == g
  {
  }

  /** Entries of a bundle are made of their bodies, in one execution, and no two are the same. */
  predicate WellNamed(k: Kernel, entries: seq<Entry>) {
    && (forall i :: 0 <= i < |entries| ==> Create(k, entries[i].body) == Some(entries[i]) && entries[i].body.execution == entries[0].body.execution)
    && forall i, j :: 0 <= i < j < |entries| ==> entries[i].id != entries[j].id
  }

  lemma WellNamedAt(k: Kernel, entries: seq<Entry>, i: nat, j: nat)
    requires WellNamed(k, entries) && i < j < |entries|
    ensures entries[i].body != entries[j].body && entries[i].body.execution == entries[j].body.execution
    ensures StrictlyAscending(entries[i].body.parents) && StrictlyAscending(entries[j].body.parents)
  {
    assert Create(k, entries[i].body) == Some(entries[i]) && Create(k, entries[j].body) == Some(entries[j]);
    hide ValidFacts;
  }

  lemma NotLeftIfNotCommit(byId: ById, e: Entry, p: Id)
    requires !e.body.facts.ArtifactCommitted?
    ensures !LeftBehind(byId, e, p)
  {
  }

  /** Equal new forms belong to twins. */
  lemma EqualFormsTwins(k: Kernel, byId: ById, m: Renaming, execution: string, entries: seq<Entry>, fs: seq<Entry>, i: nat, j: nat)
    requires Hung(byId, m, execution, entries, fs) && i < j < |fs| && |KeptOf(entries)| == |fs| && NamesApart(fs[..j])
    requires WellNamed(k, entries) && fs[i].body == fs[j].body
    ensures TwinsLeft(byId, KeptOf(entries)[i], KeptOf(entries)[j])
  {
    hide Hung, LeftBehind, KeptOf, Imaged, FactsCarried, WellNamed;
    var a, b := KeptOf(entries)[i], KeptOf(entries)[j];
    HungAt(byId, m, execution, entries, fs, i);
    HungAt(byId, m, execution, entries, fs, j);
    ImagedFacts(byId, m, execution, a, fs[i]);
    ImagedFacts(byId, m, execution, b, fs[j]);
    FactsBack(a.body.facts, b.body.facts, fs[i].body.facts);
    forall p | p in a.body.parents && !LeftBehind(byId, a, p) ensures p in b.body.parents && !LeftBehind(byId, b, p) {
      SameKeptParents(byId, m, execution, entries, fs, i, j, p);
    }
    forall p | p in b.body.parents && !LeftBehind(byId, b, p) ensures p in a.body.parents && !LeftBehind(byId, a, p) {
      SameKeptParents(byId, m, execution, entries, fs, j, i, p);
    }
    if !a.body.facts.ArtifactCommitted? {
      PlacesRise(entries, i, j);
      WellNamedAt(k, entries, Place(entries, i), Place(entries, j));
      forall p ensures !LeftBehind(byId, a, p) && !LeftBehind(byId, b, p) { NotLeftIfNotCommit(byId, a, p); NotLeftIfNotCommit(byId, b, p); }
      AscendingUnique(a.body.parents, b.body.parents);
    }
  }

  /** And twins have equal new forms. */
  lemma TwinsEqualForms(byId: ById, m: Renaming, execution: string, a: Entry, b: Entry, f: Entry, g: Entry)
    requires TwinsLeft(byId, a, b) && Imaged(byId, m, execution, a, f) && Imaged(byId, m, execution, b, g)
    ensures f.body == g.body
  {
    hide LeftBehind;
    ImagedFacts(byId, m, execution, a, f);
    ImagedFacts(byId, m, execution, b, g);
    forall y ensures y in f.body.parents <==> y in g.body.parents {
      if y in f.body.parents { var p := NewFrom(byId, m, execution, a, f, y); NewParentOf(byId, m, execution, b, g, p); }
      if y in g.body.parents { var p := NewFrom(byId, m, execution, b, g, y); NewParentOf(byId, m, execution, a, f, p); }
    }
    AscendingUnique(f.body.parents, g.body.parents);
  }

  predicate NoTwinsIn(byId: ById, entries: seq<Entry>) {
    forall i, j :: 0 <= i < j < |entries| ==> !TwinsLeft(byId, entries[i], entries[j])
  }

  lemma {:induction false} AllApart(k: Kernel, byId: ById, m: Renaming, execution: string, entries: seq<Entry>, fs: seq<Entry>, j: nat)
    requires CollisionFree(k) && Hung(byId, m, execution, entries, fs) && j <= |fs| && |KeptOf(entries)| == |fs|
    requires WellNamed(k, entries) && NoTwinsIn(byId, entries) && AllEmitted(k, execution, fs)
    ensures NamesApart(fs[..j])
  {
    hide Hung, LeftBehind, KeptOf, WellNamed, CollisionFree, Emitted, TwinsLeft;
    if j > 0 {
      AllApart(k, byId, m, execution, entries, fs, j - 1);
      forall i | 0 <= i < j - 1 ensures fs[i].id != fs[j - 1].id {
        if fs[i].id == fs[j - 1].id {
          OneName(k, execution, fs[i], fs[j - 1]);
          EqualFormsTwins(k, byId, m, execution, entries, fs, i, j - 1);
          PlacesRise(entries, i, j - 1);
        }
      }
      assert forall h :: 0 <= h < j - 1 ==> fs[..j][h] == fs[..j - 1][h];
    }
  }

  // ----- The parent rules -----

  function Stripped(byId: ById, e: Entry): Entry {
    e.(body := e.body.(parents := Stay(byId, e, e.body.parents)))
  }

  /** The kept entries before one, with the parents that stay. */
  function PartOf(byId: ById, es: seq<Entry>): ById {
    if es == [] then map[]
    else PartOf(byId, es[..|es| - 1])[es[|es| - 1].id := Stripped(byId, es[|es| - 1])]
  }

  predicate IdsApart(es: seq<Entry>) {
    forall i, j :: 0 <= i < j < |es| ==> es[i].id != es[j].id
  }

  lemma {:induction false} PartAtPlace(byId: ById, es: seq<Entry>, x: Id)
    requires IdsApart(es)
    ensures x in PartOf(byId, es) <==> exists i :: 0 <= i < |es| && es[i].id == x
    ensures forall i :: 0 <= i < |es| && es[i].id == x ==> PartOf(byId, es)[x] == Stripped(byId, es[i])
  {
    if es != [] {
      var front := es[..|es| - 1];
      PartAtPlace(byId, front, x);
      assert forall i :: 0 <= i < |front| ==> front[i] == es[i];
    }
    hide Stripped;
  }

  lemma PartHas(byId: ById, es: seq<Entry>, i: nat)
    requires IdsApart(es) && i < |es|
    ensures es[i].id in PartOf(byId, es) && PartOf(byId, es)[es[i].id] == Stripped(byId, es[i])
  {
    PartAtPlace(byId, es, es[i].id);
    hide Stripped;
  }

  lemma PartFrom(byId: ById, es: seq<Entry>, x: Id) returns (i: nat)
    requires IdsApart(es) && x in PartOf(byId, es)
    ensures i < |es| && es[i].id == x && PartOf(byId, es)[x] == Stripped(byId, es[i])
  {
    PartAtPlace(byId, es, x);
    i :| 0 <= i < |es| && es[i].id == x;
    hide Stripped;
  }

  /** Everything the step for entry `j` relies on. */
  ghost predicate Ready(byId: ById, m: Renaming, execution: string, entries: seq<Entry>, fs: seq<Entry>, j: nat, place: nat) {
    && Renewed(byId, m, execution, entries, fs) && j < |fs| && |KeptOf(entries)| == |fs| && byId == Index(entries)
    && place < |entries| && entries[place] == KeptOf(entries)[j] && Kept(entries[place]) && KeptOf(entries[..place]) == KeptOf(entries)[..j]
    && Agrees(byId, Index(entries[..place])) && LedgerClocks.Filed(Index(entries[..place]), entries[..place])
    && IdsApart(KeptOf(entries)) && Closed(Index(entries[..place]))
    && forall p :: p in entries[place].body.parents ==> p in Index(entries[..place])
  }

  lemma StrippedPlain(byId: ById, e: Entry)
    ensures Stripped(byId, e).id == e.id && Stripped(byId, e).body.facts == e.body.facts && Stripped(byId, e).body.clock == e.body.clock
    ensures Stripped(byId, e).body.parents == Stay(byId, e, e.body.parents)
    ensures !e.body.facts.ArtifactCommitted? ==> Stripped(byId, e) == e
  {
    if !e.body.facts.ArtifactCommitted? { NothingLeft(byId, e, e.body.parents); }
  }

  lemma ReadyParts(byId: ById, m: Renaming, execution: string, entries: seq<Entry>, fs: seq<Entry>, j: nat, place: nat)
    requires Ready(byId, m, execution, entries, fs, j, place)
    ensures Hung(byId, m, execution, entries, fs) && NamesApart(fs) && j < |fs| && |KeptOf(entries)| == |fs| && IdsApart(KeptOf(entries)[..j])
    ensures place < |entries| && entries[place] == KeptOf(entries)[j] && Kept(entries[place]) && KeptOf(entries[..place]) == KeptOf(entries)[..j]
    ensures Agrees(byId, Index(entries[..place])) && LedgerClocks.Filed(Index(entries[..place]), entries[..place])
    ensures Closed(Index(entries[..place])) && forall p :: p in entries[place].body.parents ==> p in Index(entries[..place])
  {
    RenewedHung(byId, m, execution, entries, fs);
    hide Renewed, Hung, KeptOf, Index, LedgerClocks.Filed, Agrees, Closed, NamesApart;
  }

  /** What is not left behind by a kept entry is in the part. */
  lemma StaysIn(byId: ById, m: Renaming, execution: string, entries: seq<Entry>, fs: seq<Entry>, i: nat, j: nat)
    requires Hung(byId, m, execution, entries, fs) && i <= j < |fs| && |KeptOf(entries)| == |fs| && IdsApart(KeptOf(entries)[..j])
    ensures AllIn(PartOf(byId, KeptOf(entries)[..j]), Stay(byId, KeptOf(entries)[i], KeptOf(entries)[i].body.parents))
  {
    hide Hung, KeptOf, Stripped, LeftBehind;
    var es := KeptOf(entries)[..j];
    forall p | p in Stay(byId, KeptOf(entries)[i], KeptOf(entries)[i].body.parents) ensures p in PartOf(byId, es) {
      var h := KeptParent(byId, m, execution, entries, fs, i, p);
      assert es[h] == KeptOf(entries)[h];
      PartHas(byId, es, h);
    }
  }

  lemma PartIsPart(byId: ById, m: Renaming, execution: string, entries: seq<Entry>, fs: seq<Entry>, j: nat, place: nat)
    requires Ready(byId, m, execution, entries, fs, j, place)
    ensures Part(PartOf(byId, KeptOf(entries)[..j]), Index(entries[..place]))
  {
    hide Ready, Hung, KeptOf, Stripped, LeftBehind, LedgerClocks.Filed, Index, Agrees, Closed;
    ReadyParts(byId, m, execution, entries, fs, j, place);
    var es := KeptOf(entries)[..j];
    var part, table := PartOf(byId, es), Index(entries[..place]);
    forall x | x in part ensures PartAt(part, table, x) {
      var i := PartFrom(byId, es, x);
      StrippedPlain(byId, es[i]);
      var h := Place(entries[..place], i);
      OwnFiled(table, entries[..place], h);
      StaysIn(byId, m, execution, entries, fs, i, j);
      assert es[i] == KeptOf(entries)[i];
    }
  }

  lemma {:induction false} StayDistinct(byId: ById, e: Entry, ids: seq<Id>)
    requires StrictlyAscending(ids)
    ensures Distinct(Stay(byId, e, ids))
  {
    hide LeftBehind;
    if ids != [] {
      AscendingTail(ids);
      StayDistinct(byId, e, ids[1..]);
    }
  }

  lemma DistinctSame(a: seq<Id>, b: seq<Id>)
    requires Distinct(a) && Distinct(b) && forall x :: x in a <==> x in b
    ensures multiset(a) == multiset(b)
  {
    DistinctMultiplicity(a);
    DistinctMultiplicity(b);
    forall x ensures multiset(a)[x] == multiset(b)[x] {
      assert x in a <==> x in multiset(a);
      assert x in b <==> x in multiset(b);
    }
  }

  lemma MappedDistinct(m: Renaming, ids: seq<Id>)
    requires Injective(m) && Distinct(ids) && forall p :: p in ids ==> p in m
    ensures Distinct(MapIds(m, ids))
  {
    forall i, j | 0 <= i < j < |ids| ensures MapIds(m, ids)[i] != MapIds(m, ids)[j] {
      assert ids[i] in ids && ids[j] in ids;
    }
    hide MapIds;
  }

  /** The new parents are those that stay, renamed. */
  lemma ParentsRenamed(byId: ById, m: Renaming, n: Renaming, execution: string, e: Entry, f: Entry)
    requires Imaged(byId, m, execution, e, f) && Injective(n) && StrictlyAscending(e.body.parents)
    requires forall p :: p in Stay(byId, e, e.body.parents) ==> p in n && p in m && n[p] == m[p]
    ensures BagRenamed(n, Stay(byId, e, e.body.parents), f.body.parents)
  {
    hide LeftBehind, FactsCarried, Injective, MapIds, StrictlyAscending;
    var s := Stay(byId, e, e.body.parents);
    ImagedFacts(byId, m, execution, e, f);
    StayDistinct(byId, e, e.body.parents);
    MappedDistinct(n, s);
    StrictlyAscendingDistinct(f.body.parents);
    forall y ensures y in f.body.parents <==> y in MapIds(n, s) {
      MapIdsImage(n, s, y);
      if y in f.body.parents { var p := NewFrom(byId, m, execution, e, f, y); assert p in s; }
      if p :| p in s && n[p] == y { NewParentOf(byId, m, execution, e, f, p); }
    }
    DistinctSame(f.body.parents, MapIds(n, s));
  }

  lemma FactsRenamed(n: Renaming, e: Entry, f: Facts)
    requires Kept(e) && FactsCarried(e.body.facts, f)
    ensures FactsResolve(n, e.body.facts) && f == MapFacts(n, e.body.facts) && KindOf(f) == KindOf(e.body.facts)
    ensures e.body.facts.ArtifactCommitted? ==> f == MapFacts(n, e.body.facts.(mode := Mode.Recorded))
  {
  }

  function Restrict(m: Renaming, part: ById): Renaming {
    map x | x in part && x in m :: m[x]
  }

  /** The names of the part, one to one. */
  lemma NamesOfPart(byId: ById, m: Renaming, execution: string, entries: seq<Entry>, fs: seq<Entry>, j: nat, place: nat)
    requires Ready(byId, m, execution, entries, fs, j, place)
    ensures var part := PartOf(byId, KeptOf(entries)[..j]);
            Restrict(m, part).Keys == part.Keys && Injective(Restrict(m, part))
  {
    hide Ready, Hung, KeptOf, Stripped, LeftBehind, LedgerClocks.Filed, Index, Agrees, Closed, PartOf, Imaged;
    ReadyParts(byId, m, execution, entries, fs, j, place);
    var es := KeptOf(entries)[..j];
    var part := PartOf(byId, es);
    forall x | x in part ensures x in m {
      var i := PartFrom(byId, es, x);
      HungAt(byId, m, execution, entries, fs, i);
      ImagedId(byId, m, execution, es[i], fs[i]);
    }
    forall x, y | x in part && y in part && m[x] == m[y] ensures x == y {
      var i := PartFrom(byId, es, x);
      var h := PartFrom(byId, es, y);
      HungAt(byId, m, execution, entries, fs, i);
      HungAt(byId, m, execution, entries, fs, h);
      ImagedId(byId, m, execution, es[i], fs[i]);
      ImagedId(byId, m, execution, es[h], fs[h]);
      assert i == h;
    }
  }

  lemma ImagedId(byId: ById, m: Renaming, execution: string, e: Entry, f: Entry)
    requires Imaged(byId, m, execution, e, f)
    ensures e.id in m && m[e.id] == f.id
  {
    hide LeftBehind, FactsCarried;
  }

  lemma {:induction false} IndexAt(fs: seq<Entry>, i: nat)
    requires NamesApart(fs) && i < |fs|
    ensures fs[i].id in Index(fs) && Index(fs)[fs[i].id] == fs[i]
    decreases |fs|
  {
    var front := fs[..|fs| - 1];
    if i < |front| {
      assert forall h :: 0 <= h < |front| ==> front[h] == fs[h];
      IndexAt(front, i);
      assert fs[i].id != fs[|fs| - 1].id;
    }
  }

  /** One kept entry before, renamed. */
  lemma EntryRenamedAt(byId: ById, m: Renaming, execution: string, entries: seq<Entry>, fs: seq<Entry>, j: nat, place: nat, i: nat)
    requires Ready(byId, m, execution, entries, fs, j, place) && i <= j && StrictlyAscending(KeptOf(entries)[i].body.parents)
    ensures var n, e := Restrict(m, PartOf(byId, KeptOf(entries)[..j])), KeptOf(entries)[i];
            && EntryRenamed(n, Stripped(byId, e), fs[i]) && KindOf(fs[i].body.facts) == KindOf(e.body.facts)
            && EntryRenamed(n, AsRecorded(byId, e), fs[i])
  {
    hide Ready, Hung, KeptOf, LeftBehind, LedgerClocks.Filed, Index, Agrees, Closed, PartOf, Imaged, Injective, MapFacts, FactsCarried, Kept, StrictlyAscending;
    NamesOfPart(byId, m, execution, entries, fs, j, place);
    ReadyParts(byId, m, execution, entries, fs, j, place);
    var part := PartOf(byId, KeptOf(entries)[..j]);
    var n, e := Restrict(m, part), KeptOf(entries)[i];
    HungAt(byId, m, execution, entries, fs, i);
    ImagedFacts(byId, m, execution, e, fs[i]);
    StaysIn(byId, m, execution, entries, fs, i, j);
    ParentsRenamed(byId, m, n, execution, e, fs[i]);
    FactsRenamed(n, e, fs[i].body.facts);
    if !(e.body.facts.ArtifactCommitted? && e.body.facts.mode == Live) { NothingLeft(byId, e, e.body.parents); }
    hide BagRenamed, Stay;
  }

  lemma KeptAscend(k: Kernel, entries: seq<Entry>, i: nat)
    requires WellNamed(k, entries) && i < |KeptOf(entries)|
    ensures StrictlyAscending(KeptOf(entries)[i].body.parents)
  {
    var h := Place(entries, i);
    assert Create(k, entries[h].body) == Some(entries[h]);
    hide ValidFacts;
  }

  lemma PartRenames(k: Kernel, byId: ById, m: Renaming, execution: string, entries: seq<Entry>, fs: seq<Entry>, j: nat, place: nat)
    requires Ready(byId, m, execution, entries, fs, j, place) && WellNamed(k, entries)
    ensures var part := PartOf(byId, KeptOf(entries)[..j]); Renames(Restrict(m, part), part, Index(fs[..j]))
  {
    hide Ready, Hung, KeptOf, Stripped, LeftBehind, LedgerClocks.Filed, Index, Agrees, Closed, PartOf, Imaged, EntryRenamed, WellNamed, Injective, KindOf;
    ReadyParts(byId, m, execution, entries, fs, j, place);
    NamesOfPart(byId, m, execution, entries, fs, j, place);
    var es, out := KeptOf(entries)[..j], fs[..j];
    var part := PartOf(byId, es);
    var n := Restrict(m, part);
    NamesFront(fs, j);
    forall x | x in n
      ensures n[x] in Index(out) && KindOf(FactsAt(Index(out), n[x])) == KindOf(FactsAt(part, x))
      ensures part[x].id == x && Index(out)[n[x]].id == n[x] && EntryRenamed(n, part[x], Index(out)[n[x]]) {
      var i := PartFrom(byId, es, x);
      assert es[i] == KeptOf(entries)[i] && out[i] == fs[i];
      HungAt(byId, m, execution, entries, fs, i);
      ImagedId(byId, m, execution, es[i], fs[i]);
      IndexAt(out, i);
      StrippedPlain(byId, es[i]);
      KeptAscend(k, entries, i);
      EntryRenamedAt(byId, m, execution, entries, fs, j, place, i);
    }
    forall y | y in Index(out) ensures exists x :: x in n && n[x] == y {
      IndexIn(out, y);
      var i :| 0 <= i < |out| && out[i] == Index(out)[y];
      HungAt(byId, m, execution, entries, fs, i);
      ImagedId(byId, m, execution, KeptOf(entries)[i], fs[i]);
      assert es[i] == KeptOf(entries)[i];
      PartHas(byId, es, i);
      assert n[es[i].id] == y;
    }
  }

  lemma NamesFront(fs: seq<Entry>, j: nat)
    requires NamesApart(fs) && j <= |fs|
    ensures NamesApart(fs[..j])
  {
  }

  lemma SameSole(part: ById, byId: ById, x: Id)
    requires Part(part, byId) && x in part && !FactsAt(byId, x).ArtifactCommitted? && x in byId
    ensures part[x] == byId[x] && SoleParent(part, x) == SoleParent(byId, x)
    ensures SoleParent(part, x).Some? ==>
              && SoleParent(part, x).value in part && SoleParent(part, x).value in byId
              && FactsAt(part, SoleParent(part, x).value) == FactsAt(byId, SoleParent(part, x).value)
  {
    assert PartAt(part, byId, x);
    SelectedSame(part, byId, part[x].body.parents, false);
    var c := CausalIds(part, part[x].body.parents);
    if |c| == 1 {
      assert c[0] in c;
      OnePart(part, byId, c, c[0]);
    }
    hide Part, SelectParents;
  }

  lemma StagesOfPart(part: ById, byId: ById, x: Id)
    requires Part(part, byId) && x in part && x in byId && VerifiedFromCommit(byId, x) && CapturedFromEmission(byId, x)
    ensures VerifiedFromCommit(part, x) && CapturedFromEmission(part, x)
  {
    OnePart(part, byId, [], x);
    if !FactsAt(byId, x).ArtifactCommitted? { SameSole(part, byId, x); }
    hide Part, SoleParent, CapturesEmission;
  }

  lemma SoundParts(byId: ById, ve: map<Id, VaultEvidence>)
    requires Sound(byId, ve)
    ensures Closed(byId) && EvidenceRecorded(byId, ve) && forall x :: x in byId ==> VerifiedFromCommit(byId, x) && CapturedFromEmission(byId, x)
  {
    hide Closed, EvidenceRecorded, VerifiedFromCommit, CapturedFromEmission;
  }

  lemma EvidenceSame(byId: ById, m: Renaming, execution: string, e: Entry, f: Entry)
    requires Imaged(byId, m, execution, e, f) && e.body.facts.ArtifactCommitted?
    ensures f.body.facts.ArtifactCommitted? && f.body.facts.vault == e.body.facts.vault && VaultEvidenceOf(f.body.facts) == VaultEvidenceOf(e.body.facts)
  {
    ImagedFacts(byId, m, execution, e, f);
    hide LeftBehind, Imaged;
  }

  /** The part is as sound as the table it is of, with the evidence of the new forms. */
  lemma PartSound(k: Kernel, byId: ById, m: Renaming, execution: string, entries: seq<Entry>, fs: seq<Entry>, j: nat, place: nat,
                  ve: map<Id, VaultEvidence>, own: map<Id, VaultEvidence>)
    requires Ready(byId, m, execution, entries, fs, j, place) && Sound(Index(entries[..place]), ve) && Sound(Index(fs[..j]), own)
    ensures Sound(PartOf(byId, KeptOf(entries)[..j]), own)
  {
    hide Ready, Hung, KeptOf, LeftBehind, LedgerClocks.Filed, Index, Agrees, PartOf, Imaged, Sound, VerifiedFromCommit, CapturedFromEmission,
      VaultEvidenceOf;
    ReadyParts(byId, m, execution, entries, fs, j, place);
    PartIsPart(byId, m, execution, entries, fs, j, place);
    var es, out, table := KeptOf(entries)[..j], fs[..j], Index(entries[..place]);
    var part := PartOf(byId, es);
    SoundParts(table, ve);
    SoundParts(Index(out), own);
    NamesFront(fs, j);
    forall x | x in part
      ensures VerifiedFromCommit(part, x) && CapturedFromEmission(part, x)
      ensures part[x].id == x && AllIn(part, part[x].body.parents)
      ensures FactsAt(part, x).ArtifactCommitted? ==>
                FactsAt(part, x).vault in own && own[FactsAt(part, x).vault] == VaultEvidenceOf(FactsAt(part, x)) {
      var i := PartFrom(byId, es, x);
      assert es[i] == KeptOf(entries)[i] && out[i] == fs[i];
      PartTable(part, table, x);
      StagesOfPart(part, table, x);
      StrippedPlain(byId, es[i]);
      StaysIn(byId, m, execution, entries, fs, i, j);
      if FactsAt(part, x).ArtifactCommitted? {
        HungAt(byId, m, execution, entries, fs, i);
        EvidenceSame(byId, m, execution, es[i], fs[i]);
        IndexAt(out, i);
      }
    }
    SoundAgain(part, own);
  }

  lemma PartTable(part: ById, byId: ById, x: Id)
    requires Part(part, byId) && x in part
    ensures x in byId
  {
    assert PartAt(part, byId, x);
  }

  lemma SoundAgain(byId: ById, ve: map<Id, VaultEvidence>)
    requires forall x :: x in byId ==> VerifiedFromCommit(byId, x) && CapturedFromEmission(byId, x)
    requires forall x :: x in byId ==> byId[x].id == x && AllIn(byId, byId[x].body.parents)
    requires EvidenceRecorded(byId, ve)
    ensures Sound(byId, ve)
  {
    hide VerifiedFromCommit, CapturedFromEmission, EvidenceRecorded;
  }

  /** The parent rule of an entry is kept by its new form. */
  lemma TransitionCarried(k: Kernel, byId: ById, m: Renaming, execution: string, entries: seq<Entry>, fs: seq<Entry>, j: nat, place: nat,
                          ve: map<Id, VaultEvidence>, own: map<Id, VaultEvidence>)
    requires Ready(byId, m, execution, entries, fs, j, place) && WellNamed(k, entries)
    requires Sound(Index(entries[..place]), ve) && Sound(Index(fs[..j]), own) && ParentTransition(Index(entries[..place]), entries[place])
    ensures ParentTransition(Index(fs[..j]), fs[j])
  {
    hide *;
    ReadyParts(byId, m, execution, entries, fs, j, place);
    var e, table, part := entries[place], Index(entries[..place]), PartOf(byId, KeptOf(entries)[..j]);
    PartIsPart(byId, m, execution, entries, fs, j, place);
    PartSound(k, byId, m, execution, entries, fs, j, place, ve, own);
    PartRenames(k, byId, m, execution, entries, fs, j, place);
    KeptAscend(k, entries, j);
    EntryRenamedAt(byId, m, execution, entries, fs, j, place, j);
    StaysIn(byId, m, execution, entries, fs, j, j);
    SameStay(byId, table, e);
    AllInIs(table, e.body.parents);
    TransitionRecorded(part, table, e);
    NotLiveNow(table, e);
    TracksIs(Restrict(m, part), part, Index(fs[..j]), own);
    ParentTransitionKept(Restrict(m, part), part, Index(fs[..j]), own, AsRecorded(table, e), fs[j]);
  }

  lemma AllInIs(byId: ById, ids: seq<Id>)
    ensures AllIn(byId, ids) <==> forall p :: p in ids ==> p in byId
  {
  }

  lemma TracksIs(n: Renaming, part: ById, table: ById, own: map<Id, VaultEvidence>)
    requires Renames(n, part, table) && Sound(part, own) && Sound(table, own)
    ensures Tracks(n, part, table, own)
  {
    hide Renames, Sound;
  }

  lemma NotLiveNow(byId: ById, e: Entry)
    ensures AsRecorded(byId, e).body.facts.ArtifactCommitted? ==> AsRecorded(byId, e).body.facts.mode != Live
  {
  }

  /** The bundle's table and the prefix's leave the same parents behind. */
  lemma SameStay(byId: ById, table: ById, e: Entry)
    requires Agrees(byId, table) && forall p :: p in e.body.parents ==> p in table
    ensures Stay(byId, e, e.body.parents) == Stay(table, e, e.body.parents) && AsRecorded(byId, e) == AsRecorded(table, e)
  {
    SameStayIds(byId, table, e, e.body.parents);
  }

  lemma {:induction false} SameStayIds(byId: ById, table: ById, e: Entry, ids: seq<Id>)
    requires Agrees(byId, table) && forall p :: p in ids ==> p in table
    ensures Stay(byId, e, ids) == Stay(table, e, ids)
  {
    if ids != [] {
      assert ids[0] in ids;
      SameStayIds(byId, table, e, ids[1..]);
    }
  }

  // ----- The walk over a ledger whose wall clocks never fall -----

  /** The last walls are those of stamps that went by. */
  predicate WallsFrom(w: Walk, entries: seq<Entry>) {
    forall b :: b in w.lastWall ==>
      exists i :: 0 <= i < |entries| && LedgerClocks.StampedOn(entries[i], b) && entries[i].body.clock == w.lastWall[b].body.clock
  }

  /** The entry's wall clock is not behind the last one on its basis. */
  predicate NotBehind(w: Walk, e: Entry) {
    e.body.clock.Stamp? && LedgerClocks.StampedOn(e, e.body.clock.basis) && e.body.clock.basis in w.lastWall ==>
      w.lastWall[e.body.clock.basis].body.clock.Stamp? ==> w.lastWall[e.body.clock.basis].body.clock.wallMs <= e.body.clock.wallMs
  }

  lemma WalkRises(k: Kernel, pick: Pick, execution: string, original: ById, w: Walk, e: Entry)
    requires WalkStep(k, pick, execution, original, w, e).Some? && !e.body.facts.ClockRegression?
    requires NotBehind(w, e)
    ensures var x := WalkStep(k, pick, execution, original, w, e).value;
            && (NoWitness(w.replayed) ==> NoWitness(x.replayed))
            && forall b :: b in x.lastWall ==>
                 || (b in w.lastWall && x.lastWall[b] == w.lastWall[b])
                 || (LedgerClocks.StampedOn(e, b) && x.lastWall[b].body.clock == e.body.clock)
  {
    hide Rewire, Survivors, ValidFacts, SortIds, WitnessBody, Index, Mainline;
  }

  lemma {:induction false} FallFreeWalk(k: Kernel, pick: Pick, execution: string, entries: seq<Entry>, n: nat)
    requires CollisionFree(k) && Bounded(execution) && n <= |entries| && Run(k, EMPTY, entries).Some? && NoWitness(entries) && WallsRise(entries)
    ensures WalkRun(k, pick, execution, Index(entries), entries[..n]).Some?
    ensures var w := WalkRun(k, pick, execution, Index(entries), entries[..n]).value;
            NoWitness(w.replayed) && WallsFrom(w, entries[..n])
  {
    hide *;
    if n == 0 {
      assert entries[..0] == [];
      WalkNothing(k, pick, execution, Index(entries));
      NothingYet();
    } else {
      FallFreeWalk(k, pick, execution, entries, n - 1);
      WalkStopsExactly(k, pick, execution, entries, n - 1);
      NoWitnessAt(entries, n - 1);
      WalkRunLast(k, pick, execution, Index(entries), entries, n - 1);
      var w := WalkRun(k, pick, execution, Index(entries), entries[..n - 1]).value;
      WallsBefore(w, entries, n - 1);
      WalkRises(k, pick, execution, Index(entries), w, entries[n - 1]);
      WallsOn(w, WalkRun(k, pick, execution, Index(entries), entries[..n]).value, entries, n - 1);
    }
  }

  lemma NothingYet()
    ensures NoWitness(NO_WALK.replayed) && WallsFrom(NO_WALK, [])
  {
  }

  lemma NoWitnessAt(entries: seq<Entry>, i: nat)
    requires NoWitness(entries) && i < |entries|
    ensures !entries[i].body.facts.ClockRegression?
  {
  }

  lemma WallsBefore(w: Walk, entries: seq<Entry>, n: nat)
    requires n < |entries| && WallsFrom(w, entries[..n]) && WallsRise(entries)
    ensures NotBehind(w, entries[n])
  {
    var e := entries[n];
    if e.body.clock.Stamp? && LedgerClocks.StampedOn(e, e.body.clock.basis) && e.body.clock.basis in w.lastWall {
      var b := e.body.clock.basis;
      var i :| 0 <= i < n && LedgerClocks.StampedOn(entries[..n][i], b) && entries[..n][i].body.clock == w.lastWall[b].body.clock;
      assert WallAfter(entries[i], e);
    }
  }

  lemma WallsOn(w: Walk, x: Walk, entries: seq<Entry>, n: nat)
    requires n < |entries| && WallsFrom(w, entries[..n])
    requires forall b :: b in x.lastWall ==>
               || (b in w.lastWall && x.lastWall[b] == w.lastWall[b])
               || (LedgerClocks.StampedOn(entries[n], b) && x.lastWall[b].body.clock == entries[n].body.clock)
    ensures WallsFrom(x, entries[..n + 1])
  {
    var all := entries[..n + 1];
    forall b | b in x.lastWall
      ensures exists i :: 0 <= i < |all| && LedgerClocks.StampedOn(all[i], b) && all[i].body.clock == x.lastWall[b].body.clock {
      if b in w.lastWall && x.lastWall[b] == w.lastWall[b] {
        var i :| 0 <= i < n && LedgerClocks.StampedOn(entries[..n][i], b) && entries[..n][i].body.clock == w.lastWall[b].body.clock;
        assert all[i] == entries[..n][i];
      } else {
        assert all[n] == entries[n];
      }
    }
  }

  lemma {:induction false} NothingWitnessed(entries: seq<Entry>)
    requires NoWitness(entries)
    ensures Witnessless(entries) == entries
  {
    if entries != [] {
      NothingWitnessed(entries[..|entries| - 1]);
      assert entries == entries[..|entries| - 1] + [entries[|entries| - 1]];
    }
  }

  // ----- The output is accepted -----

  lemma RulesParts(k: Kernel, before: seq<Entry>, e: Entry)
    requires LedgerMeaning.EntryRules(k, before, e)
    ensures LedgerMeaning.GraphRules(k, before, e) && LedgerEvidence.EvidenceRules(before, e) && LedgerClocks.ClockRules(before, e)
    ensures Create(k, e.body) == Some(e) && ParentTransition(Index(before), e) && (before != [] ==> before[0].body.execution == e.body.execution)
    ensures forall i :: 0 <= i < |before| ==> before[i].id != e.id
  {
    hide Create, ParentTransition, LedgerEvidence.EvidenceRules, LedgerClocks.ClockRules, LedgerMeaning.PathsShort, LedgerMeaning.EdgeCount, Index;
  }

  lemma AllWellNamed(k: Kernel, entries: seq<Entry>)
    requires LedgerMeaning.AllRules(k, entries)
    ensures WellNamed(k, entries)
  {
    hide LedgerMeaning.EntryRules, Create;
    forall i | 0 <= i < |entries| ensures Create(k, entries[i].body) == Some(entries[i]) && entries[i].body.execution == entries[0].body.execution {
      RulesParts(k, entries[..i], entries[i]);
      if i > 0 { assert entries[..i][0] == entries[0]; }
    }
    forall i, j | 0 <= i < j < |entries| ensures entries[i].id != entries[j].id {
      RulesParts(k, entries[..j], entries[j]);
      assert entries[..j][i] == entries[i];
    }
  }

  lemma KeptIdsApart(k: Kernel, entries: seq<Entry>)
    requires WellNamed(k, entries)
    ensures IdsApart(KeptOf(entries))
  {
    forall i, j | 0 <= i < j < |KeptOf(entries)| ensures KeptOf(entries)[i].id != KeptOf(entries)[j].id {
      PlacesRise(entries, i, j);
      assert entries[Place(entries, i)].id != entries[Place(entries, j)].id;
    }
    hide Create, KeptOf;
  }

  lemma AllHang(k: Kernel, entries: seq<Entry>, i: nat)
    requires Run(k, EMPTY, entries).Some? && i < |entries| && Kept(entries[i])
    ensures KeptHangsIn(Index(entries), entries, i)
  {
    hide LedgerMeaning.EntryRules, Index, ParentTransition, Kept, LeftBehind, Run, Before, Create, Agrees, LedgerClocks.Filed;
    var s := BeforeAt(k, entries, i);
    BeforeParts(k, s, entries[..i], entries[i]);
    EntryAllowed(k, s, entries[..i], entries[i]);
    IndexAgrees(k, entries, i);
    var e, table := entries[i], s.graph.byId;
    forall p | p in e.body.parents && !LeftBehind(Index(entries), e, p) ensures exists j :: 0 <= j < i && entries[j].id == p && Kept(entries[j]) {
      SameLeft(Index(entries), table, e, p);
      KeptHangs(table, e, p);
      var j := FiledAt(table, entries[..i], p);
      assert entries[..i][j] == entries[j];
    }
  }

  lemma SameLeft(byId: ById, table: ById, e: Entry, p: Id)
    requires Agrees(byId, table) && p in table
    ensures LeftBehind(byId, e, p) == LeftBehind(table, e, p)
  {
  }

  lemma {:induction false} KeptAreKept(entries: seq<Entry>)
    ensures AllKept(KeptOf(entries))
  {
    if entries != [] { KeptAreKept(entries[..|entries| - 1]); }
  }

  lemma IsHung(k: Kernel, m: Renaming, execution: string, entries: seq<Entry>, fs: seq<Entry>)
    requires Run(k, EMPTY, entries).Some? && AllImaged(Index(entries), m, execution, KeptOf(entries), fs)
    ensures Hung(Index(entries), m, execution, entries, fs) && |KeptOf(entries)| == |fs|
  {
    KeptAreKept(entries);
    hide AllImaged, KeptOf, Index, Run, KeptHangsIn, Kept;
    forall i | 0 <= i < |entries| && Kept(entries[i]) ensures KeptHangsIn(Index(entries), entries, i) { AllHang(k, entries, i); }
    ImagedSize(Index(entries), m, execution, KeptOf(entries), fs);
  }

  lemma ImagedSize(byId: ById, m: Renaming, execution: string, es: seq<Entry>, fs: seq<Entry>)
    requires AllImaged(byId, m, execution, es, fs)
    ensures |es| == |fs|
  {
    hide Imaged;
  }

  lemma IsReady(k: Kernel, m: Renaming, execution: string, entries: seq<Entry>, fs: seq<Entry>, j: nat) returns (place: nat, s: Tables)
    requires Run(k, EMPTY, entries).Some? && WellNamed(k, entries) && Renewed(Index(entries), m, execution, entries, fs) && j < |fs|
    requires |KeptOf(entries)| == |fs|
    ensures Ready(Index(entries), m, execution, entries, fs, j, place) && place < |entries|
    ensures Run(k, EMPTY, entries[..place]) == Some(s) && Sound(Index(entries[..place]), s.evidence.vaultEvidence)
  {
    hide *;
    place := KeptBefore(entries, j);
    s := BeforeAt(k, entries, place);
    BeforeParts(k, s, entries[..place], entries[place]);
    EntryAllowed(k, s, entries[..place], entries[place]);
    IndexAgrees(k, entries, place);
    KeptIdsApart(k, entries);
    NothingSound();
    SoundRun(k, EMPTY, entries[..place]);
    ReadyIs(Index(entries), m, execution, entries, fs, j, place);
  }

  lemma ReadyIs(byId: ById, m: Renaming, execution: string, entries: seq<Entry>, fs: seq<Entry>, j: nat, place: nat)
    requires Renewed(byId, m, execution, entries, fs) && j < |fs| && |KeptOf(entries)| == |fs| && byId == Index(entries)
    requires place < |entries| && entries[place] == KeptOf(entries)[j] && Kept(entries[place]) && KeptOf(entries[..place]) == KeptOf(entries)[..j]
    requires Agrees(byId, Index(entries[..place])) && LedgerClocks.Filed(Index(entries[..place]), entries[..place])
    requires IdsApart(KeptOf(entries)) && Closed(Index(entries[..place]))
    requires forall p :: p in entries[place].body.parents ==> p in Index(entries[..place])
    ensures Ready(byId, m, execution, entries, fs, j, place)
  {
    hide Renewed, KeptOf, Index, Agrees, LedgerClocks.Filed, IdsApart, Closed, Kept;
  }

  lemma WholeFiled(k: Kernel, entries: seq<Entry>)
    requires Run(k, EMPTY, entries).Some?
    ensures LedgerClocks.Filed(Index(entries), entries)
  {
    hide *;
    assert entries[..|entries|] == entries;
    LedgerMeaning.RunExactly(k, entries, |entries|);
    TablesParts(Run(k, EMPTY, entries).value, entries);
  }

  lemma EmittedCreated(k: Kernel, execution: string, fs: seq<Entry>, j: nat)
    requires AllEmitted(k, execution, fs) && j < |fs|
    ensures Create(k, fs[j].body) == Some(fs[j])
  {
    assert Emitted(k, execution, fs[j]);
  }

  lemma RulesAgain(k: Kernel, before: seq<Entry>, f: Entry)
    requires Create(k, f.body) == Some(f) && (before != [] ==> before[0].body.execution == f.body.execution)
    requires (forall i :: 0 <= i < |before| ==> before[i].id != f.id) && LedgerMeaning.ParentsBefore(before, f)
    requires LedgerMeaning.EdgeCount(before + [f]) <= MAX_EDGES && LedgerMeaning.PathsShort(before + [f], |before|)
    requires ParentTransition(Index(before), f) && LedgerEvidence.EvidenceRules(before, f) && LedgerClocks.ClockRules(before, f)
    ensures LedgerMeaning.EntryRules(k, before, f)
  {
    hide Create, LedgerMeaning.ParentsBefore, LedgerMeaning.EdgeCount, LedgerMeaning.PathsShort, ParentTransition, LedgerEvidence.EvidenceRules,
      LedgerClocks.ClockRules, Index;
  }

  /** Everything there is to know of a bundle and its new forms. */
  ghost predicate Prepared(k: Kernel, m: Renaming, execution: string, entries: seq<Entry>, fs: seq<Entry>) {
    && Run(k, EMPTY, entries).Some? && LedgerMeaning.AllRules(k, entries) && WellNamed(k, entries)
    && Renewed(Index(entries), m, execution, entries, fs) && |KeptOf(entries)| == |fs| && AllEmitted(k, execution, fs)
  }

  lemma PreparedParts(k: Kernel, m: Renaming, execution: string, entries: seq<Entry>, fs: seq<Entry>)
    requires Prepared(k, m, execution, entries, fs)
    ensures Run(k, EMPTY, entries).Some? && LedgerMeaning.AllRules(k, entries) && WellNamed(k, entries)
    ensures Renewed(Index(entries), m, execution, entries, fs) && |KeptOf(entries)| == |fs| && AllEmitted(k, execution, fs)
  {
    hide LedgerMeaning.AllRules, WellNamed, Renewed, AllEmitted, KeptOf, Run, Index;
  }

  lemma RulesAtPlace(k: Kernel, entries: seq<Entry>, i: nat)
    requires LedgerMeaning.AllRules(k, entries) && i < |entries|
    ensures LedgerMeaning.EntryRules(k, entries[..i], entries[i])
  {
    hide LedgerMeaning.EntryRules;
  }

  /** A new form keeps the rules, if those before it do. */
  lemma RulesCarried(k: Kernel, m: Renaming, execution: string, entries: seq<Entry>, fs: seq<Entry>, j: nat)
    requires Prepared(k, m, execution, entries, fs) && j < |fs| && Run(k, EMPTY, fs[..j]).Some?
    ensures LedgerMeaning.EntryRules(k, fs[..j], fs[j])
  {
    hide *;
    PreparedParts(k, m, execution, entries, fs);
    var byId := Index(entries);
    var place, s := IsReady(k, m, execution, entries, fs, j);
    ReadyParts(byId, m, execution, entries, fs, j, place);
    RulesAtPlace(k, entries, place);
    RulesParts(k, entries[..place], entries[place]);
    GraphCarried(k, byId, m, execution, entries, fs, j, place);
    AllLikeFrom(byId, m, execution, entries, fs);
    AllLikeFront(KeptOf(entries), fs, j);
    AllLikeAt(KeptOf(entries), fs, j);
    EvidenceCarried(entries[..place], entries[place], fs[..j], fs[j]);
    WholeFiled(k, entries);
    ClockCarried(byId, m, execution, entries, fs, j, place);
    LedgerMeaning.RunExactly(k, fs, j);
    TablesParts(Run(k, EMPTY, fs[..j]).value, fs[..j]);
    NothingSound();
    SoundRun(k, EMPTY, fs[..j]);
    TransitionCarried(k, byId, m, execution, entries, fs, j, place, s.evidence.vaultEvidence, Run(k, EMPTY, fs[..j]).value.evidence.vaultEvidence);
    EmittedCreated(k, execution, fs, j);
    RulesAgain(k, fs[..j], fs[j]);
  }

  lemma {:induction false} OutputRuns(k: Kernel, m: Renaming, execution: string, entries: seq<Entry>, fs: seq<Entry>, j: nat)
    requires Prepared(k, m, execution, entries, fs) && j <= |fs|
    ensures Run(k, EMPTY, fs[..j]).Some? && forall i :: 0 <= i < j ==> LedgerMeaning.EntryRules(k, fs[..i], fs[i])
  {
    hide *;
    LedgerMeaning.RunExactly(k, fs, j);
    if j > 0 {
      OutputRuns(k, m, execution, entries, fs, j - 1);
      RulesCarried(k, m, execution, entries, fs, j - 1);
    }
  }

  lemma {:induction false} FewerKept(entries: seq<Entry>)
    ensures |KeptOf(entries)| <= |entries|
  {
    if entries != [] { FewerKept(entries[..|entries| - 1]); }
  }

  lemma RulesAll(k: Kernel, fs: seq<Entry>)
    requires forall i :: 0 <= i < |fs| ==> LedgerMeaning.EntryRules(k, fs[..i], fs[i])
    ensures LedgerMeaning.AllRules(k, fs)
  {
    hide LedgerMeaning.EntryRules;
  }

  lemma TwinsAre(entries: seq<Entry>)
    ensures NoTwinsLeft(entries) <==> NoTwinsIn(Index(entries), entries)
  {
    hide TwinsLeft, Index;
  }

  /** Twins among the kept entries have one name, which no accepted bundle has twice. */
  lemma TwinsRefused(k: Kernel, m: Renaming, execution: string, entries: seq<Entry>, fs: seq<Entry>, i: nat, j: nat)
    requires Hung(Index(entries), m, execution, entries, fs) && |KeptOf(entries)| == |fs| && AllEmitted(k, execution, fs)
    requires i < j < |entries| && TwinsLeft(Index(entries), entries[i], entries[j])
    ensures !LedgerMeaning.AllRules(k, fs)
  {
    hide Hung, KeptOf, Index, Imaged, LedgerMeaning.EntryRules, WellNamed, Create, LeftBehind;
    assert Kept(entries[i]) && Kept(entries[j]);
    var g := KeptAt(entries, i);
    var h := KeptAt(entries, j);
    KeptRises(entries, i, j, g, h);
    HungAt(Index(entries), m, execution, entries, fs, g);
    HungAt(Index(entries), m, execution, entries, fs, h);
    TwinsEqualForms(Index(entries), m, execution, entries[i], entries[j], fs[g], fs[h]);
    EmittedCreated(k, execution, fs, g);
    EmittedCreated(k, execution, fs, h);
    if LedgerMeaning.AllRules(k, fs) { AllWellNamed(k, fs); WellNamedAt(k, fs, g, h); }
  }

  lemma KeptRises(entries: seq<Entry>, i: nat, j: nat, g: nat, h: nat)
    requires i < j < |entries| && Kept(entries[i]) && Kept(entries[j]) && g < |KeptOf(entries)| && h < |KeptOf(entries)|
    requires KeptOf(entries[..i]) == KeptOf(entries)[..g] && KeptOf(entries[..j]) == KeptOf(entries)[..h]
    ensures g < h
  {
    assert entries[..j][..i] == entries[..i] && entries[..j][i] == entries[i];
    KeptGrows(entries[..j], i);
  }

  /** What the walk over such a ledger returns. */
  lemma FallFreeOutput(k: Kernel, pick: Pick, execution: string, entries: seq<Entry>) returns (m: Renaming, out: seq<Entry>)
    requires CollisionFree(k) && Bounded(execution) && Accepted(k, entries) && NoWitness(entries)
    ensures WalkRun(k, pick, execution, Index(entries), entries).Some? && WalkRun(k, pick, execution, Index(entries), entries).value.replayed == out
    ensures Run(k, EMPTY, entries).Some? && LedgerMeaning.AllRules(k, entries) && WellNamed(k, entries) && WallsRise(entries)
    ensures Hung(Index(entries), m, execution, entries, out) && |KeptOf(entries)| == |out| && AllEmitted(k, execution, out)
  {
    hide *;
    AcceptedRuns(k, entries);
    LedgerMeaning.AcceptedExactly(k, entries);
    AllWellNamed(k, entries);
    WallsRiseFrom(entries);
    FallFreeWalk(k, pick, execution, entries, |entries|);
    assert entries[..|entries|] == entries;
    WalkStands(k, pick, execution, entries, |entries|);
    var w := WalkRun(k, pick, execution, Index(entries), entries).value;
    m, out := w.remapped, w.replayed;
    StandingParts(k, execution, Index(entries), entries, w);
    StandingImages(k, execution, Index(entries), entries, w);
    NothingWitnessed(out);
    IsHung(k, m, execution, entries, out);
  }

  lemma StandingImages(k: Kernel, execution: string, byId: ById, entries: seq<Entry>, w: Walk)
    requires Standing(k, execution, byId, entries, w)
    ensures AllImaged(byId, w.remapped, execution, KeptOf(entries), Witnessless(w.replayed))
  {
    hide AllEmitted, AllNamed, AllRepresented, AllImaged, DeclarationsKnown, WallsKnown, KeptOf, Witnessless;
  }

  lemma ReplayIs(k: Kernel, pick: Pick, entries: seq<Entry>, execution: string)
    requires Accepted(k, entries)
    ensures var w := WalkRun(k, pick, execution, Index(entries), entries);
            ReplayAcquisition(k, pick, entries, execution).Some? <==> w.Some? && Accepted(k, w.value.replayed)
  {
    hide Accepted, WalkRun, Index;
  }

  lemma RenewedIs(byId: ById, m: Renaming, execution: string, entries: seq<Entry>, fs: seq<Entry>)
    requires Hung(byId, m, execution, entries, fs) && NamesApart(fs[..|fs|])
    ensures Renewed(byId, m, execution, entries, fs)
  {
    hide Hung;
    assert fs[..|fs|] == fs;
  }

  lemma PreparedIs(k: Kernel, m: Renaming, execution: string, entries: seq<Entry>, fs: seq<Entry>)
    requires Run(k, EMPTY, entries).Some? && LedgerMeaning.AllRules(k, entries) && WellNamed(k, entries)
    requires Renewed(Index(entries), m, execution, entries, fs) && |KeptOf(entries)| == |fs| && AllEmitted(k, execution, fs)
    ensures Prepared(k, m, execution, entries, fs)
  {
    hide LedgerMeaning.AllRules, WellNamed, Renewed, AllEmitted, KeptOf, Run, Index;
  }

  /** The new forms of a bundle without twins are a bundle themselves. */
  lemma OutputAccepted(k: Kernel, m: Renaming, execution: string, entries: seq<Entry>, out: seq<Entry>)
    requires CollisionFree(k) && Accepted(k, entries) && NoTwinsLeft(entries)
    requires Run(k, EMPTY, entries).Some? && LedgerMeaning.AllRules(k, entries) && WellNamed(k, entries) && WallsRise(entries)
    requires Hung(Index(entries), m, execution, entries, out) && |KeptOf(entries)| == |out| && AllEmitted(k, execution, out)
    ensures Accepted(k, out)
  {
    hide *;
    TwinsAre(entries);
    AllApart(k, Index(entries), m, execution, entries, out, |out|);
    RenewedIs(Index(entries), m, execution, entries, out);
    PreparedIs(k, m, execution, entries, out);
    OutputRuns(k, m, execution, entries, out, |out|);
    RulesAll(k, out);
    AllLikeFrom(Index(entries), m, execution, entries, out);
    WallsCarried(entries, out);
    FewerKept(entries);
    LedgerMeaning.AcceptedExactly(k, entries);
    LedgerMeaning.AcceptedExactly(k, out);
  }

  /**
    However many request and failure facts a ledger has: if its wall clocks never fall, the acquisition replay
    carries it over exactly when the new name is a proper one and no two commits are left twins.
   */
  lemma ReplayDropsExactly(k: Kernel, pick: Pick, entries: seq<Entry>, execution: string)
    requires CollisionFree(k) && Accepted(k, entries) && NoWitness(entries)
    ensures ReplayAcquisition(k, pick, entries, execution).Some? <==> entries == [] || (Bounded(execution) && NoTwinsLeft(entries))
  {
    hide *;
    ReplayIs(k, pick, entries, execution);
    AcceptedRuns(k, entries);
    if entries == [] {
      WalkNothing(k, pick, execution, Index(entries));
      NothingReplayed();
    } else if WalkRun(k, pick, execution, Index(entries), entries).Some? || Bounded(execution) {
      if WalkRun(k, pick, execution, Index(entries), entries).Some? { ReplayBounded(k, pick, execution, entries); }
      var m, out := FallFreeOutput(k, pick, execution, entries);
      if NoTwinsLeft(entries) {
        OutputAccepted(k, m, execution, entries, out);
      } else {
        var i, j := SomeTwins(entries);
        TwinsRefused(k, m, execution, entries, out, i, j);
        LedgerMeaning.AcceptedExactly(k, out);
      }
    }
  }

  lemma NothingReplayed()
    ensures NO_WALK.replayed == []
  {
  }

  lemma SomeTwins(entries: seq<Entry>) returns (i: nat, j: nat)
    requires !NoTwinsLeft(entries)
    ensures i < j < |entries| && TwinsLeft(Index(entries), entries[i], entries[j])
  {
    hide TwinsLeft, Index;
    i, j :| 0 <= i < j < |entries| && TwinsLeft(Index(entries), entries[i], entries[j]);
  }
}
