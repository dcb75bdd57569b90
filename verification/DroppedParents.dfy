/**
  The parent rules, seen in a table without the dropped rows: kept entries keep them, a live commit as one
  that was recorded.
 */
module DroppedParents {
  import opened Base
  import opened ObservationLedger
  import opened LedgerInvariants
  import opened AcquisitionMeaning

  /** A part of a table: facts and clocks as they are, and of a live commit the parents that stay. */
  ghost predicate Part(part: ById, byId: ById) {
    forall x :: x in part ==> PartAt(part, byId, x)
  }

  predicate PartAt(part: ById, byId: ById, x: Id)
    requires x in part
  {
    && x in byId && FactsAt(part, x) == FactsAt(byId, x) && part[x].body.clock == byId[x].body.clock
    && (!FactsAt(byId, x).ArtifactCommitted? ==> part[x] == byId[x] && forall p :: p in part[x].body.parents ==> p in part)
  }

  predicate AllIn(part: ById, ids: seq<Id>) {
    forall x :: x in ids ==> x in part
  }

  lemma {:induction false} SelectedSame(part: ById, byId: ById, ids: seq<Id>, declarations: bool)
    requires Part(part, byId) && AllIn(part, ids)
    ensures SelectParents(part, ids, declarations) == SelectParents(byId, ids, declarations)
    ensures AllIn(part, SelectParents(part, ids, declarations)) && AllIn(byId, SelectParents(part, ids, declarations))
  {
    if ids != [] {
      assert ids[0] in ids && PartAt(part, byId, ids[0]);
      SelectedSame(part, byId, ids[1..], declarations);
    }
  }

  lemma {:induction false} KindsSame(part: ById, byId: ById, ids: seq<Id>)
    requires Part(part, byId) && AllIn(part, ids) && AllIn(byId, ids)
    ensures KindsOf(part, ids) == KindsOf(byId, ids)
  {
    if ids != [] {
      assert ids[0] in ids && PartAt(part, byId, ids[0]);
      KindsSame(part, byId, ids[1..]);
    }
  }

  lemma {:induction false} FirstKindSame(part: ById, byId: ById, ids: seq<Id>, kinds: set<Kind>)
    requires Part(part, byId) && AllIn(part, ids)
    ensures FirstOfKind(part, ids, kinds) == FirstOfKind(byId, ids, kinds)
  {
    if ids != [] {
      assert ids[0] in ids && PartAt(part, byId, ids[0]);
      FirstKindSame(part, byId, ids[1..], kinds);
    }
  }

  lemma {:induction false} FirstVerifyingSame(part: ById, byId: ById, ids: seq<Id>, link: RawLink)
    requires Part(part, byId) && AllIn(part, ids) && AllIn(byId, ids)
    ensures FirstVerifying(part, ids, link) == FirstVerifying(byId, ids, link)
  {
    if ids != [] {
      assert ids[0] in ids && PartAt(part, byId, ids[0]);
      FirstVerifyingSame(part, byId, ids[1..], link);
    }
  }

  /** The parents of a stage fact that is no commit are found alike in both tables. */
  lemma BehindSame(part: ById, byId: ById, x: Id, kinds: set<Kind>)
    requires Part(part, byId) && x in part && !FactsAt(part, x).ArtifactCommitted?
    ensures x in byId && part[x] == byId[x]
    ensures FirstOfKind(part, part[x].body.parents, kinds) == FirstOfKind(byId, byId[x].body.parents, kinds)
    ensures var found := FirstOfKind(part, part[x].body.parents, kinds); found.Some? ==> found.value in part && PartAt(part, byId, found.value)
  {
    assert PartAt(part, byId, x);
    FirstKindSame(part, byId, part[x].body.parents, kinds);
  }

  lemma LinkSame(part: ById, byId: ById, ids: seq<Id>, link: RawLink)
    requires Part(part, byId) && AllIn(part, ids) && AllIn(byId, ids)
    ensures LinkBacked(part, ids, link) <==> LinkBacked(byId, ids, link)
  {
    FirstVerifyingSame(part, byId, ids, link);
    var verified := FirstVerifying(part, ids, link);
    if verified.Some? {
      assert PartAt(part, byId, verified.value);
      BehindSame(part, byId, verified.value, {KCommitted});
    }
    hide Part, CommitsLink;
  }

  lemma CaptureSame(part: ById, byId: ById, ids: seq<Id>, s: Selection)
    requires Part(part, byId) && AllIn(part, ids) && AllIn(byId, ids)
    ensures SelectsCapture(part, ids, s) <==> SelectsCapture(byId, ids, s)
  {
    FirstKindSame(part, byId, ids, {KAppended, KRedelivered});
    var captured := FirstOfKind(part, ids, {KAppended, KRedelivered});
    if captured.Some? {
      assert PartAt(part, byId, captured.value);
      BehindSame(part, byId, captured.value, {KEmitted});
    }
    hide Part, SelectsNormalization;
  }

  lemma RetrievedSame(part: ById, byId: ById, ids: seq<Id>, basis: TrustedBasis, link: RawLink)
    requires Part(part, byId) && AllIn(part, ids) && AllIn(byId, ids)
    ensures RetrievedBy(part, ids, basis, link) <==> RetrievedBy(byId, ids, basis, link)
  {
    FirstVerifyingSame(part, byId, ids, link);
    var verified := FirstVerifying(part, ids, link);
    if verified.Some? {
      assert PartAt(part, byId, verified.value);
      BehindSame(part, byId, verified.value, {KCommitted});
    }
    hide Part, CommitsLink;
  }

  lemma RetrievalSame(part: ById, byId: ById, ids: seq<Id>, s: Selection)
    requires Part(part, byId) && AllIn(part, ids) && AllIn(byId, ids)
    ensures SelectsRetrieval(part, ids, s) <==> SelectsRetrieval(byId, ids, s)
  {
    FirstKindSame(part, byId, ids, {KEmitted});
    var normalized := FirstOfKind(part, ids, {KEmitted});
    if normalized.Some? {
      assert PartAt(part, byId, normalized.value);
      if s.basis.RetrievalBasis? {
        var link := FirstLink(FactsAt(part, normalized.value).emission.links, s.basis.role, s.basis.acquisition, s.basis.vault);
        if link.Some? { RetrievedSame(part, byId, ids, s.basis, link.value); }
      }
    }
    hide Part, RetrievedBy, SelectsNormalization, FirstLink;
  }

  lemma LinksAre(f: Facts)
    ensures f.NormalizationEmitted? ==> LinksOf(f) == f.emission.links
    ensures f.NormalizationIgnored? || f.NormalizationQuarantined? ==> LinksOf(f) == f.links
  {
  }

  lemma FactsAgreeSame(part: ById, byId: ById, ids: seq<Id>, f: Facts)
    requires Part(part, byId) && AllIn(part, ids) && AllIn(byId, ids) && KindsAgree(part, ids, f) && KindsAgree(byId, ids, f)
    ensures ParentFactsAgree(part, ids, f) <==> ParentFactsAgree(byId, ids, f)
  {
    if ids != [] { assert ids[0] in ids && PartAt(part, byId, ids[0]); }
    hide Part, LinkBacked, SelectsCapture, SelectsRetrieval, KindsAgree, StageFollows, LinksOf, CapturesEmission, ObservationOf, AcquisitionOf;
    forall l | l in LinksOf(f) ensures LinkBacked(part, ids, l) <==> LinkBacked(byId, ids, l) { LinkSame(part, byId, ids, l); }
    LinksAre(f);
    if f.SelectionRecorded? {
      CaptureSame(part, byId, ids, f.selection);
      RetrievalSame(part, byId, ids, f.selection);
    }
  }

  lemma KindsAgreeSame(part: ById, byId: ById, ids: seq<Id>, f: Facts)
    requires Part(part, byId) && AllIn(part, ids) && AllIn(byId, ids)
    ensures KindsAgree(part, ids, f) <==> KindsAgree(byId, ids, f)
    ensures SameAcquisition(part, ids, f) <==> SameAcquisition(byId, ids, f)
  {
    hide Part, RequiredKinds, KindsOf, PartAt, AcquisitionOf, HasAcquisitionField, KindOf;
    KindsSame(part, byId, ids);
    forall x | x in ids ensures FactsAt(part, x) == FactsAt(byId, x) { OnePart(part, byId, ids, x); }
    if |ids| == 1 { assert ids[0] in ids; }
  }

  /** An entry that leaves nothing behind keeps its rule in the part. */
  lemma TransitionSame(part: ById, byId: ById, e: Entry)
    requires Part(part, byId) && AllIn(part, e.body.parents) && !e.body.facts.ClockRegression? && ParentTransition(byId, e)
    ensures ParentTransition(part, e)
  {
    hide Part, SelectParents, KindsAgree, SameAcquisition, ParentFactsAgree;
    var ids := CausalIds(part, e.body.parents);
    SelectedSame(part, byId, e.body.parents, false);
    KindsAgreeSame(part, byId, ids, e.body.facts);
    FactsAgreeSame(part, byId, ids, e.body.facts);
  }

  // ----- A live commit as a recorded one -----

  /** The parents that are not left behind. */
  function Stay(byId: ById, e: Entry, ids: seq<Id>): (r: seq<Id>)
    ensures forall x :: x in r <==> x in ids && !LeftBehind(byId, e, x)
    ensures |r| <= |ids|
  {
    if ids == [] then [] else (if LeftBehind(byId, e, ids[0]) then [] else [ids[0]]) + Stay(byId, e, ids[1..])
  }

  lemma {:induction false} SelectedStay(part: ById, byId: ById, e: Entry, ids: seq<Id>)
    requires Part(part, byId) && AllIn(byId, ids) && AllIn(part, Stay(byId, e, ids))
    ensures CausalIds(part, Stay(byId, e, ids)) == Stay(byId, e, CausalIds(byId, ids))
  {
    hide *;
    if ids == [] {
      NothingStays(part, byId, e);
    } else {
      var x, rest := ids[0], ids[1..];
      assert ids == [x] + rest;
      TailIn(part, byId, e, x, rest);
      SelectedStay(part, byId, e, rest);
      StayOn(byId, e, x, rest);
      SelectOn(byId, x, rest);
      SelectOn(part, x, Stay(byId, e, rest));
      StayOn(byId, e, x, CausalIds(byId, rest));
      LeftIsCausal(byId, e, x);
      assert [] + CausalIds(byId, rest) == CausalIds(byId, rest) && [] + Stay(byId, e, rest) == Stay(byId, e, rest);
      OnePart(part, byId, ids, x);
    }
  }

  lemma NothingStays(part: ById, byId: ById, e: Entry)
    ensures CausalIds(part, Stay(byId, e, [])) == Stay(byId, e, CausalIds(byId, []))
  {
  }

  lemma TailIn(part: ById, byId: ById, e: Entry, x: Id, rest: seq<Id>)
    requires AllIn(byId, [x] + rest) && AllIn(part, Stay(byId, e, [x] + rest))
    ensures x in byId && AllIn(byId, rest) && AllIn(part, Stay(byId, e, rest)) && (!LeftBehind(byId, e, x) ==> x in part)
  {
    hide LeftBehind;
    StayOn(byId, e, x, rest);
    assert x in [x] + rest && forall y :: y in rest ==> y in [x] + rest;
    assert forall y :: y in Stay(byId, e, rest) ==> y in Stay(byId, e, [x] + rest);
  }

  lemma SelectOn(byId: ById, x: Id, rest: seq<Id>)
    ensures CausalIds(byId, [x] + rest) == (if x in byId && !FactsAt(byId, x).ClockBasisDeclared? then [x] else []) + CausalIds(byId, rest)
  {
    assert ([x] + rest)[1..] == rest;
  }

  lemma LeftIsCausal(byId: ById, e: Entry, x: Id)
    ensures LeftBehind(byId, e, x) ==> x in byId && !FactsAt(byId, x).ClockBasisDeclared?
  {
  }

  lemma StayOn(byId: ById, e: Entry, x: Id, ids: seq<Id>)
    ensures Stay(byId, e, [x] + ids) == (if LeftBehind(byId, e, x) then [] else [x]) + Stay(byId, e, ids)
  {
    assert ([x] + ids)[1..] == ids;
  }

  function AsRecorded(byId: ById, e: Entry): Entry {
    if e.body.facts.ArtifactCommitted? && e.body.facts.mode == Live
    then e.(body := e.body.(parents := Stay(byId, e, e.body.parents), facts := e.body.facts.(mode := Mode.Recorded)))
    else e
  }

  lemma LeftIs(byId: ById, e: Entry, x: Id)
    requires e.body.facts.ArtifactCommitted? && e.body.facts.mode == Live && x in byId
    ensures LeftBehind(byId, e, x) <==> KindOf(FactsAt(byId, x)) == KRequestSucceeded
  {
  }

  lemma StayTwo(byId: ById, e: Entry, a: Id, b: Id)
    ensures Stay(byId, e, [a, b]) == (if LeftBehind(byId, e, a) then [] else [a]) + (if LeftBehind(byId, e, b) then [] else [b])
  {
    assert [a, b] == [a] + [b] && [b] == [b] + [];
    StayOn(byId, e, a, [b]);
    StayOn(byId, e, b, []);
  }

  lemma TwoKinds(byId: ById, c: seq<Id>)
    requires AllIn(byId, c) && multiset(KindsOf(byId, c)) == multiset([KAcquisition, KRequestSucceeded])
    ensures |c| == 2 && c[0] in c && c[1] in c && KindOf(FactsAt(byId, c[0])) != KindOf(FactsAt(byId, c[1]))
    ensures forall x :: x in c ==> KindOf(FactsAt(byId, x)) in [KAcquisition, KRequestSucceeded]
  {
    var kinds := KindsOf(byId, c);
    PairDistinct(kinds, KAcquisition, KRequestSucceeded);
    MultisetMembers(kinds, [KAcquisition, KRequestSucceeded]);
    forall x | x in c ensures KindOf(FactsAt(byId, x)) in [KAcquisition, KRequestSucceeded] {
      var i :| 0 <= i < |c| && c[i] == x;
      assert kinds[i] in kinds;
    }
  }

  /** Of a declaration and a request, the declaration stays. */
  lemma OneStays(byId: ById, e: Entry, c: seq<Id>)
    requires e.body.facts.ArtifactCommitted? && e.body.facts.mode == Live && AllIn(byId, c)
    requires multiset(KindsOf(byId, c)) == multiset([KAcquisition, KRequestSucceeded])
    ensures var s := Stay(byId, e, c); |s| == 1 && s[0] in c && KindOf(FactsAt(byId, s[0])) == KAcquisition
  {
    hide LeftBehind, KindsOf, Stay, KindOf;
    TwoKinds(byId, c);
    assert c == [c[0], c[1]];
    LeftIs(byId, e, c[0]);
    LeftIs(byId, e, c[1]);
    StayTwo(byId, e, c[0], c[1]);
  }

  lemma LiveKinds(byId: ById, e: Entry)
    requires e.body.facts.ArtifactCommitted? && e.body.facts.mode == Live && ParentTransition(byId, e)
    ensures var causal := CausalIds(byId, e.body.parents);
            AllIn(byId, causal) && multiset(KindsOf(byId, causal)) == multiset([KAcquisition, KRequestSucceeded])
            && SameAcquisition(byId, causal, e.body.facts)
  {
    hide SelectParents, KindsOf, SameAcquisition, ParentFactsAgree;
  }

  lemma CommitRecorded(part: ById, byId: ById, e: Entry)
    requires Part(part, byId) && AllIn(byId, e.body.parents) && AllIn(part, Stay(byId, e, e.body.parents))
    requires e.body.facts.ArtifactCommitted? && e.body.facts.mode == Live && ParentTransition(byId, e)
    ensures ParentTransition(part, AsRecorded(byId, e))
  {
    hide *;
    var causal := CausalIds(byId, e.body.parents);
    LiveKinds(byId, e);
    SelectedStay(part, byId, e, e.body.parents);
    OneStays(byId, e, causal);
    var s := Stay(byId, e, causal);
    assert s == [s[0]];
    CausalKnown(part, Stay(byId, e, e.body.parents), s[0]);
    OnePart(part, byId, e.body.parents, s[0]);
    RecordedTransition(part, byId, e, s[0]);
  }

  lemma CausalKnown(byId: ById, ids: seq<Id>, x: Id)
    requires x in CausalIds(byId, ids)
    ensures x in byId
  {
  }

  lemma RecordedTransition(part: ById, byId: ById, e: Entry, a: Id)
    requires e.body.facts.ArtifactCommitted? && e.body.facts.mode == Live && a in part && a in byId
    requires CausalIds(part, Stay(byId, e, e.body.parents)) == [a] && FactsAt(part, a) == FactsAt(byId, a)
    requires KindOf(FactsAt(byId, a)) == KAcquisition && a in CausalIds(byId, e.body.parents)
    requires AllIn(byId, CausalIds(byId, e.body.parents)) && SameAcquisition(byId, CausalIds(byId, e.body.parents), e.body.facts)
    ensures ParentTransition(part, AsRecorded(byId, e))
  {
    hide SelectParents, Stay, KindsOf;
    OneKind(part, a);
  }

  lemma OnePart(part: ById, byId: ById, ids: seq<Id>, x: Id)
    requires Part(part, byId) && x in byId
    ensures x in part ==> FactsAt(part, x) == FactsAt(byId, x)
  {
    if x in part { assert PartAt(part, byId, x); }
  }

  lemma OneKind(part: ById, x: Id)
    requires x in part
    ensures KindsOf(part, [x]) == [KindOf(FactsAt(part, x))]
  {
  }

  /** A kept entry keeps its parent rule in a table without the dropped rows. */
  lemma TransitionRecorded(part: ById, byId: ById, e: Entry)
    requires Part(part, byId) && AllIn(byId, e.body.parents) && AllIn(part, Stay(byId, e, e.body.parents)) && Kept(e)
    requires ParentTransition(byId, e)
    ensures ParentTransition(part, AsRecorded(byId, e))
  {
    hide Part, ParentTransition, Stay;
    if e.body.facts.ArtifactCommitted? && e.body.facts.mode == Live {
      CommitRecorded(part, byId, e);
    } else {
      NothingLeft(byId, e, e.body.parents);
      TransitionSame(part, byId, e);
    }
  }

  lemma {:induction false} NothingLeft(byId: ById, e: Entry, ids: seq<Id>)
    requires !(e.body.facts.ArtifactCommitted? && e.body.facts.mode == Live)
    ensures Stay(byId, e, ids) == ids
  {
    if ids != [] { NothingLeft(byId, e, ids[1..]); }
  }
}
