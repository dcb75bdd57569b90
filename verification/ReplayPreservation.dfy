/**
  Renaming preserves acceptance. `Renames` relates the tables of the original run to those of the
  replayed run; each rule of the validator is shown to survive it.
 */
module ReplayPreservation {
  import opened Base
  import opened ObservationLedger
  import opened LedgerInvariants
  import opened LedgerReplay

  predicate Injective(m: Renaming) {
    forall a, b :: a in m && b in m && m[a] == m[b] ==> a == b
  }

  /** `c'` lists the new names of `c`, in any order. */
  predicate BagRenamed(m: Renaming, c: seq<Id>, c': seq<Id>) {
    && (forall p :: p in c ==> p in m)
    && multiset(c') == multiset(MapIds(m, c))
  }

  /** `f` is the renamed form of `e`. */
  predicate EntryRenamed(m: Renaming, e: Entry, f: Entry) {
    && BagRenamed(m, e.body.parents, f.body.parents)
    && f.body.clock == e.body.clock
    && FactsResolve(m, e.body.facts)
    && f.body.facts == MapFacts(m, e.body.facts)
  }

  /** The renaming covers both tables one to one and keeps the kind of every entry. */
  predicate SameShape(m: Renaming, byId: ById, byId': ById) {
    && m.Keys == byId.Keys
    && Injective(m)
    && (forall x {:trigger m[x]} :: x in m ==> m[x] in byId' && KindOf(FactsAt(byId', m[x])) == KindOf(FactsAt(byId, x)))
    && (forall y :: y in byId' ==> exists x :: x in m && m[x] == y)
  }

  predicate Renames(m: Renaming, byId: ById, byId': ById) {
    && SameShape(m, byId, byId')
    && (forall x {:trigger m[x]} :: x in m ==> byId[x].id == x && byId'[m[x]].id == m[x] && EntryRenamed(m, byId[x], byId'[m[x]]))
  }

  // ----- Multisets under an injective renaming -----

  lemma {:induction false} MapIdsCount(m: Renaming, ids: seq<Id>, x: Id)
    requires Injective(m) && x in m && forall p :: p in ids ==> p in m
    ensures multiset(MapIds(m, ids))[m[x]] == multiset(ids)[x]
  {
    if ids != [] {
      HeadBag(ids);
      MapIdsCount(m, ids[1..], x);
      assert m[ids[0]] == m[x] <==> ids[0] == x;
    }
  }

  lemma MapIdsImage(m: Renaming, ids: seq<Id>, y: Id)
    requires forall p :: p in ids ==> p in m
    ensures y in MapIds(m, ids) <==> exists x :: x in ids && m[x] == y
  {
    var r := MapIds(m, ids);
    if y in r {
      var i :| 0 <= i < |r| && r[i] == y;
      assert ids[i] in ids && m[ids[i]] == y;
    }
    if exists x :: x in ids && m[x] == y {
      var x :| x in ids && m[x] == y;
      var i :| 0 <= i < |ids| && ids[i] == x;
      assert r[i] == y;
    }
  }

  lemma MapIdsPermutation(m: Renaming, a: seq<Id>, b: seq<Id>)
    requires Injective(m) && multiset(a) == multiset(b) && forall p :: p in a ==> p in m
    ensures forall p :: p in b ==> p in m
    ensures multiset(MapIds(m, a)) == multiset(MapIds(m, b))
  {
    hide MapIds;
    MultisetMembers(a, b);
    forall y ensures multiset(MapIds(m, a))[y] == multiset(MapIds(m, b))[y] {
      if x :| x in m && m[x] == y {
        MapIdsCount(m, a, x);
        MapIdsCount(m, b, x);
      } else {
        MapIdsImage(m, a, y);
        MapIdsImage(m, b, y);
        assert y !in MapIds(m, a) && y !in MapIds(m, b);
      }
    }
  }

  lemma SelectWithin(m: Renaming, byId: ById, ids: seq<Id>, declarations: bool)
    requires m.Keys == byId.Keys
    ensures forall p :: p in SelectParents(byId, ids, declarations) ==> p in m
  {
  }

  lemma SelectCountInside(m: Renaming, byId: ById, byId': ById, ids: seq<Id>, ids': seq<Id>, declarations: bool, x: Id)
    requires Injective(m) && BagRenamed(m, ids, ids') && x in m
    requires Selected(byId, x, declarations) == Selected(byId', m[x], declarations)
    requires forall p :: p in SelectParents(byId, ids, declarations) ==> p in m
    ensures multiset(SelectParents(byId', ids', declarations))[m[x]] == multiset(MapIds(m, SelectParents(byId, ids, declarations)))[m[x]]
  {
    var c := SelectParents(byId, ids, declarations);
    calc {
      multiset(SelectParents(byId', ids', declarations))[m[x]];
      { SelectCount(byId', ids', declarations, m[x]); }
      if Selected(byId', m[x], declarations) then multiset(ids')[m[x]] else 0;
      { MapIdsCount(m, ids, x); }
      if Selected(byId, x, declarations) then multiset(ids)[x] else 0;
      { SelectCount(byId, ids, declarations, x); }
      multiset(SelectParents(byId, ids, declarations))[x];
      { MapIdsCount(m, c, x); }
      multiset(MapIds(m, c))[m[x]];
    }
  }

  lemma SelectCountOutside(m: Renaming, byId: ById, byId': ById, ids: seq<Id>, ids': seq<Id>, declarations: bool, y: Id)
    requires SameShape(m, byId, byId') && y !in byId'
    requires forall p :: p in SelectParents(byId, ids, declarations) ==> p in m
    ensures multiset(SelectParents(byId', ids', declarations))[y] == multiset(MapIds(m, SelectParents(byId, ids, declarations)))[y]
  {
    SelectCount(byId', ids', declarations, y);
    MapIdsImage(m, SelectParents(byId, ids, declarations), y);
    assert y !in MapIds(m, SelectParents(byId, ids, declarations));
  }

  lemma SelectCountRenamed(m: Renaming, byId: ById, byId': ById, ids: seq<Id>, ids': seq<Id>, declarations: bool, y: Id)
    requires SameShape(m, byId, byId') && BagRenamed(m, ids, ids')
    requires forall p :: p in SelectParents(byId, ids, declarations) ==> p in m
    ensures multiset(SelectParents(byId', ids', declarations))[y] == multiset(MapIds(m, SelectParents(byId, ids, declarations)))[y]
  {
    hide SelectParents, MapIds, BagRenamed;
    if y in byId' {
      var x :| x in m && m[x] == y;
      SelectCountInside(m, byId, byId', ids, ids', declarations, x);
    } else {
      SelectCountOutside(m, byId, byId', ids, ids', declarations, y);
    }
  }

  /** The causal (or clock) parents of a renamed entry are the renamed causal (or clock) parents. */
  lemma SelectRenamed(m: Renaming, byId: ById, byId': ById, ids: seq<Id>, ids': seq<Id>, declarations: bool)
    requires SameShape(m, byId, byId') && BagRenamed(m, ids, ids')
    requires forall p :: p in SelectParents(byId, ids, declarations) ==> p in m
    ensures multiset(SelectParents(byId', ids', declarations)) == multiset(MapIds(m, SelectParents(byId, ids, declarations)))
  {
    hide *;
    forall y
      ensures multiset(SelectParents(byId', ids', declarations))[y] == multiset(MapIds(m, SelectParents(byId, ids, declarations)))[y]
    {
      SelectCountRenamed(m, byId, byId', ids, ids', declarations, y);
    }
  }

  lemma BagMembers(m: Renaming, c: seq<Id>, c': seq<Id>)
    requires BagRenamed(m, c, c')
    ensures |c'| == |c|
    ensures forall x :: x in c ==> m[x] in c'
    ensures forall y :: y in c' ==> exists x :: x in c && m[x] == y
  {
    MultisetMembers(c', MapIds(m, c));
    forall x | x in c ensures m[x] in c' { MapIdsImage(m, c, m[x]); }
    forall y | y in c' ensures exists x :: x in c && m[x] == y { MapIdsImage(m, c, y); }
  }

  lemma CausalRenamed(m: Renaming, byId: ById, byId': ById, ids: seq<Id>, ids': seq<Id>)
    requires SameShape(m, byId, byId') && BagRenamed(m, ids, ids')
    ensures BagRenamed(m, CausalIds(byId, ids), CausalIds(byId', ids'))
  {
    SelectWithin(m, byId, ids, false);
    SelectRenamed(m, byId, byId', ids, ids', false);
  }

  lemma BasisRenamed(m: Renaming, byId: ById, byId': ById, ids: seq<Id>, ids': seq<Id>)
    requires SameShape(m, byId, byId') && BagRenamed(m, ids, ids')
    ensures BagRenamed(m, BasisIds(byId, ids), BasisIds(byId', ids'))
  {
    SelectWithin(m, byId, ids, true);
    SelectRenamed(m, byId, byId', ids, ids', true);
  }

  lemma SingleRenamed(m: Renaming, c: seq<Id>, c': seq<Id>)
    requires BagRenamed(m, c, c') && |c| == 1
    ensures c[0] in m && c' == [m[c[0]]]
  {
    BagMembers(m, c, c');
    assert c[0] in c;
  }

  lemma SoleRenamed(m: Renaming, byId: ById, byId': ById, x: Id)
    requires SameShape(m, byId, byId') && x in byId && SoleParent(byId, x).Some?
    requires BagRenamed(m, byId[x].body.parents, byId'[m[x]].body.parents)
    ensures SoleParent(byId, x).value in m
    ensures SoleParent(byId', m[x]) == Some(m[SoleParent(byId, x).value])
  {
    CausalRenamed(m, byId, byId', byId[x].body.parents, byId'[m[x]].body.parents);
    SingleRenamed(m, CausalIds(byId, byId[x].body.parents), CausalIds(byId', byId'[m[x]].body.parents));
  }

  // ----- Kinds -----

  lemma KindsRemoved(byId: ById, b: seq<Id>, j: nat)
    requires j < |b| && forall p :: p in b ==> p in byId
    ensures forall p :: p in b[..j] + b[j + 1..] ==> p in byId
    ensures multiset(KindsOf(byId, b)) == multiset(KindsOf(byId, b[..j] + b[j + 1..])) + multiset{KindOf(FactsAt(byId, b[j]))}
  {
    hide KindOf, FactsAt, KindsOf;
    var kb := KindsOf(byId, b);
    RemoveAt(kb, j);
    assert KindsOf(byId, b[..j] + b[j + 1..]) == kb[..j] + kb[j + 1..];
  }

  lemma {:induction false} KindsPermutation(byId: ById, a: seq<Id>, b: seq<Id>)
    requires multiset(a) == multiset(b) && forall p :: p in a ==> p in byId
    ensures forall p :: p in b ==> p in byId
    ensures multiset(KindsOf(byId, a)) == multiset(KindsOf(byId, b))
    decreases |a|
  {
    MultisetMembers(a, b);
    if a != [] {
      assert a[0] in b;
      var j :| 0 <= j < |b| && b[j] == a[0];
      var rest := b[..j] + b[j + 1..];
      HeadBag(a);
      RemoveAt(b, j);
      CancelBag(multiset(a[1..]), multiset(rest), a[0]);
      KindsPermutation(byId, a[1..], rest);
      KindsRemoved(byId, b, j);
      HeadBag(KindsOf(byId, a));
    }
  }

  lemma {:induction false} KindsMapped(m: Renaming, byId: ById, byId': ById, c: seq<Id>)
    requires SameShape(m, byId, byId') && forall p :: p in c ==> p in m
    ensures forall p :: p in MapIds(m, c) ==> p in byId'
    ensures KindsOf(byId', MapIds(m, c)) == KindsOf(byId, c)
  {
    if c != [] {
      KindsMapped(m, byId, byId', c[1..]);
      assert c[0] in c;
    }
  }

  lemma KindsRenamed(m: Renaming, byId: ById, byId': ById, c: seq<Id>, c': seq<Id>)
    requires SameShape(m, byId, byId')
    requires BagRenamed(m, c, c')
    ensures forall p :: p in c' ==> p in byId'
    ensures multiset(KindsOf(byId', c')) == multiset(KindsOf(byId, c))
  {
    KindsMapped(m, byId, byId', c);
    MultisetMembers(c', MapIds(m, c));
    KindsPermutation(byId', MapIds(m, c), c');
  }

  // ----- The parent rule, kind by kind -----

  /** Both tables around one renamed entry, with its causal parents. */
  predicate Situation(m: Renaming, byId: ById, byId': ById, c: seq<Id>, c': seq<Id>) {
    && SameShape(m, byId, byId')
    && BagRenamed(m, c, c')
    && (forall p :: p in c' ==> p in byId')
  }

  lemma KindsAgreeKept(m: Renaming, byId: ById, byId': ById, c: seq<Id>, c': seq<Id>, f: Facts, f': Facts)
    requires Situation(m, byId, byId', c, c')
    requires KindsAgree(byId, c, f)
    requires f.SelectionRecorded? <==> f'.SelectionRecorded?
    requires f.SelectionRecorded? ==> f == f'
    requires RequiredKinds(f') == RequiredKinds(f)
    ensures KindsAgree(byId', c', f')
  {
    if f.SelectionRecorded? && f.selection.byCapture {
      SingleRenamed(m, c, c');
    } else {
      KindsRenamed(m, byId, byId', c, c');
    }
  }

  /** What replay leaves alone in the facts of a parent. */
  predicate FactsKept(f: Facts, f': Facts) {
    && KindOf(f') == KindOf(f)
    && AcquisitionOf(f') == AcquisitionOf(f)
    && ObservationOf(f') == ObservationOf(f)
    && (f.ArtifactCommitted? ==> f' == f.(mode := Replay))
    && (!f.ArtifactCommitted? && !f.ClockRegression? ==> f' == f)
  }

  lemma MapFactsKept(m: Renaming, f: Facts)
    requires FactsResolve(m, f)
    ensures FactsKept(f, MapFacts(m, f))
  {
  }

  predicate ParentsKept(m: Renaming, byId: ById, byId': ById, c: seq<Id>) {
    forall x :: x in c ==> x in m && x in byId && m[x] in byId' && FactsKept(FactsAt(byId, x), FactsAt(byId', m[x]))
  }

  lemma AcquisitionKept(a: Facts, b: Facts)
    requires FactsKept(a, b)
    ensures HasAcquisitionField(a) == HasAcquisitionField(b) && AcquisitionOf(a) == AcquisitionOf(b)
  {
  }

  lemma SameAcquisitionKept(m: Renaming, byId: ById, byId': ById, c: seq<Id>, c': seq<Id>, f: Facts, f': Facts)
    requires Situation(m, byId, byId', c, c') && ParentsKept(m, byId, byId', c)
    requires AcquisitionOf(f') == AcquisitionOf(f) && SameAcquisition(byId, c, f)
    ensures SameAcquisition(byId', c', f')
  {
    hide SameShape, BagRenamed, MapIds, Injective, HasAcquisitionField, AcquisitionOf, FactsKept;
    BagMembers(m, c, c');
    forall y | y in c' && AcquisitionOf(f).Some? && HasAcquisitionField(FactsAt(byId', y))
      ensures AcquisitionOf(FactsAt(byId', y)) == AcquisitionOf(f)
    {
      var x :| x in c && m[x] == y;
      AcquisitionKept(FactsAt(byId, x), FactsAt(byId', y));
    }
  }

  lemma LinksKept(
    m: Renaming, byId: ById, byId': ById, vaultEvidence: map<Id, VaultEvidence>, c: seq<Id>, c': seq<Id>, links: seq<RawLink>)
    requires Situation(m, byId, byId', c, c') && ParentsKept(m, byId, byId', c)
    requires Sound(byId, vaultEvidence) && Sound(byId', vaultEvidence)
    requires forall l :: l in links ==> LinkBacked(byId, c, l)
    ensures forall l :: l in links ==> LinkBacked(byId', c', l)
  {
    hide KindsOf, LinkBacked, Sound, Closed, SameShape, BagRenamed, CausalIds;
    BagMembers(m, c, c');
    forall l | l in links ensures LinkBacked(byId', c', l) {
      LinkBackedMeaning(byId, vaultEvidence, c, l);
      var x :| x in c && VerifiesLink(FactsAt(byId, x), l);
      assert VerifiesLink(FactsAt(byId', m[x]), l);
      LinkBackedMeaning(byId', vaultEvidence, c', l);
    }
  }

  /** With one parent of each of two kinds, a kind on one side names its bearer on the other. */
  lemma BearerRenamed(m: Renaming, byId: ById, byId': ById, c: seq<Id>, c': seq<Id>, a: Kind, b: Kind, x: Id, y: Id)
    requires Situation(m, byId, byId', c, c')
    requires a != b && multiset(KindsOf(byId, c)) == multiset([a, b])
    requires x in c && y in c' && KindOf(FactsAt(byId', y)) == KindOf(FactsAt(byId, x))
    ensures y == m[x]
  {
    BagMembers(m, c, c');
    var z :| z in c && m[z] == y;
    PairOfKinds(byId, c, a, b, x, z);
  }

  lemma KindPresent(byId: ById, c: seq<Id>, kinds: seq<Kind>, b: Kind)
    requires forall x :: x in c ==> x in byId
    requires multiset(KindsOf(byId, c)) == multiset(kinds) && b in kinds
    ensures FirstOfKind(byId, c, {b}).Some?
  {
    var found := KindsOf(byId, c);
    MultisetMembers(found, kinds);
    var i :| 0 <= i < |found| && found[i] == b;
    assert c[i] in c;
  }

  lemma FirstOfKindRenamed(m: Renaming, byId: ById, byId': ById, c: seq<Id>, c': seq<Id>, a: Kind, b: Kind)
    requires Situation(m, byId, byId', c, c')
    requires a != b && multiset(KindsOf(byId, c)) == multiset([a, b])
    ensures FirstOfKind(byId, c, {b}).Some?
    ensures FirstOfKind(byId, c, {b}).value in m
    ensures FirstOfKind(byId', c', {b}) == Some(m[FirstOfKind(byId, c, {b}).value])
  {
    hide KindsOf, FirstOfKind, KindOf, Injective, MapIds;
    KindPresent(byId, c, [a, b], b);
    var x := FirstOfKind(byId, c, {b}).value;
    assert x in c;
    BagMembers(m, c, c');
    forall y | y in c' && KindOf(FactsAt(byId', y)) == b ensures y == m[x] {
      BearerRenamed(m, byId, byId', c, c', a, b, x, y);
    }
    FirstUnique(byId', c', {b}, m[x]);
  }

  lemma VerifyingRenamed(m: Renaming, byId: ById, byId': ById, c: seq<Id>, c': seq<Id>, link: RawLink, b: Kind, x: Id, y: Id)
    requires Situation(m, byId, byId', c, c')
    requires b != KVerified && multiset(KindsOf(byId, c)) == multiset([KVerified, b])
    requires x in c && VerifiesLink(FactsAt(byId, x), link)
    requires y in c' && VerifiesLink(FactsAt(byId', y), link)
    ensures y == m[x]
  {
    hide KindsOf, MapIds;
    assert KindOf(FactsAt(byId', y)) == KVerified == KindOf(FactsAt(byId, x));
    BearerRenamed(m, byId, byId', c, c', KVerified, b, x, y);
  }

  lemma FirstVerifyingRenamed(m: Renaming, byId: ById, byId': ById, c: seq<Id>, c': seq<Id>, link: RawLink, b: Kind, x: Id)
    requires Situation(m, byId, byId', c, c')
    requires b != KVerified && multiset(KindsOf(byId, c)) == multiset([KVerified, b])
    requires FirstVerifying(byId, c, link) == Some(x)
    requires VerifiesLink(FactsAt(byId', m[x]), link)
    ensures FirstVerifying(byId', c', link) == Some(m[x])
  {
    assert m[x] in c' by { BagMembers(m, c, c'); }
    var found := FirstVerifying(byId', c', link);
    if found.Some? {
      VerifyingRenamed(m, byId, byId', c, c', link, b, x, found.value);
    }
  }

  lemma CommitBehindRenamed(m: Renaming, byId: ById, byId': ById, v: Id, commit: Id)
    requires SameShape(m, byId, byId') && v in m && FactsAt(byId, v).ArtifactVerified? && FactsAt(byId', m[v]).ArtifactVerified?
    requires BagRenamed(m, byId[v].body.parents, byId'[m[v]].body.parents)
    requires VerifiedFromCommit(byId, v) && VerifiedFromCommit(byId', m[v])
    requires FirstOfKind(byId, byId[v].body.parents, {KCommitted}) == Some(commit)
    ensures commit in m
    ensures FirstOfKind(byId', byId'[m[v]].body.parents, {KCommitted}) == Some(m[commit])
  {
    CommitBehind(byId, v);
    CommitBehind(byId', m[v]);
    SoleRenamed(m, byId, byId', v);
  }

  predicate EntryKept(m: Renaming, byId: ById, byId': ById, x: Id) {
    && x in m && x in byId && m[x] in byId'
    && FactsKept(FactsAt(byId, x), FactsAt(byId', m[x]))
    && byId'[m[x]].body.clock == byId[x].body.clock
    && BagRenamed(m, byId[x].body.parents, byId'[m[x]].body.parents)
    && VerifiedFromCommit(byId, x) && VerifiedFromCommit(byId', m[x])
    && CapturedFromEmission(byId, x) && CapturedFromEmission(byId', m[x])
  }

  ghost predicate AllKept(m: Renaming, byId: ById, byId': ById) {
    forall x {:trigger EntryKept(m, byId, byId', x)} :: x in byId ==> EntryKept(m, byId, byId', x)
  }

  lemma RetrievedByKept(m: Renaming, byId: ById, byId': ById, c: seq<Id>, c': seq<Id>, basis: TrustedBasis, link: RawLink)
    requires Situation(m, byId, byId', c, c')
    requires multiset(KindsOf(byId, c)) == multiset([KVerified, KEmitted])
    requires RetrievedBy(byId, c, basis, link)
    requires AllKept(m, byId, byId')
    ensures RetrievedBy(byId', c', basis, link)
  {
    var v := FirstVerifying(byId, c, link).value;
    var commit := FirstOfKind(byId, byId[v].body.parents, {KCommitted}).value;
    assert EntryKept(m, byId, byId', v);
    assert EntryKept(m, byId, byId', commit);
    FirstVerifyingRenamed(m, byId, byId', c, c', link, KEmitted, v);
    CommitBehindRenamed(m, byId, byId', v, commit);
  }

  lemma EmissionKept(m: Renaming, byId: ById, byId': ById, n: Id)
    requires AllKept(m, byId, byId') && n in byId && FactsAt(byId, n).NormalizationEmitted?
    ensures n in m && m[n] in byId' && FactsAt(byId', m[n]) == FactsAt(byId, n)
  {
    assert EntryKept(m, byId, byId', n);
  }

  lemma SelectsRetrievalParts(byId: ById, c: seq<Id>, s: Selection) returns (n: Id, emission: Emission, link: RawLink)
    requires forall x :: x in c ==> x in byId
    requires SelectsRetrieval(byId, c, s)
    ensures n in byId && FirstOfKind(byId, c, {KEmitted}) == Some(n)
    ensures FactsAt(byId, n) == NormalizationEmitted(emission) && SelectsNormalization(s, emission) && s.basis.RetrievalBasis?
    ensures FirstLink(emission.links, s.basis.role, s.basis.acquisition, s.basis.vault) == Some(link)
    ensures RetrievedBy(byId, c, s.basis, link)
  {
    n := FirstOfKind(byId, c, {KEmitted}).value;
    emission := FactsAt(byId, n).emission;
    link := FirstLink(emission.links, s.basis.role, s.basis.acquisition, s.basis.vault).value;
  }

  lemma SelectsRetrievalFrom(byId: ById, c: seq<Id>, s: Selection, n: Id, emission: Emission, link: RawLink)
    requires forall x :: x in c ==> x in byId
    requires n in byId && FirstOfKind(byId, c, {KEmitted}) == Some(n)
    requires FactsAt(byId, n) == NormalizationEmitted(emission) && SelectsNormalization(s, emission) && s.basis.RetrievalBasis?
    requires FirstLink(emission.links, s.basis.role, s.basis.acquisition, s.basis.vault) == Some(link)
    requires RetrievedBy(byId, c, s.basis, link)
    ensures SelectsRetrieval(byId, c, s)
  {
  }

  lemma SelectsRetrievalKept(m: Renaming, byId: ById, byId': ById, c: seq<Id>, c': seq<Id>, s: Selection)
    requires Situation(m, byId, byId', c, c')
    requires multiset(KindsOf(byId, c)) == multiset([KVerified, KEmitted])
    requires SelectsRetrieval(byId, c, s)
    requires AllKept(m, byId, byId')
    ensures SelectsRetrieval(byId', c', s)
  {
    hide KindsOf, RetrievedBy, SelectsRetrieval, SelectsNormalization, EntryKept, MapIds, Injective;
    var n, emission, link := SelectsRetrievalParts(byId, c, s);
    RetrievedByKept(m, byId, byId', c, c', s.basis, link);
    FirstOfKindRenamed(m, byId, byId', c, c', KVerified, KEmitted);
    EmissionKept(m, byId, byId', n);
    SelectsRetrievalFrom(byId', c', s, m[n], emission, link);
  }

  lemma SelectsCaptureKept(m: Renaming, byId: ById, byId': ById, c: seq<Id>, c': seq<Id>, s: Selection)
    requires Situation(m, byId, byId', c, c')
    requires |c| == 1 && IsCapture(FactsAt(byId, c[0])) && SelectsCapture(byId, c, s)
    requires AllKept(m, byId, byId')
    ensures SelectsCapture(byId', c', s)
  {
    hide KindsOf, SameShape, VerifiedFromCommit, FirstVerifying, SelectParents;
    var x := c[0];
    SingleRenamed(m, c, c');
    assert EntryKept(m, byId, byId', x);
    EmissionBehind(byId, x);
    EmissionBehind(byId', m[x]);
    SoleRenamed(m, byId, byId', x);
    assert EntryKept(m, byId, byId', SoleParent(byId, x).value);
    FirstUnique(byId, c, {KAppended, KRedelivered}, x);
    FirstUnique(byId', c', {KAppended, KRedelivered}, m[x]);
  }

  lemma ClockKept(m: Renaming, byId: ById, byId': ById, x: Id)
    requires AllKept(m, byId, byId') && x in byId
    ensures x in m && m[x] in byId' && byId'[m[x]].body.clock == byId[x].body.clock
  {
    assert EntryKept(m, byId, byId', x);
  }

  lemma PairRenamed(m: Renaming, c: seq<Id>, c': seq<Id>, a: Id, b: Id)
    requires Injective(m) && BagRenamed(m, c, c') && a in m && b in m
    requires multiset(c) == multiset{a, b}
    ensures multiset(c') == multiset{m[a], m[b]}
  {
    MapIdsPermutation(m, c, [a, b]);
    assert MapIds(m, [a, b]) == [m[a], m[b]];
  }

  lemma RegressionNames(m: Renaming, byId: ById, c: seq<Id>, e: Entry)
    requires e.body.facts.ClockRegression? && FactsResolve(m, e.body.facts) && RegressionBacked(byId, c, e)
    ensures e.body.facts.prior in m && e.body.facts.regressing in m && e.body.facts.prior in byId && e.body.facts.regressing in byId
    ensures multiset(c) == multiset{e.body.facts.prior, e.body.facts.regressing}
  {
  }

  lemma RegressionKept(m: Renaming, byId: ById, byId': ById, c: seq<Id>, c': seq<Id>, e: Entry, f: Entry)
    requires Injective(m) && BagRenamed(m, c, c') && AllKept(m, byId, byId')
    requires e.body.facts.ClockRegression? && FactsResolve(m, e.body.facts)
    requires f.body.facts == MapFacts(m, e.body.facts) && f.body.clock == e.body.clock
    requires RegressionBacked(byId, c, e)
    ensures RegressionBacked(byId', c', f)
  {
    hide Injective, BagRenamed, AllKept, MapIds;
    RegressionNames(m, byId, c, e);
    PairRenamed(m, c, c', e.body.facts.prior, e.body.facts.regressing);
    ClockKept(m, byId, byId', e.body.facts.prior);
    ClockKept(m, byId, byId', e.body.facts.regressing);
  }

  lemma SingleParentKept(m: Renaming, byId: ById, byId': ById, c: seq<Id>, c': seq<Id>, kind: Kind)
    requires Situation(m, byId, byId', c, c') && ParentsKept(m, byId, byId', c)
    requires multiset(KindsOf(byId, c)) == multiset([kind])
    ensures |c| == 1 && c[0] in m && c' == [m[c[0]]]
    ensures FactsKept(FactsAt(byId, c[0]), FactsAt(byId', c'[0]))
  {
    SingleKind(byId, c, kind);
    assert c[0] in c;
    SingleRenamed(m, c, c');
  }

  lemma SelectionKept(m: Renaming, byId: ById, byId': ById, c: seq<Id>, c': seq<Id>, s: Selection)
    requires Situation(m, byId, byId', c, c') && AllKept(m, byId, byId')
    requires KindsAgree(byId, c, SelectionRecorded(s)) && SelectionBacked(byId, c, s)
    ensures SelectionBacked(byId', c', s)
  {
    hide SelectsCapture, SelectsRetrieval, AllKept, SameShape, BagRenamed, SelectParents;
    if s.byCapture {
      SelectsCaptureKept(m, byId, byId', c, c', s);
    } else {
      SelectsRetrievalKept(m, byId, byId', c, c', s);
    }
  }

  lemma NormalizationKept(
    m: Renaming, byId: ById, byId': ById, vaultEvidence: map<Id, VaultEvidence>, c: seq<Id>, c': seq<Id>, f: Facts)
    requires Situation(m, byId, byId', c, c') && ParentsKept(m, byId, byId', c)
    requires Sound(byId, vaultEvidence) && Sound(byId', vaultEvidence)
    requires IsNormalization(f) && KindsAgree(byId, c, f) && ParentFactsAgree(byId, c, f) && KindsAgree(byId', c', f)
    ensures ParentFactsAgree(byId', c', f)
  {
    LinksKept(m, byId, byId', vaultEvidence, c, c', LinksOf(f));
  }

  lemma SingleStageKind(byId: ById, c: seq<Id>, f: Facts)
    requires (forall x :: x in c ==> x in byId) && KindsAgree(byId, c, f)
    requires f.ArtifactVerified? || IsCapture(f) || f.FailureRecorded?
    ensures multiset(KindsOf(byId, c)) == multiset([if f.ArtifactVerified? then KCommitted else if IsCapture(f) then KEmitted else f.failedAfter])
  {
    hide KindsOf, FactsAt, KindOf;
  }

  lemma SingleStageKept(m: Renaming, byId: ById, byId': ById, c: seq<Id>, c': seq<Id>, f: Facts)
    requires Situation(m, byId, byId', c, c') && ParentsKept(m, byId, byId', c)
    requires f.ArtifactVerified? || IsCapture(f) || f.FailureRecorded?
    requires KindsAgree(byId, c, f) && ParentFactsAgree(byId, c, f) && KindsAgree(byId', c', f)
    ensures ParentFactsAgree(byId', c', f)
  {
    hide KindsOf, Situation, SameShape, BagRenamed, LinkBacked, SelectionBacked, KindsAgree;
    SingleStageKind(byId, c, f);
    SingleParentKept(m, byId, byId', c, c', if f.ArtifactVerified? then KCommitted else if IsCapture(f) then KEmitted else f.failedAfter);
  }

  lemma ParentFactsKept(
    m: Renaming, byId: ById, byId': ById, vaultEvidence: map<Id, VaultEvidence>, c: seq<Id>, c': seq<Id>, f: Facts, f': Facts)
    requires Situation(m, byId, byId', c, c') && ParentsKept(m, byId, byId', c) && AllKept(m, byId, byId')
    requires Sound(byId, vaultEvidence) && Sound(byId', vaultEvidence)
    requires !f.ClockRegression? && (f' == f || (f.ArtifactCommitted? && f'.ArtifactCommitted?))
    requires KindsAgree(byId, c, f) && ParentFactsAgree(byId, c, f)
    requires KindsAgree(byId', c', f')
    ensures ParentFactsAgree(byId', c', f')
  {
    hide Sound, AllKept, ParentsKept, Situation, KindsAgree, SelectionBacked, FailureBacked, LinkBacked;
    if IsNormalization(f) {
      NormalizationKept(m, byId, byId', vaultEvidence, c, c', f);
    } else if f.SelectionRecorded? {
      SelectionKept(m, byId, byId', c, c', f.selection);
    } else if f.ArtifactVerified? || IsCapture(f) || f.FailureRecorded? {
      SingleStageKept(m, byId, byId', c, c', f);
    }
  }

  // ----- The tables of both runs -----

  /** Everything proved about one renamed pair of tables. */
  ghost predicate Tracks(m: Renaming, byId: ById, byId': ById, vaultEvidence: map<Id, VaultEvidence>) {
    && Renames(m, byId, byId')
    && Sound(byId, vaultEvidence)
    && Sound(byId', vaultEvidence)
  }

  lemma TracksAllKept(m: Renaming, byId: ById, byId': ById, vaultEvidence: map<Id, VaultEvidence>)
    requires Tracks(m, byId, byId', vaultEvidence)
    ensures AllKept(m, byId, byId')
  {
    hide FactsKept, BagRenamed, VerifiedFromCommit, CapturedFromEmission, EvidenceRecorded, MapFacts, Injective;
    forall x | x in byId ensures EntryKept(m, byId, byId', x) {
      assert m[x] in byId';
      MapFactsKept(m, FactsAt(byId, x));
    }
  }

  lemma AllParentsKept(m: Renaming, byId: ById, byId': ById, c: seq<Id>)
    requires AllKept(m, byId, byId') && forall x :: x in c ==> x in byId
    ensures ParentsKept(m, byId, byId', c)
  {
    hide FactsKept, BagRenamed, VerifiedFromCommit, CapturedFromEmission;
    forall x | x in c ensures x in m && m[x] in byId' && FactsKept(FactsAt(byId, x), FactsAt(byId', m[x])) {
      assert EntryKept(m, byId, byId', x);
    }
  }

  lemma CausalSituation(m: Renaming, byId: ById, byId': ById, ids: seq<Id>, ids': seq<Id>)
    requires SameShape(m, byId, byId') && BagRenamed(m, ids, ids')
    ensures Situation(m, byId, byId', CausalIds(byId, ids), CausalIds(byId', ids'))
  {
    CausalRenamed(m, byId, byId', ids, ids');
  }

  lemma FactsStayOfKind(m: Renaming, f: Facts)
    requires FactsResolve(m, f) && (f.ArtifactCommitted? ==> f.mode != Live)
    ensures RequiredKinds(MapFacts(m, f)) == RequiredKinds(f)
    ensures AcquisitionOf(MapFacts(m, f)) == AcquisitionOf(f)
    ensures f.SelectionRecorded? <==> MapFacts(m, f).SelectionRecorded?
    ensures f.ClockRegression? <==> MapFacts(m, f).ClockRegression?
    ensures !f.ClockRegression? ==> MapFacts(m, f) == f || (f.ArtifactCommitted? && MapFacts(m, f).ArtifactCommitted?)
  {
  }

  /** The parent rule survives renaming. */
  lemma ParentTransitionKept(m: Renaming, byId: ById, byId': ById, vaultEvidence: map<Id, VaultEvidence>, e: Entry, f: Entry)
    requires Tracks(m, byId, byId', vaultEvidence)
    requires EntryRenamed(m, e, f)
    requires e.body.facts.ArtifactCommitted? ==> e.body.facts.mode != Live
    requires ParentTransition(byId, e)
    ensures ParentTransition(byId', f)
  {
    hide FactsKept, BagRenamed, RequiredKinds, KindsAgree, SameAcquisition, ParentFactsAgree, RegressionBacked, Sound, MapFacts,
      SameShape, Injective, MapIds, SelectParents, AllKept, ParentsKept, Situation;
    var c, c' := CausalIds(byId, e.body.parents), CausalIds(byId', f.body.parents);
    FactsStayOfKind(m, e.body.facts);
    TracksAllKept(m, byId, byId', vaultEvidence);
    CausalSituation(m, byId, byId', e.body.parents, f.body.parents);
    AllParentsKept(m, byId, byId', c);
    if e.body.facts.ClockRegression? {
      SituationBag(m, byId, byId', c, c');
      RegressionKept(m, byId, byId', c, c', e, f);
    } else {
      KindsAgreeKept(m, byId, byId', c, c', e.body.facts, f.body.facts);
      SameAcquisitionKept(m, byId, byId', c, c', e.body.facts, f.body.facts);
      ParentFactsKept(m, byId, byId', vaultEvidence, c, c', e.body.facts, f.body.facts);
    }
  }

  lemma SituationBag(m: Renaming, byId: ById, byId': ById, c: seq<Id>, c': seq<Id>)
    requires Situation(m, byId, byId', c, c')
    ensures Injective(m) && BagRenamed(m, c, c')
  {
  }
}
