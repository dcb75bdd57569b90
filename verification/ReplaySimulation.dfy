/**
  The original and the replayed validator run, side by side: one round of both keeps every table of
  the second the renamed form of the first, as long as the new entry is not a second copy of a
  commit under another acquisition mode.
 */
module ReplaySimulation {
  import opened Base
  import opened ObservationLedger
  import opened LedgerInvariants
  import opened LedgerReplay
  import opened ReplayPreservation

  // ----- Extending the renaming by one entry -----

  lemma {:induction false} MapIdsStable(m: Renaming, ids: seq<Id>, x: Id, y: Id)
    requires x !in m && forall p :: p in ids ==> p in m
    ensures MapIds(m[x := y], ids) == MapIds(m, ids)
  {
    if ids != [] { MapIdsStable(m, ids[1..], x, y); }
  }

  lemma BagStable(m: Renaming, c: seq<Id>, c': seq<Id>, x: Id, y: Id)
    requires x !in m && BagRenamed(m, c, c')
    ensures BagRenamed(m[x := y], c, c')
  {
    MapIdsStable(m, c, x, y);
  }

  lemma EntryRenamedStable(m: Renaming, a: Entry, b: Entry, x: Id, y: Id)
    requires x !in m && EntryRenamed(m, a, b)
    ensures EntryRenamed(m[x := y], a, b)
  {
    BagStable(m, a.body.parents, b.body.parents, x, y);
  }

  lemma RenamesGrows(m: Renaming, byId: ById, byId': ById, e: Entry, f: Entry)
    requires Renames(m, byId, byId') && EntryRenamed(m, e, f)
    requires e.id !in byId && f.id !in byId'
    ensures Renames(m[e.id := f.id], byId[e.id := e], byId'[f.id := f])
  {
    hide BagRenamed, MapIds, MapFacts, FactsResolve, EntryRenamed;
    var m1, grown, grown' := m[e.id := f.id], byId[e.id := e], byId'[f.id := f];
    EntryRenamedStable(m, e, f, e.id, f.id);
    KindRenamed(m, e, f);
    assert forall x :: x in m ==> m[x] != f.id;
    forall x | x in m1
      ensures m1[x] in grown' && KindOf(FactsAt(grown', m1[x])) == KindOf(FactsAt(grown, x))
      ensures grown[x].id == x && grown'[m1[x]].id == m1[x] && EntryRenamed(m1, grown[x], grown'[m1[x]])
    {
      if x != e.id {
        assert m[x] in byId';
        EntryRenamedStable(m, byId[x], byId'[m[x]], e.id, f.id);
      }
    }
    forall y | y in grown' ensures exists x :: x in m1 && m1[x] == y {
      if y == f.id {
        assert m1[e.id] == y;
      } else {
        var x :| x in m && m[x] == y;
        assert m1[x] == y;
      }
    }
  }

  lemma KindRenamed(m: Renaming, e: Entry, f: Entry)
    requires EntryRenamed(m, e, f)
    ensures KindOf(f.body.facts) == KindOf(e.body.facts)
  {
  }

  // ----- Fresh names -----

  /** Two commits that agree on everything but a difference of acquisition mode. */
  predicate ModeTwins(a: Entry, b: Entry) {
    && a.body.facts.ArtifactCommitted? && b.body.facts.ArtifactCommitted?
    && a.body.facts.mode != b.body.facts.mode
    && a.body.facts.(mode := Replay) == b.body.facts.(mode := Replay)
    && a.body.parents == b.body.parents
    && a.body.clock == b.body.clock
  }

  /** Every entry of the table is well formed, carries its own hash and one execution identity. */
  ghost predicate Named(k: Kernel, execution: Option<string>, byId: ById) {
    forall x :: x in byId ==>
      byId[x].id == x && Create(k, byId[x].body) == Some(byId[x]) && execution == Some(byId[x].body.execution)
  }

  lemma MapFactsInjective(m: Renaming, f: Facts, g: Facts)
    requires Injective(m) && FactsResolve(m, f) && FactsResolve(m, g)
    requires MapFacts(m, f) == MapFacts(m, g)
    ensures f == g || (f.ArtifactCommitted? && g.ArtifactCommitted? && f.mode != g.mode && f.(mode := Replay) == g.(mode := Replay))
  {
  }

  lemma SameParents(m: Renaming, a: seq<Id>, b: seq<Id>, a': seq<Id>)
    requires Injective(m) && StrictlyAscending(a) && StrictlyAscending(b)
    requires BagRenamed(m, a, a') && BagRenamed(m, b, a')
    ensures a == b
  {
    BagMembers(m, a, a');
    BagMembers(m, b, a');
    hide BagRenamed;
    forall x ensures x in a <==> x in b {
      if x in a { assert m[x] in a'; }
      if x in b { assert m[x] in a'; }
    }
    AscendingUnique(a, b);
  }

  lemma FreshName(k: Kernel, m: Renaming, g: Graph, g': Graph, e: Entry, f: Entry)
    requires CollisionFree(k)
    requires Renames(m, g.byId, g'.byId) && EntryRenamed(m, e, f)
    requires Named(k, g.execution, g.byId) && Named(k, g'.execution, g'.byId)
    requires GraphOk(k, g, e) && f.id == k.hash(f.body)
    requires forall x :: x in g.byId ==> !ModeTwins(g.byId[x], e)
    ensures f.id !in g'.byId
  {
    if f.id in g'.byId {
      var x :| x in m && m[x] == f.id;
      var a, b := g.byId[x], g'.byId[f.id];
      assert EntryRenamed(m, a, b);
      assert k.hash(b.body) == k.hash(f.body);
      assert b.body == f.body;
      SameParents(m, a.body.parents, e.body.parents, f.body.parents);
      MapFactsInjective(m, a.body.facts, e.body.facts);
      assert false;
    }
  }

  // ----- Depth -----

  function DepthAt(depths: map<Id, nat>, x: Id): nat {
    if x in depths then depths[x] else 0
  }

  lemma {:induction false} MaxDepthIsMax(depths: map<Id, nat>, ids: seq<Id>)
    ensures forall x :: x in ids ==> DepthAt(depths, x) <= MaxDepth(depths, ids)
    ensures ids != [] ==> exists x :: x in ids && DepthAt(depths, x) == MaxDepth(depths, ids)
  {
    if ids != [] {
      MaxDepthIsMax(depths, ids[1..]);
      assert ids[0] in ids;
      if MaxDepth(depths, ids) != DepthAt(depths, ids[0]) && ids[1..] != [] {
        var x :| x in ids[1..] && DepthAt(depths, x) == MaxDepth(depths, ids[1..]);
        assert x in ids;
      }
    }
  }

  predicate DepthsRenamed(m: Renaming, depths: map<Id, nat>, depths': map<Id, nat>) {
    && depths.Keys == m.Keys
    && forall x {:trigger m[x]} :: x in m ==> m[x] in depths' && depths'[m[x]] == depths[x]
  }

  lemma DepthKept(m: Renaming, depths: map<Id, nat>, depths': map<Id, nat>, ids: seq<Id>, ids': seq<Id>)
    requires DepthsRenamed(m, depths, depths') && BagRenamed(m, ids, ids')
    ensures DepthOf(depths', ids') == DepthOf(depths, ids)
  {
    BagMembers(m, ids, ids');
    hide BagRenamed;
    MaxDepthIsMax(depths, ids);
    MaxDepthIsMax(depths', ids');
    if ids != [] {
      var x :| x in ids && DepthAt(depths, x) == MaxDepth(depths, ids);
      assert DepthAt(depths', m[x]) == DepthAt(depths, x);
      var y :| y in ids' && DepthAt(depths', y) == MaxDepth(depths', ids');
      var z :| z in ids && m[z] == y;
      assert DepthAt(depths', m[z]) == DepthAt(depths, z);
    }
  }

  // ----- Clocks -----

  /** A table of entries keyed by clock basis, and its renamed form. */
  predicate KeyedRenamed(m: Renaming, byId: ById, byId': ById, t: ById, t': ById) {
    && t'.Keys == t.Keys
    && forall b {:trigger t[b]} {:trigger t'[b]} :: b in t ==>
         t[b].id in m && t[b].id in byId && byId[t[b].id] == t[b] && m[t[b].id] in byId' && t'[b] == byId'[m[t[b].id]]
  }

  ghost predicate PairsRenamed(m: Renaming, pairs: set<(Id, Id)>, pairs': set<(Id, Id)>) {
    && (forall a, b :: (a, b) in pairs ==> a in m && b in m && (m[a], m[b]) in pairs')
    && (forall a, b :: (a, b) in pairs' ==> exists c, d :: (c, d) in pairs && c in m && d in m && (m[c], m[d]) == (a, b))
  }

  ghost predicate ClocksRenamed(m: Renaming, byId: ById, byId': ById, c: Clocks, c': Clocks) {
    && KeyedRenamed(m, byId, byId', c.bases, c'.bases)
    && KeyedRenamed(m, byId, byId', c.lastWall, c'.lastWall)
    && c'.lastMonotonic == c.lastMonotonic
    && PairsRenamed(m, c.required, c'.required)
    && PairsRenamed(m, c.witnessed, c'.witnessed)
    && c.witnessed <= c.required
  }

  lemma KeyedStable(m: Renaming, byId: ById, byId': ById, t: ById, t': ById, e: Entry, f: Entry)
    requires KeyedRenamed(m, byId, byId', t, t') && e.id !in m && e.id !in byId && f.id !in byId'
    ensures KeyedRenamed(m[e.id := f.id], byId[e.id := e], byId'[f.id := f], t, t')
  {
  }

  lemma KeyedAdd(m: Renaming, byId: ById, byId': ById, t: ById, t': ById, b: Id, e: Entry, f: Entry)
    requires KeyedRenamed(m, byId, byId', t, t')
    requires e.id in m && e.id in byId && byId[e.id] == e && m[e.id] == f.id && f.id in byId' && byId'[f.id] == f
    ensures KeyedRenamed(m, byId, byId', t[b := e], t'[b := f])
  {
  }

  lemma PairsStable(m: Renaming, pairs: set<(Id, Id)>, pairs': set<(Id, Id)>, x: Id, y: Id)
    requires PairsRenamed(m, pairs, pairs') && x !in m
    ensures PairsRenamed(m[x := y], pairs, pairs')
  {
    var m1 := m[x := y];
    forall a, b | (a, b) in pairs' ensures exists c, d :: (c, d) in pairs && c in m1 && d in m1 && (m1[c], m1[d]) == (a, b) {
      var c, d :| (c, d) in pairs && c in m && d in m && (m[c], m[d]) == (a, b);
      assert (m1[c], m1[d]) == (a, b);
    }
  }

  lemma PairsAdd(m: Renaming, pairs: set<(Id, Id)>, pairs': set<(Id, Id)>, a: Id, b: Id)
    requires PairsRenamed(m, pairs, pairs') && a in m && b in m
    ensures PairsRenamed(m, pairs + {(a, b)}, pairs' + {(m[a], m[b])})
  {
    var grown, grown' := pairs + {(a, b)}, pairs' + {(m[a], m[b])};
    forall p, q | (p, q) in grown' ensures exists c, d :: (c, d) in grown && c in m && d in m && (m[c], m[d]) == (p, q) {
      if (p, q) in pairs' {
        var c, d :| (c, d) in pairs && c in m && d in m && (m[c], m[d]) == (p, q);
        assert (c, d) in grown;
      } else {
        assert (a, b) in grown;
      }
    }
  }

  lemma PairAbsent(m: Renaming, pairs: set<(Id, Id)>, pairs': set<(Id, Id)>, a: Id, b: Id)
    requires Injective(m) && PairsRenamed(m, pairs, pairs') && a in m && b in m && (a, b) !in pairs
    ensures (m[a], m[b]) !in pairs'
  {
  }

  lemma PairsOfEqual(m: Renaming, pairs: set<(Id, Id)>, r': set<(Id, Id)>, w': set<(Id, Id)>)
    requires PairsRenamed(m, pairs, r') && PairsRenamed(m, pairs, w')
    ensures r' == w'
  {
    forall a, b ensures (a, b) in r' <==> (a, b) in w' {
      if (a, b) in r' {
        var c, d :| (c, d) in pairs && c in m && d in m && (m[c], m[d]) == (a, b);
      }
      if (a, b) in w' {
        var c, d :| (c, d) in pairs && c in m && d in m && (m[c], m[d]) == (a, b);
      }
    }
    forall p ensures p in r' <==> p in w' {
      assert p == (p.0, p.1);
    }
  }

  // ----- One round of both loops -----

  predicate NoRequests(byId: ById) {
    forall x :: x in byId ==> !IsRequest(FactsAt(byId, x))
  }

  /** The two runs side by side: `m` renames every table of the original run to the replayed one. */
  ghost predicate Simulates(k: Kernel, execution: string, m: Renaming, s: Tables, t: Tables) {
    && Tracks(m, s.graph.byId, t.graph.byId, s.evidence.vaultEvidence)
    && t.evidence == s.evidence
    && Named(k, s.graph.execution, s.graph.byId)
    && Named(k, t.graph.execution, t.graph.byId)
    && (t.graph.execution.Some? ==> t.graph.execution.value == execution)
    && DepthsRenamed(m, s.graph.depths, t.graph.depths)
    && t.graph.edges == s.graph.edges
    && ClocksRenamed(m, s.graph.byId, t.graph.byId, s.clocks, t.clocks)
    && NoRequests(s.graph.byId)
  }

  lemma LiveKinds(byId: ById, e: Entry)
    requires ParentTransition(byId, e) && e.body.facts.ArtifactCommitted? && e.body.facts.mode == Live
    ensures multiset(KindsOf(byId, CausalIds(byId, e.body.parents))) == multiset([KAcquisition, KRequestSucceeded])
  {
    hide SameAcquisition, ParentFactsAgree, RegressionBacked, SelectParents, KindsOf, FirstOfKind;
  }

  lemma NotLive(byId: ById, e: Entry)
    requires NoRequests(byId) && ParentTransition(byId, e) && e.body.facts.ArtifactCommitted?
    ensures e.body.facts.mode != Live
  {
    hide SelectParents, KindsOf, FirstOfKind, ParentTransition, CausalIds;
    if e.body.facts.mode == Live {
      LiveKinds(byId, e);
      var causal := CausalIds(byId, e.body.parents);
      var request := FirstOfKind(byId, causal, {KRequestSucceeded});
      KindPresent(byId, causal, [KAcquisition, KRequestSucceeded], KRequestSucceeded);
      assert false;
    }
  }

  lemma EndsResolve(byId: ById, m: Renaming, e: Entry)
    requires ParentTransition(byId, e) && m.Keys == byId.Keys
    ensures FactsResolve(m, e.body.facts)
  {
    hide KindsAgree, SameAcquisition, ParentFactsAgree, SelectParents;
  }

  lemma MapIdsDistinct(m: Renaming, ids: seq<Id>)
    requires Injective(m) && Distinct(ids) && forall p :: p in ids ==> p in m
    ensures Distinct(MapIds(m, ids))
  {
  }

  lemma SortedNames(m: Renaming, ids: seq<Id>)
    requires Injective(m) && StrictlyAscending(ids) && forall p :: p in ids ==> p in m
    ensures StrictlyAscending(SortIds(MapIds(m, ids)))
    ensures BagRenamed(m, ids, SortIds(MapIds(m, ids)))
  {
    StrictlyAscendingDistinct(ids);
    MapIdsDistinct(m, ids);
    DistinctPermutation(MapIds(m, ids), SortIds(MapIds(m, ids)));
    AscendingDistinct(SortIds(MapIds(m, ids)));
  }

  lemma MappedFactsValid(k: Kernel, m: Renaming, f: Facts)
    requires FactsResolve(m, f) && ValidFacts(k, f)
    ensures ValidFacts(k, MapFacts(m, f))
  {
  }

  lemma RelabelSucceeds(k: Kernel, execution: string, m: Renaming, e: Entry)
    requires Bounded(execution) && Injective(m)
    requires !IsRequest(e.body.facts) && Create(k, e.body) == Some(e)
    requires (forall p :: p in e.body.parents ==> p in m) && FactsResolve(m, e.body.facts)
    ensures Relabel(k, execution, m, e).Some?
    ensures var f := Relabel(k, execution, m, e).value;
            EntryRenamed(m, e, f) && Create(k, f.body) == Some(f) && f.body.execution == execution
  {
    hide ValidFacts, MapFacts, StrictlyAscending, BagRenamed, Injective, SortIds, MapIds, KindOf;
    SortedNames(m, e.body.parents);
    MappedFactsValid(k, m, e.body.facts);
  }

  lemma EvidenceSame(v: Evidence, byId: ById, byId': ById, m: Renaming, f: Facts)
    requires EvidenceOk(v, byId, f) && FactsResolve(m, f) && (f.ArtifactCommitted? ==> f.mode != Live)
    requires NoRequests(byId') && !IsRequest(f)
    ensures EvidenceOk(v, byId', MapFacts(m, f))
    ensures RecordEvidence(v, MapFacts(m, f)) == RecordEvidence(v, f)
  {
    hide AddCounts, RevisionOk;
    assert AcquisitionsTouched(MapFacts(m, f)) == AcquisitionsTouched(f);
  }

  lemma SameKindRequest(a: Facts, b: Facts)
    requires KindOf(a) == KindOf(b)
    ensures IsRequest(a) == IsRequest(b)
  {
  }

  lemma RequestsAbsent(m: Renaming, byId: ById, byId': ById)
    requires SameShape(m, byId, byId') && NoRequests(byId)
    ensures NoRequests(byId')
  {
    hide IsRequest, KindOf, Injective;
    forall y | y in byId' ensures !IsRequest(FactsAt(byId', y)) {
      var x :| x in m && m[x] == y;
      SameKindRequest(FactsAt(byId, x), FactsAt(byId', y));
      assert KindOf(FactsAt(byId', y)) == KindOf(FactsAt(byId, x));
    }
  }

  lemma BasisKept(m: Renaming, byId: ById, byId': ById, e: Entry, f: Entry, declaration: Id)
    requires SameShape(m, byId, byId') && BagRenamed(m, e.body.parents, f.body.parents)
    requires BasisIds(byId, e.body.parents) == [declaration]
    ensures declaration in m && BasisIds(byId', f.body.parents) == [m[declaration]]
  {
    hide SelectParents, SameShape, BagRenamed;
    BasisRenamed(m, byId, byId', e.body.parents, f.body.parents);
    SingleRenamed(m, BasisIds(byId, e.body.parents), BasisIds(byId', f.body.parents));
  }

  /** The fields of a renamed entry that the clock tables read. */
  predicate EntryLinks(m: Renaming, e: Entry, f: Entry) {
    && f.body.clock == e.body.clock
    && f.body.facts.ClockRegression? == e.body.facts.ClockRegression?
    && (e.body.facts.ClockRegression? ==>
          && e.body.facts.prior in m && e.body.facts.regressing in m
          && f.body.facts.prior == m[e.body.facts.prior] && f.body.facts.regressing == m[e.body.facts.regressing])
    && f.body.facts.ClockBasisDeclared? == e.body.facts.ClockBasisDeclared?
    && (e.body.facts.ClockBasisDeclared? ==> f.body.facts == e.body.facts)
  }

  lemma RenamedLinks(m: Renaming, e: Entry, f: Entry)
    requires EntryRenamed(m, e, f)
    ensures EntryLinks(m, e, f)
  {
  }

  lemma StampKept(m: Renaming, byId: ById, byId': ById, c: Clocks, c': Clocks, e: Entry, f: Entry)
    requires Injective(m) && EntryLinks(m, e, f) && ClocksRenamed(m, byId, byId', c, c')
    requires e.body.clock.Stamp? && StampOk(byId, c, e)
    requires var d := c.bases[e.body.clock.basis];
             && BasisIds(byId', f.body.parents) == [byId'[m[d.id]].id]
             && byId'[m[d.id]].body.facts == d.body.facts
    ensures StampOk(byId', c', f)
  {
    hide Injective, PairsRenamed, SelectParents, BasisIds;
    if e.body.facts.ClockRegression? {
      PairAbsent(m, c.witnessed, c'.witnessed, e.body.facts.prior, e.body.facts.regressing);
      PairPresent(m, c.required, c'.required, e.body.facts.prior, e.body.facts.regressing);
    }
  }

  lemma PairPresent(m: Renaming, pairs: set<(Id, Id)>, pairs': set<(Id, Id)>, a: Id, b: Id)
    requires PairsRenamed(m, pairs, pairs') && (a, b) in pairs
    ensures a in m && b in m && (m[a], m[b]) in pairs'
  {
  }

  lemma EmptyRenamed(m: Renaming, c: seq<Id>, c': seq<Id>)
    requires BagRenamed(m, c, c') && c == []
    ensures c' == []
  {
    BagMembers(m, c, c');
  }

  lemma DeclarationKept(m: Renaming, byId: ById, byId': ById, t: ById, t': ById, b: Id)
    requires Renames(m, byId, byId') && KeyedRenamed(m, byId, byId', t, t') && b in t
    ensures t[b].id in m && m[t[b].id] in byId' && b in t' && t'[b] == byId'[m[t[b].id]] && t'[b].id == m[t[b].id]
    ensures EntryLinks(m, t[b], t'[b])
  {
    var x := t[b].id;
    assert byId'[m[x]].id == m[x] && EntryRenamed(m, byId[x], byId'[m[x]]);
    RenamedLinks(m, byId[x], byId'[m[x]]);
  }

  lemma ClockOkKept(m: Renaming, byId: ById, byId': ById, c: Clocks, c': Clocks, e: Entry, f: Entry)
    requires Renames(m, byId, byId') && EntryRenamed(m, e, f) && ClocksRenamed(m, byId, byId', c, c')
    requires ClockOk(byId, c, e)
    ensures ClockOk(byId', c', f)
  {
    RenamedLinks(m, e, f);
    hide BagRenamed, SelectParents, SameShape, MapFacts, Injective, PairsRenamed, FactsResolve;
    if e.body.facts.ClockBasisDeclared? {
      EmptyRenamed(m, e.body.parents, f.body.parents);
    } else if e.body.clock.Unstamped? {
      BasisRenamed(m, byId, byId', e.body.parents, f.body.parents);
      EmptyRenamed(m, BasisIds(byId, e.body.parents), BasisIds(byId', f.body.parents));
    } else {
      DeclarationKept(m, byId, byId', c.bases, c'.bases, e.body.clock.basis);
      BasisKept(m, byId, byId', e, f, c.bases[e.body.clock.basis].id);
      StampKept(m, byId, byId', c, c', e, f);
    }
  }

  lemma FallsBehindKept(m: Renaming, byId: ById, byId': ById, t: ById, t': ById, e: Entry, f: Entry)
    requires Renames(m, byId, byId') && EntryRenamed(m, e, f) && KeyedRenamed(m, byId, byId', t, t')
    ensures FallsBehind(t, e) == FallsBehind(t', f)
  {
    hide BagRenamed, MapFacts, Injective, SameShape;
    if e.body.clock.Stamp? && e.body.clock.basis in t {
      assert EntryRenamed(m, byId[t[e.body.clock.basis].id], byId'[m[t[e.body.clock.basis].id]]);
    }
  }

  lemma ClocksCarried(m: Renaming, byId: ById, byId': ById, c: Clocks, c': Clocks, e: Entry, f: Entry)
    requires ClocksRenamed(m, byId, byId', c, c') && e.id !in m && e.id !in byId && f.id !in byId'
    ensures ClocksRenamed(m[e.id := f.id], byId[e.id := e], byId'[f.id := f], c, c')
  {
    hide KeyedRenamed, PairsRenamed;
    KeyedStable(m, byId, byId', c.bases, c'.bases, e, f);
    KeyedStable(m, byId, byId', c.lastWall, c'.lastWall, e, f);
    PairsStable(m, c.required, c'.required, e.id, f.id);
    PairsStable(m, c.witnessed, c'.witnessed, e.id, f.id);
  }

  lemma ClocksRecorded(m: Renaming, byId: ById, byId': ById, c: Clocks, c': Clocks, e: Entry, f: Entry)
    requires ClocksRenamed(m, byId, byId', c, c') && EntryLinks(m, e, f)
    requires e.id in m && e.id in byId && byId[e.id] == e && m[e.id] == f.id && f.id in byId' && byId'[f.id] == f
    requires FallsBehind(c'.lastWall, f) == FallsBehind(c.lastWall, e)
    requires FallsBehind(c.lastWall, e) ==>
               var b := e.body.clock.basis; c.lastWall[b].id in m && c'.lastWall[b].id == m[c.lastWall[b].id]
    requires e.body.clock.Stamp? && e.body.facts.ClockRegression? ==> (e.body.facts.prior, e.body.facts.regressing) in c.required
    ensures ClocksRenamed(m, byId, byId', RecordClock(c, e), RecordClock(c', f))
  {
    hide KeyedRenamed, PairsRenamed;
    if e.body.facts.ClockBasisDeclared? {
      KeyedAdd(m, byId, byId', c.bases, c'.bases, e.body.facts.clockBasis.id, e, f);
    } else if e.body.clock.Stamp? {
      KeyedAdd(m, byId, byId', c.lastWall, c'.lastWall, e.body.clock.basis, e, f);
      if e.body.facts.ClockRegression? {
        PairsAdd(m, c.witnessed, c'.witnessed, e.body.facts.prior, e.body.facts.regressing);
      } else if FallsBehind(c.lastWall, e) {
        PairsAdd(m, c.required, c'.required, c.lastWall[e.body.clock.basis].id, e.id);
      }
    }
  }

  lemma LastWallsRenamed(m: Renaming, byId: ById, byId': ById, c: Clocks, c': Clocks)
    requires ClocksRenamed(m, byId, byId', c, c')
    ensures KeyedRenamed(m, byId, byId', c.lastWall, c'.lastWall)
  {
    hide KeyedRenamed, PairsRenamed;
  }

  lemma NotRenamedYet(m: Renaming, byId: ById, byId': ById, x: Id)
    requires Renames(m, byId, byId') && x !in byId
    ensures x !in m
  {
  }

  lemma WitnessWasRequired(byId: ById, c: Clocks, e: Entry)
    requires ClockOk(byId, c, e)
    ensures e.body.clock.Stamp? && e.body.facts.ClockRegression? ==> (e.body.facts.prior, e.body.facts.regressing) in c.required
  {
  }

  lemma BehindWhat(lastWall: ById, e: Entry)
    requires FallsBehind(lastWall, e)
    ensures e.body.clock.Stamp? && e.body.clock.basis in lastWall
  {
  }

  lemma RecordClockKept(m: Renaming, byId: ById, byId': ById, c: Clocks, c': Clocks, e: Entry, f: Entry)
    requires Renames(m, byId, byId') && EntryRenamed(m, e, f) && ClocksRenamed(m, byId, byId', c, c')
    requires e.id !in byId && f.id !in byId' && ClockOk(byId, c, e)
    ensures ClocksRenamed(m[e.id := f.id], byId[e.id := e], byId'[f.id := f], RecordClock(c, e), RecordClock(c', f))
  {
    hide *;
    var m1, grown, grown' := m[e.id := f.id], byId[e.id := e], byId'[f.id := f];
    LastWallsRenamed(m, byId, byId', c, c');
    NotRenamedYet(m, byId, byId', e.id);
    WitnessWasRequired(byId, c, e);
    FallsBehindKept(m, byId, byId', c.lastWall, c'.lastWall, e, f);
    EntryRenamedStable(m, e, f, e.id, f.id);
    RenamedLinks(m1, e, f);
    ClocksCarried(m, byId, byId', c, c', e, f);
    if FallsBehind(c.lastWall, e) {
      BehindWhat(c.lastWall, e);
      DeclarationKept(m, byId, byId', c.lastWall, c'.lastWall, e.body.clock.basis);
    }
    ClocksRecorded(m1, grown, grown', c, c', e, f);
  }

  lemma ParentsResolve(m: Renaming, byId: ById, byId': ById, c: seq<Id>, c': seq<Id>)
    requires SameShape(m, byId, byId') && BagRenamed(m, c, c')
    ensures |c'| == |c| && forall p :: p in c' ==> p in byId'
  {
    BagMembers(m, c, c');
    hide BagRenamed;
  }

  lemma GraphKept(k: Kernel, execution: string, m: Renaming, s: Tables, t: Tables, e: Entry, f: Entry)
    requires CollisionFree(k) && Simulates(k, execution, m, s, t)
    requires GraphOk(k, s.graph, e) && !IsRequest(e.body.facts)
    requires EntryRenamed(m, e, f) && Create(k, f.body) == Some(f) && f.body.execution == execution
    requires forall x :: x in s.graph.byId ==> !ModeTwins(s.graph.byId[x], e)
    ensures GraphOk(k, t.graph, f)
  {
    hide ClocksRenamed, Sound, ModeTwins, MapFacts, BagRenamed, Injective, ValidFacts, CollisionFree, KindsAgree;
    FreshName(k, m, s.graph, t.graph, e, f);
    ParentsResolve(m, s.graph.byId, t.graph.byId, e.body.parents, f.body.parents);
    DepthKept(m, s.graph.depths, t.graph.depths, e.body.parents, f.body.parents);
    if e.body.facts.ArtifactCommitted? { NotLive(s.graph.byId, e); }
    ParentTransitionKept(m, s.graph.byId, t.graph.byId, s.evidence.vaultEvidence, e, f);
    hide ParentTransition, DepthOf, Named, Renames, EntryRenamed;
  }

  lemma NamedGrows(k: Kernel, g: Graph, e: Entry)
    requires Named(k, g.execution, g.byId) && GraphOk(k, g, e)
    ensures Named(k, RecordGraph(g, e).execution, RecordGraph(g, e).byId)
  {
    hide ParentTransition, Create, DepthOf;
  }

  lemma DepthsGrow(m: Renaming, depths: map<Id, nat>, depths': map<Id, nat>, x: Id, y: Id, depth: nat)
    requires DepthsRenamed(m, depths, depths') && x !in m && forall z :: z in m ==> m[z] != y
    ensures DepthsRenamed(m[x := y], depths[x := depth], depths'[y := depth])
  {
  }

  lemma NoRequestsGrows(byId: ById, e: Entry)
    requires NoRequests(byId) && !IsRequest(e.body.facts)
    ensures NoRequests(byId[e.id := e])
  {
  }

  lemma NewNameApart(m: Renaming, byId: ById, byId': ById, y: Id)
    requires SameShape(m, byId, byId') && y !in byId'
    ensures forall z :: z in m ==> m[z] != y
  {
  }

  /** Both runs admit the entry and its renamed form, and stay side by side. */
  lemma StepKept(k: Kernel, execution: string, m: Renaming, s: Tables, t: Tables, e: Entry)
    requires CollisionFree(k) && Bounded(execution) && Simulates(k, execution, m, s, t)
    requires Admits(k, s, e) && !IsRequest(e.body.facts)
    requires forall x :: x in s.graph.byId ==> !ModeTwins(s.graph.byId[x], e)
    ensures Relabel(k, execution, m, e).Some?
    ensures var f := Relabel(k, execution, m, e).value;
            && Admits(k, t, f)
            && EntryRenamed(m[e.id := f.id], e, f)
            && Simulates(k, execution, m[e.id := f.id], Advance(s, e), Advance(t, f))
  {
    hide ClocksRenamed, Sound, ModeTwins, MapFacts, BagRenamed, Injective, ValidFacts, CollisionFree, ParentTransition, DepthsRenamed,
      EvidenceOk, ClockOk, NoRequests, RecordEvidence, RecordClock, Named, EntryRenamed, StrictlyAscending, DepthOf;
    EndsResolve(s.graph.byId, m, e);
    RelabelSucceeds(k, execution, m, e);
    var f := Relabel(k, execution, m, e).value;
    hide Relabel, Create;
    GraphKept(k, execution, m, s, t, e, f);
    RequestsAbsent(m, s.graph.byId, t.graph.byId);
    if e.body.facts.ArtifactCommitted? { NotLive(s.graph.byId, e); }
    RenamedFacts(m, e, f);
    EvidenceSame(s.evidence, s.graph.byId, t.graph.byId, m, e.body.facts);
    ClockOkKept(m, s.graph.byId, t.graph.byId, s.clocks, t.clocks, e, f);
    EntryRenamedStable(m, e, f, e.id, f.id);
    AdvancedTogether(k, execution, m, s, t, e, f);
  }

  lemma RenamedFacts(m: Renaming, e: Entry, f: Entry)
    requires EntryRenamed(m, e, f)
    ensures FactsResolve(m, e.body.facts) && f.body.facts == MapFacts(m, e.body.facts)
  {
  }

  lemma AdvancedTogether(k: Kernel, execution: string, m: Renaming, s: Tables, t: Tables, e: Entry, f: Entry)
    requires Simulates(k, execution, m, s, t) && EntryRenamed(m, e, f) && f.body.execution == execution
    requires Admits(k, s, e) && Admits(k, t, f) && !IsRequest(e.body.facts)
    requires RecordEvidence(t.evidence, f.body.facts) == RecordEvidence(s.evidence, e.body.facts)
    ensures Simulates(k, execution, m[e.id := f.id], Advance(s, e), Advance(t, f))
  {
    hide ClocksRenamed, Sound, BagRenamed, Injective, ParentTransition, DepthsRenamed, Create, EntryRenamed, SameShape,
      EvidenceOk, ClockOk, NoRequests, RecordEvidence, RecordClock, Named, DepthOf;
    NewNameApart(m, s.graph.byId, t.graph.byId, f.id);
    RenamesGrows(m, s.graph.byId, t.graph.byId, e, f);
    SoundKept(k, s.graph, s.evidence, e);
    SoundKept(k, t.graph, t.evidence, f);
    NamedGrows(k, s.graph, e);
    NamedGrows(k, t.graph, f);
    SameSizes(m, e, f);
    DepthKept(m, s.graph.depths, t.graph.depths, e.body.parents, f.body.parents);
    KeysOf(m, s.graph.byId, t.graph.byId);
    DepthsGrow(m, s.graph.depths, t.graph.depths, e.id, f.id, DepthOf(s.graph.depths, e.body.parents));
    RecordClockKept(m, s.graph.byId, t.graph.byId, s.clocks, t.clocks, e, f);
    NoRequestsGrows(s.graph.byId, e);
  }

  lemma KeysOf(m: Renaming, byId: ById, byId': ById)
    requires SameShape(m, byId, byId')
    ensures m.Keys == byId.Keys
  {
  }

  lemma SameSizes(m: Renaming, e: Entry, f: Entry)
    requires EntryRenamed(m, e, f)
    ensures BagRenamed(m, e.body.parents, f.body.parents) && |f.body.parents| == |e.body.parents|
  {
    BagMembers(m, e.body.parents, f.body.parents);
  }
}
