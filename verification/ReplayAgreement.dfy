/**
  The two replays of a recorded ledger. They build the same list exactly when there is nothing that one of
  them drops, and every regression witness directly follows the entry it witnesses.
 */
module ReplayAgreement {
  import opened Base
  import opened ObservationLedger
  import opened LedgerInvariants
  import opened LedgerReplay
  import opened ReplayPreservation
  import opened ReplaySimulation
  import opened ReplayTheorem
  import opened AcquisitionReplay

  predicate PromptWitnesses(entries: seq<Entry>) {
    forall i :: 0 <= i < |entries| && entries[i].body.facts.ClockRegression? ==>
      0 < i && entries[i].body.facts.regressing == entries[i - 1].id
  }

  predicate NothingOmitted(entries: seq<Entry>) {
    forall i :: 0 <= i < |entries| ==> !Omitted(entries[i].body.facts)
  }

  // ----- Sorting and looking up -----

  lemma {:induction false} SortedUnique(a: seq<nat>, b: seq<nat>)
    requires Ascending(a) && Ascending(b) && multiset(a) == multiset(b)
    ensures a == b
    decreases |a|
  {
    MultisetMembers(a, b);
    if a != [] {
      LeastFirst(a, b[0]);
      LeastFirst(b, a[0]);
      assert a[0] == b[0];
      HeadBag(a);
      HeadBag(b);
      CancelBag(multiset(a[1..]), multiset(b[1..]), a[0]);
      SortedUnique(a[1..], b[1..]);
      assert a == [a[0]] + a[1..] && b == [b[0]] + b[1..];
    }
  }

  lemma {:induction false} LeastFirst(a: seq<nat>, x: nat)
    requires Ascending(a) && a != [] && (x in a)
    ensures a[0] <= x
  {
    if x != a[0] {
      assert x in a[1..];
      LeastFirst(a[1..], x);
      assert a[0] <= a[1];
    }
  }

  lemma SortIdsOfBag(a: seq<nat>, b: seq<nat>)
    requires multiset(a) == multiset(b)
    ensures SortIds(a) == SortIds(b)
  {
    SortedUnique(SortIds(a), SortIds(b));
  }

  lemma {:induction false} RewireAll(original: ById, w: Walk, e: Entry, ids: seq<Id>, parents: seq<Id>)
    requires (forall p :: p in ids ==> p in w.remapped) && (e.body.facts.ArtifactCommitted? ==> e.body.facts.mode != Live)
    requires Distinct(parents + MapIds(w.remapped, ids))
    ensures Rewire(original, w, e, ids, parents) == Some(parents + MapIds(w.remapped, ids))
    decreases |ids|
  {
    var names := MapIds(w.remapped, ids);
    if ids == [] {
      assert parents + names == parents;
    } else {
      var all := parents + names;
      assert all[|parents|] == names[0];
      forall i | 0 <= i < |parents| ensures parents[i] != names[0] {
        assert all[i] != all[|parents|];
      }
      assert (parents + [names[0]]) + MapIds(w.remapped, ids[1..]) == all;
      RewireAll(original, w, e, ids[1..], parents + [names[0]]);
    }
  }

  lemma {:induction false} FindAfter(front: seq<Entry>, last: Entry, prior: Id, regressing: Id)
    requires forall i :: 0 <= i < |front| && front[i].body.facts.ClockRegression? ==> front[i].body.facts.regressing != regressing
    requires last.body.facts.ClockRegression? && last.body.facts.prior == prior && last.body.facts.regressing == regressing
    ensures FindWitness(front + [last], Some(prior), Some(regressing)) == Some(last.id)
  {
    var all := front + [last];
    if front != [] {
      assert all[0] == front[0] && all[1..] == front[1..] + [last];
      FindAfter(front[1..], last, prior, regressing);
    }
  }

  // ----- Aligned walks -----

  /** The acquisition walk after `n` entries equals the recorded replay, with nothing owed. */
  ghost predicate Aligned(
    k: Kernel, execution: string, entries: seq<Entry>, n: nat, p: Progress, s: Tables, t: Tables, w: Walk)
    requires n <= |entries|
  {
    && Together(k, execution, entries, n, p, s, t)
    && s.clocks.required == s.clocks.witnessed
    && Tracked(p, t, w)
  }

  predicate Tracked(p: Progress, t: Tables, w: Walk) {
    && w.replayed == p.replayed
    && w.remapped == p.mapped
    && w.lastWall == t.clocks.lastWall
    && Declared(t.clocks.bases, w.declarations)
  }

  predicate Declared(bases: ById, declarations: map<Id, Id>) {
    && declarations.Keys == bases.Keys
    && forall b :: b in bases ==> declarations[b] == bases[b].id
  }

  lemma SameFacts(m: Renaming, f: Facts)
    requires FactsResolve(m, f) && !f.ClockRegression?
    ensures ReplayFacts(f) == MapFacts(m, f)
  {
  }

  /** An ordinary entry is emitted by both replays alike. */
  lemma SameEmission(k: Kernel, execution: string, original: ById, m: Renaming, w: Walk, e: Entry)
    requires w.remapped == m && Injective(m) && StrictlyAscending(e.body.parents)
    requires !Omitted(e.body.facts) && !e.body.facts.ClockRegression?
    requires e.body.facts.ArtifactCommitted? ==> e.body.facts.mode != Live
    requires Relabel(k, execution, m, e).Some?
    ensures var f := Relabel(k, execution, m, e).value;
            WalkEmit(k, execution, original, w, e) ==
              WalkClock(k, execution, w.(replayed := w.replayed + [f], remapped := m[e.id := f.id]), f)
  {
    hide WalkClock, ValidFacts, MapIds, SortIds, Create, MapFacts, ReplayFacts, Injective, StrictlyAscending, Distinct, Rewire;
    StrictlyAscendingDistinct(e.body.parents);
    MapIdsDistinct(m, e.body.parents);
    assert [] + MapIds(m, e.body.parents) == MapIds(m, e.body.parents);
    RewireAll(original, w, e, e.body.parents, []);
    SameFacts(m, e.body.facts);
  }

  /** What the clock tables of the validator become when the entry leaves nothing owed. */
  lemma QuietClock(k: Kernel, execution: string, c: Clocks, w: Walk, f: Entry)
    requires w.lastWall == c.lastWall && Declared(c.bases, w.declarations)
    requires !f.body.facts.ClockRegression? && (f.body.clock.Stamp? && !f.body.facts.ClockBasisDeclared? ==> !FallsBehind(c.lastWall, f))
    ensures WalkClock(k, execution, w, f).Some?
    ensures var v := WalkClock(k, execution, w, f).value; var d := RecordClock(c, f);
            && v.replayed == w.replayed && v.remapped == w.remapped
            && v.lastWall == d.lastWall && Declared(d.bases, v.declarations)
            && d.required == c.required && d.witnessed == c.witnessed
  {
    hide FallsBehind, Create, WitnessBody;
  }

  /** What both sides know about the next entry and its new form. */
  ghost predicate NextPair(m: Renaming, s: Tables, t: Tables, e: Entry, f: Entry) {
    && Injective(m)
    && StrictlyAscending(e.body.parents)
    && EntryRenamed(m, e, f)
    && EntryLinks(m, e, f)
    && FallsBehind(t.clocks.lastWall, f) == FallsBehind(s.clocks.lastWall, e)
    && (e.body.facts.ArtifactCommitted? ==> e.body.facts.mode != Live)
  }

  lemma NextPairHolds(k: Kernel, execution: string, m: Renaming, s: Tables, t: Tables, e: Entry)
    requires Simulates(k, execution, m, s, t) && Admits(k, s, e) && Relabel(k, execution, m, e).Some?
    ensures NextPair(m, s, t, e, Relabel(k, execution, m, e).value)
  {
    hide EvidenceOk, ClockOk, Sound, DepthsRenamed, Relabel, EntryRenamed, Injective, ValidFacts, SameShape, Named, PairsRenamed, KeyedRenamed,
      StrictlyAscending, KindsAgree, FallsBehind;
    var f := Relabel(k, execution, m, e).value;
    SimulatedNames(k, execution, m, s, t);
    RelabelRenames(k, execution, m, e);
    RenamedLinks(m, e, f);
    FallsBehindKept(m, s.graph.byId, t.graph.byId, s.clocks.lastWall, t.clocks.lastWall, e, f);
    if e.body.facts.ArtifactCommitted? { NotLive(s.graph.byId, e); }
  }

  predicate Quiet(c: Clocks, e: Entry) {
    !e.body.facts.ClockBasisDeclared? ==> !FallsBehind(c.lastWall, e)
  }

  /** An ordinary entry that owes no witness keeps the walks aligned. */
  lemma OrdinaryStep(
    k: Kernel, pick: Pick, execution: string, original: ById, entries: seq<Entry>, n: nat, p: Progress, s: Tables, t: Tables, w: Walk)
    returns (q: Progress, u: Tables, v: Tables, x: Walk)
    requires CollisionFree(k) && Bounded(execution) && n < |entries| && Run(k, EMPTY, entries).Some?
    requires NoModeTwins(entries[..n + 1]) && !Omitted(entries[n].body.facts) && !entries[n].body.facts.ClockRegression?
    requires Aligned(k, execution, entries, n, p, s, t, w) && Quiet(s.clocks, entries[n])
    ensures WalkStep(k, pick, execution, original, w, entries[n]) == Some(x)
    ensures Aligned(k, execution, entries, n + 1, q, u, v, x)
  {
    hide CollisionFree, NoModeTwins, Run, ReplayRun, Simulates, Holds, AllCorrespond, Relabel, Admits, RecordEvidence, RecordGraph, WalkEmit,
      WalkClock, FallsBehind, Declared, EntryRenamed, Injective, StrictlyAscending, SortIds;
    var e := entries[n];
    q, u, v := NextTogether(k, execution, entries, n, p, s, t);
    var f := Relabel(k, execution, p.mapped, e).value;
    NextPairHolds(k, execution, p.mapped, s, t, e);
    SameEmission(k, execution, original, p.mapped, w, e);
    var emitted := w.(replayed := w.replayed + [f], remapped := p.mapped[e.id := f.id]);
    QuietClock(k, execution, t.clocks, emitted, f);
    x := WalkClock(k, execution, emitted, f).value;
  }

  // ----- A fallen clock and its witness -----

  lemma ParentsSplit(byId: ById, ids: seq<Id>)
    requires forall p :: p in ids ==> p in byId
    ensures multiset(ids) == multiset(BasisIds(byId, ids)) + multiset(CausalIds(byId, ids))
  {
    hide SelectParents;
    forall x ensures multiset(ids)[x] == (multiset(BasisIds(byId, ids)) + multiset(CausalIds(byId, ids)))[x] {
      SelectCount(byId, ids, true, x);
      SelectCount(byId, ids, false, x);
      assert x in multiset(ids) ==> x in ids;
    }
  }

  /** The entry `x` is the witness that `regressing` fell behind `prior`. */
  predicate Witnesses(x: Entry, prior: Id, regressing: Id) {
    x.body.facts.ClockRegression? && x.body.facts.prior == prior && x.body.facts.regressing == regressing
  }

  lemma WitnessParents(k: Kernel, s: Tables, x: Entry, basis: Id, prior: Id, regressing: Id)
    requires Admits(k, s, x) && Witnesses(x, prior, regressing)
    requires x.body.clock.Stamp? && x.body.clock.basis in s.clocks.bases && s.clocks.bases[x.body.clock.basis].id == basis
    ensures multiset(x.body.parents) == multiset([basis, prior, regressing])
    ensures prior in s.graph.byId && regressing in s.graph.byId
  {
    hide SelectParents, Create, EvidenceOk, KindsAgree, SameAcquisition, ParentFactsAgree;
    ParentsSplit(s.graph.byId, x.body.parents);
  }

  lemma WitnessClock(k: Kernel, s: Tables, x: Entry)
    requires Admits(k, s, x) && x.body.facts.ClockRegression?
    ensures var f := x.body.facts;
            && f.prior in s.graph.byId && f.regressing in s.graph.byId
            && var p, c := s.graph.byId[f.prior].body.clock, s.graph.byId[f.regressing].body.clock;
            && p.Stamp? && c.Stamp? && x.body.clock == c
            && f == ClockRegression(f.prior, f.regressing, p.wallMs, c.wallMs,
                      p.monotonicUs.Some? && c.monotonicUs.Some? && p.monotonicUs.value < c.monotonicUs.value)
            && c.basis in s.clocks.bases
  {
    hide SelectParents, Create, EvidenceOk, KindsAgree, SameAcquisition, ParentFactsAgree;
  }

  lemma RenamedWitnessBody(
    execution: string, m: Renaming, x: Entry, basis: Id, prior: Entry, regressing: Entry, prior': Entry, regressing': Entry)
    requires Injective(m) && basis in m && prior.id in m && regressing.id in m
    requires m[prior.id] == prior'.id && m[regressing.id] == regressing'.id
    requires prior'.body.clock == prior.body.clock && regressing'.body.clock == regressing.body.clock
    requires prior.body.clock.Stamp? && regressing.body.clock.Stamp? && x.body.clock == regressing.body.clock
    requires x.body.facts == WitnessBody(execution, basis, prior, regressing).facts
    requires multiset(x.body.parents) == multiset([basis, prior.id, regressing.id])
    requires FactsResolve(m, x.body.facts)
    ensures forall p :: p in x.body.parents ==> p in m
    ensures Body(execution, SortIds(MapIds(m, x.body.parents)), x.body.clock, MapFacts(m, x.body.facts)) ==
              WitnessBody(execution, m[basis], prior', regressing')
  {
    hide Injective, MapIds, SortIds;
    NamesOfThree(m, x.body.parents, basis, prior.id, regressing.id);
  }

  lemma MapThree(m: Renaming, a: Id, b: Id, c: Id)
    requires a in m && b in m && c in m
    ensures MapIds(m, [a, b, c]) == [m[a], m[b], m[c]]
  {
    assert MapIds(m, [a, b, c])[0] == m[a] && MapIds(m, [a, b, c])[1] == m[b] && MapIds(m, [a, b, c])[2] == m[c];
  }

  lemma NamesOfThree(m: Renaming, parents: seq<Id>, a: Id, b: Id, c: Id)
    requires Injective(m) && a in m && b in m && c in m && multiset(parents) == multiset([a, b, c])
    ensures forall p :: p in parents ==> p in m
    ensures SortIds(MapIds(m, parents)) == SortIds([m[a], m[b], m[c]])
  {
    hide Injective, MapIds, SortIds;
    MultisetMembers(parents, [a, b, c]);
    MapIdsPermutation(m, [a, b, c], parents);
    MapThree(m, a, b, c);
    SortIdsOfBag(MapIds(m, parents), [m[a], m[b], m[c]]);
  }

  /** Everything the two tables say about the entry that `e` fell behind. */
  ghost predicate FallenPair(m: Renaming, s: Tables, t: Tables, e: Entry, f: Entry) {
    && e.body.clock.Stamp? && f.body.clock == e.body.clock
    && var b := e.body.clock.basis;
    && b in s.clocks.lastWall && b in t.clocks.lastWall && b in s.clocks.bases && b in t.clocks.bases
    && var prior, prior' := s.clocks.lastWall[b], t.clocks.lastWall[b];
    && prior.id in m && prior.id in s.graph.byId && s.graph.byId[prior.id] == prior
    && m[prior.id] == prior'.id && prior.body.clock.Stamp? && prior'.body.clock == prior.body.clock
    && s.clocks.bases[b].id in m && m[s.clocks.bases[b].id] == t.clocks.bases[b].id
  }

  lemma FallenPairHolds(k: Kernel, execution: string, m: Renaming, s: Tables, t: Tables, e: Entry, f: Entry)
    requires Simulates(k, execution, m, s, t) && Admits(k, s, e) && f.body.clock == e.body.clock
    requires FallsBehind(s.clocks.lastWall, e) && !e.body.facts.ClockBasisDeclared?
    ensures FallenPair(m, s, t, e, f)
  {
    hide GraphOk, EvidenceOk, Sound, DepthsRenamed, EntryRenamed, Injective, SameShape, Named, PairsRenamed, NoRequests, SelectParents;
    var b := e.body.clock.basis;
    DeclarationKept(m, s.graph.byId, t.graph.byId, s.clocks.lastWall, t.clocks.lastWall, b);
    DeclarationKept(m, s.graph.byId, t.graph.byId, s.clocks.bases, t.clocks.bases, b);
  }

  /** Renaming the original witness gives the very body the acquisition replay synthesises. */
  lemma WitnessRenamed(k: Kernel, execution: string, m: Renaming, s: Tables, t: Tables, e: Entry, f: Entry, x: Entry)
    requires FallenPair(m, s, t, e, f) && Injective(m) && e.id !in m && e.id !in s.graph.byId && (forall z :: z in m ==> m[z] != f.id)
    requires !e.body.facts.ClockBasisDeclared?
    requires Admits(k, Advance(s, e), x) && Witnesses(x, s.clocks.lastWall[e.body.clock.basis].id, e.id)
    ensures var m1 := m[e.id := f.id]; var b := e.body.clock.basis;
            && (forall p :: p in x.body.parents ==> p in m1)
            && FactsResolve(m1, x.body.facts)
            && Body(execution, SortIds(MapIds(m1, x.body.parents)), x.body.clock, MapFacts(m1, x.body.facts)) ==
                 WitnessBody(execution, t.clocks.bases[b].id, t.clocks.lastWall[b], f)
  {
    hide Admits, Injective, Advance, MapIds, SortIds, MapFacts, FactsResolve;
    var m1, b, u := m[e.id := f.id], e.body.clock.basis, Advance(s, e);
    AdvanceKeepsBases(s, e);
    WitnessClock(k, u, x);
    WitnessParents(k, u, x, s.clocks.bases[b].id, s.clocks.lastWall[b].id, e.id);
    InjectiveGrows(m, e.id, f.id);
    EndsNamed(m1, x, s.clocks.lastWall[b].id, e.id);
    RenamedWitnessBody(execution, m1, x, s.clocks.bases[b].id, s.clocks.lastWall[b], e, t.clocks.lastWall[b], f);
  }

  lemma EndsNamed(m: Renaming, x: Entry, prior: Id, regressing: Id)
    requires Witnesses(x, prior, regressing) && prior in m && regressing in m
    ensures FactsResolve(m, x.body.facts)
  {
  }

  lemma AdvanceKeepsBases(s: Tables, e: Entry)
    requires !e.body.facts.ClockBasisDeclared?
    ensures Advance(s, e).clocks.bases == s.clocks.bases
    ensures Advance(s, e).graph.byId == s.graph.byId[e.id := e]
  {
    hide RecordEvidence, FallsBehind;
  }

  lemma InjectiveGrows(m: Renaming, x: Id, y: Id)
    requires Injective(m) && x !in m && forall z :: z in m ==> m[z] != y
    ensures Injective(m[x := y])
  {
  }

  lemma {:induction false} IndexValues(entries: seq<Entry>, id: Id)
    requires id in Index(entries)
    ensures exists i :: 0 <= i < |entries| && entries[i] == Index(entries)[id]
    decreases |entries|
  {
    var last := entries[|entries| - 1];
    if id != last.id {
      var front := entries[..|entries| - 1];
      IndexValues(front, id);
      var i :| 0 <= i < |front| && front[i] == Index(front)[id];
      assert entries[i] == Index(entries)[id];
    }
  }

  lemma NothingOmittedAt(entries: seq<Entry>, id: Id)
    requires NothingOmitted(entries)
    ensures !OmittedAt(Index(entries), id)
  {
    if id in Index(entries) { IndexValues(entries, id); }
  }

  /** No earlier output witnesses the newest entry. */
  lemma FrontClear(m: Renaming, entries: seq<Entry>, replayed: seq<Entry>, f: Entry)
    requires AllCorrespond(m, entries, replayed) && (forall z :: z in m ==> m[z] != f.id)
    requires !f.body.facts.ClockRegression?
    ensures var front := replayed + [f];
            forall i :: 0 <= i < |front| && front[i].body.facts.ClockRegression? ==> front[i].body.facts.regressing != f.id
  {
    hide BagRenamed;
    var front := replayed + [f];
    forall i | 0 <= i < |front| && front[i].body.facts.ClockRegression? ensures front[i].body.facts.regressing != f.id {
      if i < |replayed| {
        assert Corresponds(m, entries[i], replayed[i]);
      }
    }
  }

  /** What the acquisition walk does with an entry that fell behind: emit it and its witness. */
  lemma FallenEmission(k: Kernel, execution: string, w: Walk, f: Entry)
    requires f.body.clock.Stamp? && !f.body.facts.ClockBasisDeclared? && FallsBehind(w.lastWall, f)
    requires f.body.clock.basis in w.declarations
    ensures var b := f.body.clock.basis;
            var attested := Create(k, WitnessBody(execution, w.declarations[b], w.lastWall[b], f));
            WalkClock(k, execution, w, f) ==
              if attested.None? then None
              else Some(w.(replayed := w.replayed + [attested.value], lastWall := w.lastWall[b := attested.value]))
  {
    hide Create;
  }

  /** The original witness that follows is mapped to the synthesised one. */
  lemma WitnessMapped(original: ById, w: Walk, front: seq<Entry>, last: Entry, x: Entry)
    requires w.replayed == front + [last] && x.body.facts.ClockRegression? && last.body.facts.ClockRegression?
    requires !OmittedAt(original, x.body.facts.prior) && !OmittedAt(original, x.body.facts.regressing)
    requires x.body.facts.prior in w.remapped && x.body.facts.regressing in w.remapped
    requires last.body.facts.prior == w.remapped[x.body.facts.prior] && last.body.facts.regressing == w.remapped[x.body.facts.regressing]
    requires forall i :: 0 <= i < |front| && front[i].body.facts.ClockRegression? ==>
               front[i].body.facts.regressing != last.body.facts.regressing
    ensures WalkWitness(original, w, x) == Some(w.(remapped := w.remapped[x.id := last.id]))
  {
    FindAfter(front, last, last.body.facts.prior, last.body.facts.regressing);
  }

  /** A fallen entry, followed by its witness, keeps the walks aligned. */
  lemma PairStep(
    k: Kernel, pick: Pick, execution: string, original: ById, entries: seq<Entry>, n: nat, p: Progress, s: Tables, t: Tables, w: Walk)
    returns (q: Progress, u: Tables, v: Tables, between: Walk, after: Walk)
    requires CollisionFree(k) && Bounded(execution) && n + 1 < |entries| && Run(k, EMPTY, entries).Some?
    requires NoModeTwins(entries[..n + 1]) && NoModeTwins(entries[..n + 2])
    requires !Omitted(entries[n].body.facts) && !entries[n].body.facts.ClockRegression?
    requires forall id :: !OmittedAt(original, id)
    requires Aligned(k, execution, entries, n, p, s, t, w) && !Quiet(s.clocks, entries[n])
    requires Witnesses(entries[n + 1], s.clocks.lastWall[entries[n].body.clock.basis].id, entries[n].id)
    ensures WalkStep(k, pick, execution, original, w, entries[n]) == Some(between)
    ensures WalkStep(k, pick, execution, original, between, entries[n + 1]) == Some(after)
    ensures Aligned(k, execution, entries, n + 2, q, u, v, after)
  {
    hide CollisionFree, NoModeTwins, Run, ReplayRun, Simulates, Holds, AllCorrespond, Admits, RecordEvidence, RecordGraph, WalkEmit,
      WalkClock, EntryRenamed, Injective, StrictlyAscending, SortIds, WitnessBody, Create, MapIds, MapFacts, OmittedAt, WalkWitness, FactsResolve;
    var e, x := entries[n], entries[n + 1];
    var p1, s1, t1 := NextTogether(k, execution, entries, n, p, s, t);
    var f := Relabel(k, execution, p.mapped, e).value;
    NextPairHolds(k, execution, p.mapped, s, t, e);
    SameEmission(k, execution, original, p.mapped, w, e);
    FallenPairHolds(k, execution, p.mapped, s, t, e, f);
    SimulatedKeys(k, execution, p.mapped, s, t, e);
    AdmittedFresh(k, t, f);
    NamesApart(k, execution, p.mapped, s, t, f.id);
    q, u, v := NextTogether(k, execution, entries, n + 1, p1, s1, t1);
    WitnessRenamed(k, execution, p.mapped, s, t, e, f, x);
    var b := e.body.clock.basis;
    var emitted := w.(replayed := w.replayed + [f], remapped := p.mapped[e.id := f.id]);
    FallenEmission(k, execution, emitted, f);
    var g := Relabel(k, execution, p1.mapped, x).value;
    RelabelIs(k, execution, p1.mapped, x);
    between := emitted.(replayed := emitted.replayed + [g], lastWall := w.lastWall[b := g]);
    FrontClear(p.mapped, entries[..n], p.replayed, f);
    WitnessEnds(k, execution, t.clocks.bases[b].id, t.clocks.lastWall[b], f, g);
    WitnessMapped(original, between, emitted.replayed, g, x);
    after := between.(remapped := between.remapped[x.id := g.id]);
    WitnessStamp(k, s, e, x);
    PairClocks(s.clocks, e, x);
    PairClocks(t.clocks, f, g);
    hide RecordClock;
  }

  lemma WitnessStamp(k: Kernel, s: Tables, e: Entry, x: Entry)
    requires Admits(k, Advance(s, e), x) && x.body.facts.ClockRegression? && x.body.facts.regressing == e.id
    ensures x.body.clock == e.body.clock
  {
    hide Admits, RecordClock, RecordEvidence;
    WitnessClock(k, Advance(s, e), x);
  }

  lemma PairClocks(c: Clocks, e: Entry, x: Entry)
    requires e.body.clock.Stamp? && FallsBehind(c.lastWall, e)
    requires !e.body.facts.ClockBasisDeclared? && !e.body.facts.ClockRegression?
    requires Witnesses(x, c.lastWall[e.body.clock.basis].id, e.id) && x.body.clock == e.body.clock
    ensures var d := RecordClock(RecordClock(c, e), x);
            && (c.required == c.witnessed ==> d.required == d.witnessed)
            && d.bases == c.bases
            && d.lastWall == c.lastWall[e.body.clock.basis := x]
  {
  }

  lemma NamesApart(k: Kernel, execution: string, m: Renaming, s: Tables, t: Tables, y: Id)
    requires Simulates(k, execution, m, s, t) && y !in t.graph.byId
    ensures forall z :: z in m ==> m[z] != y
  {
    hide ClocksRenamed, Sound, Named, NoRequests, DepthsRenamed, EntryRenamed;
    NewNameApart(m, s.graph.byId, t.graph.byId, y);
  }

  lemma RelabelIs(k: Kernel, execution: string, m: Renaming, x: Entry)
    requires Relabel(k, execution, m, x).Some?
    ensures (forall p :: p in x.body.parents ==> p in m) && FactsResolve(m, x.body.facts)
    ensures Relabel(k, execution, m, x) ==
              Create(k, Body(execution, SortIds(MapIds(m, x.body.parents)), x.body.clock, MapFacts(m, x.body.facts)))
  {
    hide Create, SortIds, MapIds, MapFacts;
  }

  lemma WitnessEnds(k: Kernel, execution: string, basis: Id, prior: Entry, f: Entry, g: Entry)
    requires prior.body.clock.Stamp? && f.body.clock.Stamp?
    requires Create(k, WitnessBody(execution, basis, prior, f)) == Some(g)
    ensures g.body.facts.ClockRegression? && g.body.facts.prior == prior.id && g.body.facts.regressing == f.id
    ensures g.body.clock == f.body.clock
  {
    hide ValidFacts, SortIds;
  }

  // ----- What acceptance says about witnesses -----

  lemma {:induction false} RunHolds(k: Kernel, entries: seq<Entry>, n: nat)
    requires n <= |entries| && Run(k, EMPTY, entries).Some?
    ensures Run(k, EMPTY, entries[..n]).Some? && Holds(Run(k, EMPTY, entries[..n]).value.graph.byId, entries[..n])
  {
    hide Admits, RecordClock, RecordEvidence;
    if n == 0 {
      assert entries[..0] == [];
    } else {
      RunHolds(k, entries, n - 1);
      RunLast(k, entries, n - 1);
      var s := Run(k, EMPTY, entries[..n - 1]).value;
      AdmittedFresh(k, s, entries[n - 1]);
      HoldsGrows(s.graph.byId, entries[..n - 1], entries[n - 1]);
      assert entries[..n] == entries[..n - 1] + [entries[n - 1]];
    }
  }

  /** No two entries of a run share a name. */
  lemma DistinctNames(k: Kernel, entries: seq<Entry>, i: nat, j: nat)
    requires i < |entries| && j < |entries| && Run(k, EMPTY, entries).Some? && entries[i].id == entries[j].id
    ensures i == j
  {
    hide Admits, Run;
    var lo, hi := if i < j then i else j, if i < j then j else i;
    if lo < hi {
      RunHolds(k, entries, hi);
      RunLast(k, entries, hi);
      assert entries[..hi][lo] == entries[lo];
      AdmittedFresh(k, Run(k, EMPTY, entries[..hi]).value, entries[hi]);
    }
  }

  lemma {:induction false} RequiredGrows(k: Kernel, entries: seq<Entry>, n: nat)
    requires n <= |entries| && Run(k, EMPTY, entries).Some?
    ensures Run(k, EMPTY, entries[..n]).Some?
    ensures Run(k, EMPTY, entries[..n]).value.clocks.required <= Run(k, EMPTY, entries).value.clocks.required
    decreases |entries| - n
  {
    hide Admits, Run, RecordEvidence, FallsBehind;
    if n == |entries| {
      assert entries[..n] == entries;
    } else {
      RunLast(k, entries, n);
      RequiredGrows(k, entries, n + 1);
    }
  }

  lemma {:induction false} WitnessedFrom(k: Kernel, entries: seq<Entry>, n: nat, prior: Id, regressing: Id)
    requires n <= |entries| && Run(k, EMPTY, entries).Some?
    requires Run(k, EMPTY, entries[..n]).Some? && (prior, regressing) in Run(k, EMPTY, entries[..n]).value.clocks.witnessed
    ensures exists j :: 0 <= j < n && Witnesses(entries[j], prior, regressing)
  {
    hide Admits, RecordEvidence, FallsBehind;
    assert entries[..0] == [];
    if n > 0 {
      RunLast(k, entries, n - 1);
      var s := Run(k, EMPTY, entries[..n - 1]).value;
      if (prior, regressing) in s.clocks.witnessed {
        WitnessedFrom(k, entries, n - 1, prior, regressing);
      } else {
        assert Witnesses(entries[n - 1], prior, regressing);
      }
    }
  }

  /** With prompt witnesses, an entry that fell behind is followed by its witness. */
  lemma WitnessFollows(k: Kernel, entries: seq<Entry>, n: nat, s: Tables)
    requires n < |entries| && Accepted(k, entries) && PromptWitnesses(entries)
    requires Run(k, EMPTY, entries[..n]) == Some(s) && !Quiet(s.clocks, entries[n]) && !entries[n].body.facts.ClockRegression?
    ensures n + 1 < |entries|
    ensures Witnesses(entries[n + 1], s.clocks.lastWall[entries[n].body.clock.basis].id, entries[n].id)
  {
    hide Admits, Run, RecordEvidence;
    var final := Run(k, EMPTY, entries).value;
    var prior := s.clocks.lastWall[entries[n].body.clock.basis].id;
    RunLast(k, entries, n);
    RequiredGrows(k, entries, n + 1);
    assert (prior, entries[n].id) in final.clocks.witnessed;
    assert entries[..|entries|] == entries;
    WitnessedFrom(k, entries, |entries|, prior, entries[n].id);
    var j :| 0 <= j < |entries| && Witnesses(entries[j], prior, entries[n].id);
    DistinctNames(k, entries, j - 1, n);
  }

  lemma NothingOwed(k: Kernel, s: Tables, e: Entry)
    requires Admits(k, s, e) && s.clocks.required == s.clocks.witnessed
    ensures !e.body.facts.ClockRegression?
  {
    hide Create, EvidenceOk, KindsAgree, SameAcquisition, ParentFactsAgree, SelectParents;
  }

  // ----- The agreement theorem -----

  /** Accepted, nothing to drop, and replayable. */
  ghost predicate Replayable(k: Kernel, entries: seq<Entry>, execution: string) {
    && CollisionFree(k) && Bounded(execution) && Accepted(k, entries)
    && NothingOmitted(entries) && NoModeTwins(entries)
  }

  lemma TwinsPrefix(entries: seq<Entry>, n: nat)
    requires n <= |entries| && NoModeTwins(entries)
    ensures NoModeTwins(entries[..n])
  {
    hide ModeTwins;
    var head := entries[..n];
    forall i, j | 0 <= i < j < |head| ensures !ModeTwins(head[i], head[j]) {
      assert head[i] == entries[i] && head[j] == entries[j];
    }
  }

  /** From any aligned point, prompt witnesses keep the walks aligned to the end. */
  lemma {:induction false} AgreeFrom(
    k: Kernel, pick: Pick, execution: string, entries: seq<Entry>, n: nat, p: Progress, s: Tables, t: Tables, w: Walk)
    requires Replayable(k, entries, execution) && PromptWitnesses(entries)
    requires n <= |entries| && Aligned(k, execution, entries, n, p, s, t, w)
    requires WalkRun(k, pick, execution, Index(entries), entries[..n]) == Some(w)
    ensures var all := WalkRun(k, pick, execution, Index(entries), entries);
            && all.Some? && ReplayRun(k, execution, entries).Some?
            && all.value.replayed == ReplayRun(k, execution, entries).value.replayed
    decreases |entries| - n
  {
    hide CollisionFree, NoModeTwins, Run, ReplayRun, WalkRun, Simulates, Holds, AllCorrespond, Admits, WalkStep, PromptWitnesses, Settled,
      OmittedAt, Quiet, Index, Witnesses, Tracked;
    var original := Index(entries);
    if n == |entries| {
      TrackedOutput(p, t, w);
      assert entries[..n] == entries;
    } else {
      RunLast(k, entries, n);
      NothingOwed(k, s, entries[n]);
      WalkRunLast(k, pick, execution, original, entries, n);
      TwinsPrefix(entries, n + 1);
      if Quiet(s.clocks, entries[n]) {
        var q, u, v, x := OrdinaryStep(k, pick, execution, original, entries, n, p, s, t, w);
        AgreeFrom(k, pick, execution, entries, n + 1, q, u, v, x);
      } else {
        forall id ensures !OmittedAt(original, id) { NothingOmittedAt(entries, id); }
        WitnessFollows(k, entries, n, s);
        TwinsPrefix(entries, n + 2);
        var q, u, v, between, after := PairStep(k, pick, execution, original, entries, n, p, s, t, w);
        WalkRunLast(k, pick, execution, original, entries, n + 1);
        AgreeFrom(k, pick, execution, entries, n + 2, q, u, v, after);
      }
    }
  }

  lemma TrackedOutput(p: Progress, t: Tables, w: Walk)
    requires Tracked(p, t, w)
    ensures w.replayed == p.replayed
  {
  }

  lemma StartAligned(k: Kernel, pick: Pick, execution: string, entries: seq<Entry>)
    ensures Aligned(k, execution, entries, 0, START, EMPTY, EMPTY, NO_WALK)
    ensures WalkRun(k, pick, execution, Index(entries), entries[..0]) == Some(NO_WALK)
  {
    hide Together;
    StartTogether(k, execution, entries);
    assert entries[..0] == [];
  }

  // ----- Its converse -----

  predicate Extends(a: seq<Entry>, b: seq<Entry>) {
    |a| <= |b| && b[..|a|] == a
  }

  lemma ClockExtends(k: Kernel, execution: string, w: Walk, f: Entry)
    requires WalkClock(k, execution, w, f).Some?
    ensures Extends(w.replayed, WalkClock(k, execution, w, f).value.replayed)
  {
    hide Create, WitnessBody, FallsBehind;
  }

  lemma StepExtends(k: Kernel, pick: Pick, execution: string, original: ById, w: Walk, e: Entry)
    requires WalkStep(k, pick, execution, original, w, e).Some?
    ensures var x := WalkStep(k, pick, execution, original, w, e).value;
            Extends(w.replayed, x.replayed)
  {
    hide Create, WalkClock, Rewire, FindWitness, Survivors, OmittedAt, ReplayFacts, SortIds;
    var parents := Rewire(original, w, e, e.body.parents, []);
    if !e.body.facts.ClockRegression? && !Omitted(e.body.facts) && parents.Some? {
      var f := Create(k, Body(execution, SortIds(parents.value), e.body.clock, ReplayFacts(e.body.facts)));
      if f.Some? {
        var emitted := w.(replayed := w.replayed + [f.value], remapped := w.remapped[e.id := f.value.id]);
        ClockExtends(k, execution, emitted, f.value);
        assert emitted.replayed[..|w.replayed|] == w.replayed;
      }
    }
  }

  lemma {:induction false} WalkPrefix(k: Kernel, pick: Pick, execution: string, original: ById, entries: seq<Entry>, n: nat)
    requires n <= |entries| && WalkRun(k, pick, execution, original, entries).Some?
    ensures WalkRun(k, pick, execution, original, entries[..n]).Some?
    ensures var w, all := WalkRun(k, pick, execution, original, entries[..n]).value, WalkRun(k, pick, execution, original, entries).value;
            |w.replayed| <= |all.replayed| && w.replayed == all.replayed[..|w.replayed|]
    decreases |entries| - n
  {
    hide WalkRun, WalkStep;
    if n == |entries| {
      assert entries[..n] == entries;
    } else {
      WalkPrefix(k, pick, execution, original, entries, n + 1);
      WalkRunLast(k, pick, execution, original, entries, n);
      StepExtends(k, pick, execution, original, WalkRun(k, pick, execution, original, entries[..n]).value, entries[n]);
    }
  }

  lemma {:induction false} ReplayLength(k: Kernel, execution: string, entries: seq<Entry>, n: nat)
    requires n <= |entries| && ReplayRun(k, execution, entries).Some?
    ensures ReplayRun(k, execution, entries[..n]).Some? && |ReplayRun(k, execution, entries[..n]).value.replayed| == n
  {
    hide Relabel;
    if n == 0 {
      assert entries[..0] == [];
    } else {
      ReplayLength(k, execution, entries, n - 1);
      ReplayPrefix(k, execution, entries, n);
      ReplayRunLast(k, execution, entries, n - 1);
    }
  }

  /** A renamed entry that is a witness was a witness of the entries those names belong to. */
  lemma WitnessUnnamed(k: Kernel, execution: string, m: Renaming, x: Entry, g: Entry, prior: Id, regressing: Id)
    requires Injective(m) && prior in m && regressing in m
    requires Relabel(k, execution, m, x) == Some(g) && Witnesses(g, m[prior], m[regressing])
    ensures Witnesses(x, prior, regressing)
  {
    hide ValidFacts, SortIds, MapIds;
  }

  /** Equal outputs show the witness directly behind an entry that fell behind. */
  lemma WitnessSeen(
    k: Kernel, pick: Pick, execution: string, entries: seq<Entry>, n: nat, p: Progress, s: Tables, t: Tables, w: Walk)
    requires Replayable(k, entries, execution)
    requires n < |entries| && Aligned(k, execution, entries, n, p, s, t, w)
    requires WalkRun(k, pick, execution, Index(entries), entries[..n]) == Some(w)
    requires ReplayRun(k, execution, entries).Some? && WalkRun(k, pick, execution, Index(entries), entries).Some?
    requires WalkRun(k, pick, execution, Index(entries), entries).value.replayed == ReplayRun(k, execution, entries).value.replayed
    requires !Quiet(s.clocks, entries[n])
    ensures n + 1 < |entries| && Witnesses(entries[n + 1], s.clocks.lastWall[entries[n].body.clock.basis].id, entries[n].id)
  {
    hide CollisionFree, NoModeTwins, Run, ReplayRun, WalkRun, Simulates, Holds, AllCorrespond, Admits, RecordEvidence, RecordGraph, WalkEmit,
      WalkClock, EntryRenamed, Injective, StrictlyAscending, SortIds, WitnessBody, Create, MapIds, MapFacts, OmittedAt, WalkWitness, FactsResolve,
      Index, Relabel, RecordClock, PromptWitnesses, Declared, Settled;
    var e, original := entries[n], Index(entries);
    var out := ReplayRun(k, execution, entries).value.replayed;
    RunLast(k, entries, n);
    NothingOwed(k, s, e);
    TwinsPrefix(entries, n + 1);
    var p1, s1, t1 := NextTogether(k, execution, entries, n, p, s, t);
    var f := Relabel(k, execution, p.mapped, e).value;
    NextPairHolds(k, execution, p.mapped, s, t, e);
    SameEmission(k, execution, original, p.mapped, w, e);
    FallenPairHolds(k, execution, p.mapped, s, t, e, f);
    SimulatedKeys(k, execution, p.mapped, s, t, e);
    AdmittedFresh(k, t, f);
    NamesApart(k, execution, p.mapped, s, t, f.id);
    InjectiveGrows(p.mapped, e.id, f.id);
    var b := e.body.clock.basis;
    var emitted := w.(replayed := w.replayed + [f], remapped := p.mapped[e.id := f.id]);
    DeclaredBasis(t.clocks.bases, w.declarations, b);
    FallenEmission(k, execution, emitted, f);
    WalkRunLast(k, pick, execution, original, entries, n);
    WalkPrefix(k, pick, execution, original, entries, n + 1);
    var g := Create(k, WitnessBody(execution, t.clocks.bases[b].id, t.clocks.lastWall[b], f)).value;
    WitnessEnds(k, execution, t.clocks.bases[b].id, t.clocks.lastWall[b], f, g);
    ReplayLength(k, execution, entries, n);
    ReplayLength(k, execution, entries, |entries|);
    assert entries[..|entries|] == entries;
    assert out[n + 1] == g by {
      assert out[..n + 2] == w.replayed + [f] + [g];
      assert out[..n + 2][n + 1] == g;
    }
    ReplayedAt(k, execution, entries, n + 1);
    ReplayLength(k, execution, entries, n + 1);
    assert Relabel(k, execution, p1.mapped, entries[n + 1]) == Some(g) by {
      assert out[..n + 2][n + 1] == Relabel(k, execution, p1.mapped, entries[n + 1]).value;
    }
    WitnessUnnamed(k, execution, p1.mapped, entries[n + 1], g, s.clocks.lastWall[b].id, e.id);
  }

  lemma DeclaredBasis(bases: ById, declarations: map<Id, Id>, b: Id)
    requires Declared(bases, declarations) && b in bases
    ensures b in declarations && declarations[b] == bases[b].id
  {
  }

  predicate PromptFrom(entries: seq<Entry>, n: nat) {
    forall i :: n <= i < |entries| && entries[i].body.facts.ClockRegression? ==>
      n < i && entries[i].body.facts.regressing == entries[i - 1].id
  }

  lemma {:induction false} SeenPromptFrom(
    k: Kernel, pick: Pick, execution: string, entries: seq<Entry>, n: nat, p: Progress, s: Tables, t: Tables, w: Walk)
    requires Replayable(k, entries, execution)
    requires n <= |entries| && Aligned(k, execution, entries, n, p, s, t, w)
    requires WalkRun(k, pick, execution, Index(entries), entries[..n]) == Some(w)
    requires ReplayRun(k, execution, entries).Some? && WalkRun(k, pick, execution, Index(entries), entries).Some?
    requires WalkRun(k, pick, execution, Index(entries), entries).value.replayed == ReplayRun(k, execution, entries).value.replayed
    ensures PromptFrom(entries, n)
    decreases |entries| - n
  {
    hide CollisionFree, NoModeTwins, Run, ReplayRun, WalkRun, Simulates, Holds, AllCorrespond, Admits, WalkStep, PromptWitnesses, Settled,
      OmittedAt, Quiet, Index, Tracked, RecordClock;
    var original := Index(entries);
    if n < |entries| {
      RunLast(k, entries, n);
      NothingOwed(k, s, entries[n]);
      WalkRunLast(k, pick, execution, original, entries, n);
      TwinsPrefix(entries, n + 1);
      if Quiet(s.clocks, entries[n]) {
        var q, u, v, x := OrdinaryStep(k, pick, execution, original, entries, n, p, s, t, w);
        SeenPromptFrom(k, pick, execution, entries, n + 1, q, u, v, x);
      } else {
        forall id ensures !OmittedAt(original, id) { NothingOmittedAt(entries, id); }
        WitnessSeen(k, pick, execution, entries, n, p, s, t, w);
        TwinsPrefix(entries, n + 2);
        var q, u, v, between, after := PairStep(k, pick, execution, original, entries, n, p, s, t, w);
        WalkRunLast(k, pick, execution, original, entries, n + 1);
        SeenPromptFrom(k, pick, execution, entries, n + 2, q, u, v, after);
      }
    }
  }

  lemma NothingOmittedNoRequests(entries: seq<Entry>)
    requires NothingOmitted(entries)
    ensures NoRequestFacts(entries)
  {
  }

  lemma PromptAgrees(k: Kernel, pick: Pick, entries: seq<Entry>, execution: string)
    requires Replayable(k, entries, execution)
    ensures ReplayRecorded(k, entries, execution).Some?
    ensures ReplayAcquisition(k, pick, entries, execution) == ReplayRecorded(k, entries, execution) <==> PromptWitnesses(entries)
  {
    hide CollisionFree, NoModeTwins, Run, ReplayRun, WalkRun, Aligned, Index, Settled, NothingOmitted;
    NothingOmittedNoRequests(entries);
    ReplayAccepted(k, entries, execution);
    StartAligned(k, pick, execution, entries);
    if PromptWitnesses(entries) {
      AgreeFrom(k, pick, execution, entries, 0, START, EMPTY, EMPTY, NO_WALK);
    }
    if ReplayAcquisition(k, pick, entries, execution) == ReplayRecorded(k, entries, execution) {
      SeenPromptFrom(k, pick, execution, entries, 0, START, EMPTY, EMPTY, NO_WALK);
    }
  }

  // ----- What the acquisition replay emits -----

  /** The shape of one entry that the acquisition replay emits. */
  predicate Emitted(k: Kernel, execution: string, f: Entry) {
    && Create(k, f.body) == Some(f)
    && f.body.execution == execution
    && !Omitted(f.body.facts)
    && (f.body.facts.ArtifactCommitted? ==> f.body.facts.mode == Replay)
  }

  predicate AllEmitted(k: Kernel, execution: string, out: seq<Entry>) {
    forall i :: 0 <= i < |out| ==> Emitted(k, execution, out[i])
  }

  lemma CreateIdempotent(k: Kernel, body: Body)
    requires Create(k, body).Some?
    ensures Create(k, Create(k, body).value.body) == Create(k, body) && Create(k, body).value.body == body
  {
  }

  lemma PromptGrows(out: seq<Entry>, f: Entry)
    requires PromptWitnesses(out)
    requires f.body.facts.ClockRegression? ==> out != [] && f.body.facts.regressing == out[|out| - 1].id
    ensures PromptWitnesses(out + [f])
  {
    var more := out + [f];
    forall i | 0 <= i < |more| && more[i].body.facts.ClockRegression? ensures 0 < i && more[i].body.facts.regressing == more[i - 1].id {
      if i < |out| { assert out[i] == more[i]; }
    }
  }

  lemma ClockShape(k: Kernel, execution: string, w: Walk, f: Entry)
    requires WalkClock(k, execution, w, f).Some?
    requires w.replayed != [] && w.replayed[|w.replayed| - 1] == f
    requires AllEmitted(k, execution, w.replayed) && PromptWitnesses(w.replayed)
    ensures var x := WalkClock(k, execution, w, f).value;
            AllEmitted(k, execution, x.replayed) && PromptWitnesses(x.replayed)
  {
    hide Create, SortIds, PromptWitnesses;
    var b := f.body.clock;
    if !f.body.facts.ClockBasisDeclared? && b.Stamp? && FallsBehind(w.lastWall, f) && b.basis in w.declarations {
      var body := WitnessBody(execution, w.declarations[b.basis], w.lastWall[b.basis], f);
      CreateIdempotent(k, body);
      PromptGrows(w.replayed, Create(k, body).value);
    }
  }

  lemma StepShape(k: Kernel, pick: Pick, execution: string, original: ById, w: Walk, e: Entry)
    requires WalkStep(k, pick, execution, original, w, e).Some?
    requires AllEmitted(k, execution, w.replayed) && PromptWitnesses(w.replayed)
    ensures var x := WalkStep(k, pick, execution, original, w, e).value;
            AllEmitted(k, execution, x.replayed) && PromptWitnesses(x.replayed)
  {
    hide Create, WalkClock, Rewire, FindWitness, Survivors, OmittedAt, SortIds, PromptWitnesses;
    var parents := Rewire(original, w, e, e.body.parents, []);
    if !e.body.facts.ClockRegression? && !Omitted(e.body.facts) && parents.Some? {
      var body := Body(execution, SortIds(parents.value), e.body.clock, ReplayFacts(e.body.facts));
      if Create(k, body).Some? {
        CreateIdempotent(k, body);
        var f := Create(k, body).value;
        PromptGrows(w.replayed, f);
        ClockShape(k, execution, w.(replayed := w.replayed + [f], remapped := w.remapped[e.id := f.id]), f);
      }
    }
  }

  lemma {:induction false} RunShape(k: Kernel, pick: Pick, execution: string, original: ById, entries: seq<Entry>, n: nat)
    requires n <= |entries| && WalkRun(k, pick, execution, original, entries).Some?
    ensures WalkRun(k, pick, execution, original, entries[..n]).Some?
    ensures var w := WalkRun(k, pick, execution, original, entries[..n]).value;
            AllEmitted(k, execution, w.replayed) && PromptWitnesses(w.replayed)
  {
    hide WalkStep, Emitted;
    WalkPrefix(k, pick, execution, original, entries, n);
    if n == 0 {
      assert entries[..0] == [];
    } else {
      RunShape(k, pick, execution, original, entries, n - 1);
      WalkRunLast(k, pick, execution, original, entries, n - 1);
      StepShape(k, pick, execution, original, WalkRun(k, pick, execution, original, entries[..n - 1]).value, entries[n - 1]);
    }
  }

  /** A renamed list without request or failure facts is the renaming of a list without them. */
  lemma OmittedSeen(k: Kernel, entries: seq<Entry>, execution: string, out: seq<Entry>)
    requires CollisionFree(k) && ReplayRecorded(k, entries, execution) == Some(out) && AllEmitted(k, execution, out)
    ensures NothingOmitted(entries)
  {
    ReplayIsomorphic(k, entries, execution);
    forall i | 0 <= i < |entries| ensures !Omitted(entries[i].body.facts) {
      hide *;
      SameKind(k, execution, RenamingOf(k, entries, execution), entries, out, i);
    }
  }

  lemma SameKind(k: Kernel, execution: string, m: Renaming, entries: seq<Entry>, out: seq<Entry>, i: nat)
    requires AllEmitted(k, execution, out) && i < |entries| && i < |out| && SameNode(m, entries[i], out[i])
    ensures !Omitted(entries[i].body.facts)
  {
    hide Create;
    assert Emitted(k, execution, out[i]);
  }

  /** Both replays return, and return the same list, exactly for the ledgers without request and failure
      facts and without mode twins in which each regression witness directly follows the entry it witnesses. */
  lemma ReplaysAgree(k: Kernel, pick: Pick, entries: seq<Entry>, execution: string)
    requires CollisionFree(k) && Accepted(k, entries)
    ensures ReplayRecorded(k, entries, execution).Some?
              && ReplayAcquisition(k, pick, entries, execution) == ReplayRecorded(k, entries, execution)
            <==> Bounded(execution) && NothingOmitted(entries) && NoModeTwins(entries) && PromptWitnesses(entries)
  {
    hide CollisionFree, NoModeTwins, Run, ReplayRun, WalkRun, Index, Settled, NothingOmitted, PromptWitnesses, Emitted, NoRequestFacts;
    ReplayAccepted(k, entries, execution);
    if ReplayRecorded(k, entries, execution).Some?
       && ReplayAcquisition(k, pick, entries, execution) == ReplayRecorded(k, entries, execution) {
      RunShape(k, pick, execution, Index(entries), entries, |entries|);
      assert entries[..|entries|] == entries;
      OmittedSeen(k, entries, execution, ReplayRecorded(k, entries, execution).value);
    }
    if Bounded(execution) && NothingOmitted(entries) && NoModeTwins(entries) {
      PromptAgrees(k, pick, entries, execution);
    }
  }
}
