/**
  The acquisition replay of a ledger with request and failure facts: no dropped row ever stops it, each is
  represented by the surviving stage fact it hangs on, and everything else is carried over in its place.
 */
module AcquisitionMeaning {
  import opened Base
  import opened ObservationLedger
  import opened LedgerInvariants
  import opened ReplayTheorem
  import opened LedgerReplay
  import opened AcquisitionReplay
  import opened ReplayAgreement
  import LedgerMeaning
  import LedgerClocks

  // ----- What is kept and what is dropped -----

  predicate Dropped(e: Entry) {
    e.body.facts.RequestStarted? || e.body.facts.RequestSucceeded? || e.body.facts.FailureRecorded?
  }

  /** Neither dropped nor a witness, which is attested anew. */
  predicate Kept(e: Entry) {
    !Dropped(e) && !e.body.facts.ClockRegression?
  }

  function KeptOf(entries: seq<Entry>): seq<Entry> {
    if entries == [] then []
    else KeptOf(entries[..|entries| - 1]) + if Kept(entries[|entries| - 1]) then [entries[|entries| - 1]] else []
  }

  function Witnessless(entries: seq<Entry>): seq<Entry> {
    if entries == [] then []
    else
      Witnessless(entries[..|entries| - 1])
      + if entries[|entries| - 1].body.facts.ClockRegression? then [] else [entries[|entries| - 1]]
  }

  /** Commits are carried over as replayed ones, all other facts as they are. */
  predicate FactsCarried(f: Facts, g: Facts) {
    if f.ArtifactCommitted? then g == f.(mode := Replay) else g == f
  }

  /** A live commit leaves its request behind. */
  predicate LeftBehind(byId: ById, e: Entry, p: Id) {
    e.body.facts.ArtifactCommitted? && e.body.facts.mode == Live && p in byId && FactsAt(byId, p).RequestSucceeded?
  }

  /** The new form of a kept entry: same clock, same facts, and for parents the new names of the old ones. */
  predicate Imaged(byId: ById, m: Renaming, execution: string, e: Entry, f: Entry) {
    && e.id in m && m[e.id] == f.id && f.body.execution == execution
    && f.body.clock == e.body.clock && FactsCarried(e.body.facts, f.body.facts)
    && StrictlyAscending(f.body.parents) && |f.body.parents| <= |e.body.parents|
    && (forall p :: p in e.body.parents && !LeftBehind(byId, e, p) ==> p in m && m[p] in f.body.parents)
    && (forall y :: y in f.body.parents ==> exists p :: p in e.body.parents && !LeftBehind(byId, e, p) && p in m && m[p] == y)
  }

  predicate AllImaged(byId: ById, m: Renaming, execution: string, es: seq<Entry>, fs: seq<Entry>) {
    |es| == |fs| && forall i :: 0 <= i < |es| ==> Imaged(byId, m, execution, es[i], fs[i])
  }

  /** A way from a kept stage fact down to a dropped one, through stage facts alone. */
  predicate HangsOn(entries: seq<Entry>, p: seq<nat>, i: nat)
  {
    && i < |entries| && LedgerMeaning.PathTo(entries, p, i) && |p| > 1
    && Kept(entries[p[0]]) && forall j :: 0 <= j < |p| ==> !entries[p[j]].body.facts.ClockBasisDeclared?
  }

  ghost predicate Represented(entries: seq<Entry>, m: Renaming, i: nat)
    requires i < |entries|
  {
    exists p :: HangsOn(entries, p, i) && entries[i].id in m && entries[p[0]].id in m && m[entries[i].id] == m[entries[p[0]].id]
  }

  // ----- The parents of an accepted entry -----

  lemma RequiredAmong(byId: ById, causal: seq<Id>, f: Facts, x: Id)
    requires (forall y :: y in causal ==> y in byId) && x in causal
    requires multiset(KindsOf(byId, causal)) == multiset(RequiredKinds(f))
    ensures KindOf(FactsAt(byId, x)) in RequiredKinds(f)
  {
    var i :| 0 <= i < |causal| && causal[i] == x;
    var kinds := KindsOf(byId, causal);
    assert kinds[i] in kinds;
    MultisetMembers(kinds, RequiredKinds(f));
    hide RequiredKinds;
  }

  lemma TransitionKinds(byId: ById, e: Entry)
    requires ParentTransition(byId, e) && !e.body.facts.ClockRegression?
    ensures KindsAgree(byId, CausalIds(byId, e.body.parents), e.body.facts)
    ensures e.body.facts.FailureRecorded? ==> StageFollows(e.body.facts.stage, e.body.facts.failedAfter)
  {
    hide SelectParents, KindsAgree, SameAcquisition, StageFollows, LinkBacked, SelectionBacked, CapturesEmission;
  }

  lemma OneRequired(f: Facts)
    requires f.RequestStarted? || f.RequestSucceeded? || (f.FailureRecorded? && StageFollows(f.stage, f.failedAfter))
    ensures |RequiredKinds(f)| == 1 && RequiredKinds(f)[0] !in {KClockBasis, KRegression}
  {
  }

  /** A dropped row hangs on exactly one stage fact, and that is no witness. */
  lemma DroppedHangs(byId: ById, e: Entry)
    requires ParentTransition(byId, e) && Dropped(e)
    ensures var causal := CausalIds(byId, e.body.parents);
            && |causal| == 1 && causal[0] in byId && causal[0] in e.body.parents
            && !FactsAt(byId, causal[0]).ClockBasisDeclared? && !FactsAt(byId, causal[0]).ClockRegression?
  {
    hide ParentTransition, SelectParents, RequiredKinds, StageFollows, KindsOf;
    var causal := CausalIds(byId, e.body.parents);
    TransitionKinds(byId, e);
    OneRequired(e.body.facts);
    assert RequiredKinds(e.body.facts) == [RequiredKinds(e.body.facts)[0]];
    SingleKind(byId, causal, RequiredKinds(e.body.facts)[0]);
    assert causal[0] in causal;
  }

  lemma KeptRequires(f: Facts, kind: Kind)
    requires kind in RequiredKinds(f) && !IsRequest(f) && !f.FailureRecorded?
    ensures kind !in {KRequestStarted, KFailure, KRegression}
    ensures kind == KRequestSucceeded ==> f.ArtifactCommitted? && f.mode == Live
  {
  }

  /** A kept entry hangs on kept ones alone, but for the request of a live commit. */
  lemma KeptHangs(byId: ById, e: Entry, p: Id)
    requires ParentTransition(byId, e) && Kept(e) && p in e.body.parents && p in byId
    ensures LeftBehind(byId, e, p) || Kept(byId[p])
  {
    hide ParentTransition, SelectParents, RequiredKinds, StageFollows, KindsOf;
    var causal := CausalIds(byId, e.body.parents);
    var f := e.body.facts;
    TransitionKinds(byId, e);
    if p in causal {
      if f.SelectionRecorded? && f.selection.byCapture {
        assert causal == [causal[0]];
      } else {
        RequiredAmong(byId, causal, f, p);
        KeptRequires(f, KindOf(FactsAt(byId, p)));
      }
    }
  }

  lemma WitnessEndsHere(byId: ById, e: Entry)
    requires ParentTransition(byId, e) && e.body.facts.ClockRegression?
    ensures var f := e.body.facts;
            && f.prior in byId && f.regressing in byId && f.prior in e.body.parents && f.regressing in e.body.parents
            && !FactsAt(byId, f.prior).ClockBasisDeclared? && !FactsAt(byId, f.regressing).ClockBasisDeclared?
  {
    var causal := CausalIds(byId, e.body.parents);
    var f := e.body.facts;
    assert f.prior in multiset(causal) && f.regressing in multiset(causal);
    hide SelectParents;
  }

  // ----- The walk after a prefix -----

  /** The new name of an entry is that of an emitted one, a declaration exactly if it was one. */
  predicate NamesOne(w: Walk, x: Id, e: Entry) {
    && x in w.remapped && w.remapped[x] in Index(w.replayed)
    && FactsAt(Index(w.replayed), w.remapped[x]).ClockBasisDeclared? == e.body.facts.ClockBasisDeclared?
  }

  ghost predicate AllNamed(w: Walk, byId: ById) {
    w.remapped.Keys == byId.Keys && forall x :: x in byId ==> NamesOne(w, x, byId[x])
  }

  ghost predicate AllRepresented(entries: seq<Entry>, m: Renaming) {
    forall i :: 0 <= i < |entries| && Dropped(entries[i]) ==> Represented(entries, m, i)
  }

  predicate DeclarationsKnown(w: Walk, byId: ById) {
    && (forall x :: x in byId && FactsAt(byId, x).ClockBasisDeclared? ==> FactsAt(byId, x).clockBasis.id in w.declarations)
    && forall b :: b in w.declarations ==>
         w.declarations[b] in Index(w.replayed) && FactsAt(Index(w.replayed), w.declarations[b]).ClockBasisDeclared?
  }

  predicate WallsKnown(w: Walk) {
    forall b :: b in w.lastWall ==> w.lastWall[b] in w.replayed && LedgerClocks.StampedOn(w.lastWall[b], b)
  }

  ghost predicate Standing(k: Kernel, execution: string, byId: ById, entries: seq<Entry>, w: Walk) {
    && AllEmitted(k, execution, w.replayed)
    && AllNamed(w, byId) && AllRepresented(entries, w.remapped)
    && AllImaged(byId, w.remapped, execution, KeptOf(entries), Witnessless(w.replayed))
    && DeclarationsKnown(w, byId) && WallsKnown(w)
  }

  lemma KeptNext(entries: seq<Entry>, e: Entry)
    ensures KeptOf(entries + [e]) == KeptOf(entries) + (if Kept(e) then [e] else [])
    ensures Witnessless(entries + [e]) == Witnessless(entries) + (if e.body.facts.ClockRegression? then [] else [e])
    ensures Index(entries + [e]) == Index(entries)[e.id := e]
  {
    assert (entries + [e])[..|entries|] == entries;
  }

  lemma {:induction false} IndexedIn(entries: seq<Entry>, e: Entry)
    requires e in entries
    ensures e.id in Index(entries)
  {
    var last := entries[|entries| - 1];
    if e != last {
      assert entries == entries[..|entries| - 1] + [last];
      IndexedIn(entries[..|entries| - 1], e);
    }
  }

  lemma {:induction false} IndexIn(entries: seq<Entry>, x: Id)
    requires x in Index(entries)
    ensures Index(entries)[x] in entries && Index(entries)[x].id == x
  {
    var last := entries[|entries| - 1];
    assert entries == entries[..|entries| - 1] + [last];
    if x != last.id { IndexIn(entries[..|entries| - 1], x); }
  }

  /** Emitted entries of one name are one entry. */
  lemma OneName(k: Kernel, execution: string, e: Entry, f: Entry)
    requires CollisionFree(k) && Emitted(k, execution, e) && Emitted(k, execution, f) && e.id == f.id
    ensures e == f
  {
    hide ValidFacts;
    assert k.hash(e.body) == k.hash(f.body);
  }

  lemma EmittedIn(k: Kernel, execution: string, out: seq<Entry>, e: Entry)
    requires AllEmitted(k, execution, out) && e in out
    ensures Emitted(k, execution, e)
  {
    var i :| 0 <= i < |out| && out[i] == e;
    hide Emitted;
  }

  /** What an entry is found under, whatever is emitted after it. */
  lemma FoundAgain(k: Kernel, execution: string, out: seq<Entry>, f: Entry, x: Id)
    requires CollisionFree(k) && AllEmitted(k, execution, out) && Emitted(k, execution, f) && x in Index(out)
    ensures x in Index(out + [f]) && Index(out + [f])[x] == Index(out)[x]
  {
    KeptNext(out, f);
    if x == f.id {
      IndexIn(out, x);
      EmittedIn(k, execution, out, Index(out)[x]);
      OneName(k, execution, Index(out)[x], f);
    }
  }

  lemma FoundOwn(k: Kernel, execution: string, out: seq<Entry>, f: Entry)
    requires CollisionFree(k) && AllEmitted(k, execution, out) && f in out
    ensures f.id in Index(out) && Index(out)[f.id] == f
  {
    IndexedIn(out, f);
    IndexIn(out, f.id);
    EmittedIn(k, execution, out, f);
    EmittedIn(k, execution, out, Index(out)[f.id]);
    OneName(k, execution, Index(out)[f.id], f);
  }

  // ----- A dropped row -----

  function ImagesOf(w: Walk, ids: seq<Id>): seq<Entry>
    requires forall x :: x in ids ==> x in w.remapped && w.remapped[x] in Index(w.replayed)
  {
    if ids == [] then [] else [Index(w.replayed)[w.remapped[ids[0]]]] + ImagesOf(w, ids[1..])
  }

  /** The comparator's first choice are the new forms of the stage facts among the parents. */
  lemma {:induction false} MainlineIs(w: Walk, byId: ById, ids: seq<Id>)
    requires AllNamed(w, byId) && forall x :: x in ids ==> x in byId
    ensures forall x :: x in CausalIds(byId, ids) ==> x in w.remapped && w.remapped[x] in Index(w.replayed)
    ensures Mainline(Survivors(w, ids)) == ImagesOf(w, CausalIds(byId, ids))
  {
    if ids != [] {
      assert ids[0] in ids && NamesOne(w, ids[0], byId[ids[0]]);
      assert forall x :: x in ids[1..] ==> x in ids;
      MainlineIs(w, byId, ids[1..]);
      hide Index;
      var rest := Survivors(w, ids[1..]);
      var own := Index(w.replayed)[w.remapped[ids[0]]];
      assert Survivors(w, ids) == [own] + rest;
      assert ([own] + rest)[1..] == rest;
    }
  }

  /** A dropped row never stops the walk, and is named after the one stage fact it hangs on. */
  lemma DroppedStep(k: Kernel, pick: Pick, execution: string, original: ById, byId: ById, entries: seq<Entry>, w: Walk, e: Entry)
    requires AllNamed(w, byId) && Dropped(e) && ParentTransition(byId, e) && forall p :: p in e.body.parents ==> p in byId
    ensures var causal := CausalIds(byId, e.body.parents);
            && |causal| == 1 && causal[0] in w.remapped && causal[0] in byId && causal[0] in e.body.parents
            && !FactsAt(byId, causal[0]).ClockBasisDeclared? && !FactsAt(byId, causal[0]).ClockRegression?
            && WalkStep(k, pick, execution, original, w, e) == Some(w.(remapped := w.remapped[e.id := w.remapped[causal[0]]]))
  {
    var causal := CausalIds(byId, e.body.parents);
    DroppedHangs(byId, e);
    MainlineIs(w, byId, e.body.parents);
    hide ParentTransition, AllNamed, Index, WalkWitness, WalkEmit;
    ImageIsFound(w, byId, causal[0]);
    assert causal == [causal[0]] && causal[1..] == [];
    var first := ImagesOf(w, causal);
    assert first == [Index(w.replayed)[w.remapped[causal[0]]]];
    MainlineOf(Survivors(w, e.body.parents));
    assert pick(first) % 1 == 0;
  }

  lemma MainlineOf(es: seq<Entry>)
    ensures Mainline(es) != [] ==> es != []
  {
  }

  lemma ImageIsFound(w: Walk, byId: ById, x: Id)
    requires AllNamed(w, byId) && x in byId
    ensures x in w.remapped && w.remapped[x] in Index(w.replayed) && Index(w.replayed)[w.remapped[x]].id == w.remapped[x]
  {
    assert NamesOne(w, x, byId[x]);
    IndexIn(w.replayed, w.remapped[x]);
  }

  // ----- A kept entry -----

  /** The bundle's own table holds what the prefix's does. */
  predicate Agrees(original: ById, byId: ById) {
    forall x :: x in byId ==> x in original && original[x] == byId[x]
  }

  predicate NewParent(byId: ById, m: Renaming, e: Entry, ids: seq<Id>, y: Id) {
    exists p :: p in ids && !LeftBehind(byId, e, p) && p in m && m[p] == y
  }

  lemma {:induction false} RewireMeans(original: ById, byId: ById, w: Walk, e: Entry, ids: seq<Id>, parents: seq<Id>)
    requires Agrees(original, byId) && (forall p :: p in ids ==> p in byId && p in w.remapped) && Distinct(parents)
    ensures var r := Rewire(original, w, e, ids, parents);
            && r.Some? && Distinct(r.value) && |r.value| <= |parents| + |ids|
            && forall y :: y in r.value <==> y in parents || NewParent(byId, w.remapped, e, ids, y)
    decreases |ids|
  {
    if ids != [] {
      assert ids[0] in ids && forall p :: p in ids[1..] ==> p in ids;
      forall y ensures NewParent(byId, w.remapped, e, ids, y) <==>
                         (!LeftBehind(byId, e, ids[0]) && w.remapped[ids[0]] == y) || NewParent(byId, w.remapped, e, ids[1..], y) {
        NewParentSplit(byId, w.remapped, e, ids, y);
      }
      if LeftBehind(byId, e, ids[0]) {
        RewireMeans(original, byId, w, e, ids[1..], parents);
      } else {
        var name := w.remapped[ids[0]];
        var more := if name in parents then parents else parents + [name];
        RewireMeans(original, byId, w, e, ids[1..], more);
      }
      hide NewParent;
    }
  }

  lemma NewParentSplit(byId: ById, m: Renaming, e: Entry, ids: seq<Id>, y: Id)
    requires ids != [] && ids[0] in m
    ensures NewParent(byId, m, e, ids, y) <==> (!LeftBehind(byId, e, ids[0]) && m[ids[0]] == y) || NewParent(byId, m, e, ids[1..], y)
  {
    hide LeftBehind;
    if p :| p in ids && !LeftBehind(byId, e, p) && p in m && m[p] == y {
      if p != ids[0] { assert p in ids[1..]; }
    }
    if p :| p in ids[1..] && !LeftBehind(byId, e, p) && p in m && m[p] == y { assert p in ids; }
    if !LeftBehind(byId, e, ids[0]) && m[ids[0]] == y { assert ids[0] in ids; }
  }

  lemma FactsStay(k: Kernel, f: Facts)
    requires ValidFacts(k, f)
    ensures ValidFacts(k, ReplayFacts(f)) && FactsCarried(f, ReplayFacts(f))
    ensures ReplayFacts(f).ClockBasisDeclared? == f.ClockBasisDeclared? && ReplayFacts(f).ClockRegression? == f.ClockRegression?
    ensures ReplayFacts(f).ClockBasisDeclared? ==> ReplayFacts(f) == f
    ensures Omitted(ReplayFacts(f)) == Omitted(f)
  {
    hide ValidLinks, CountDigest, ValidClockBasis;
  }

  /** A kept entry is emitted, under the new names of its parents. */
  lemma KeptEmits(k: Kernel, execution: string, original: ById, byId: ById, w: Walk, e: Entry) returns (f: Entry)
    requires Bounded(execution) && Create(k, e.body) == Some(e) && Kept(e) && Agrees(original, byId) && e.id !in byId
    requires w.remapped.Keys == byId.Keys && forall p :: p in e.body.parents ==> p in byId
    ensures Emitted(k, execution, f) && Imaged(byId, w.remapped[e.id := f.id], execution, e, f)
    ensures f.body.facts.ClockBasisDeclared? == e.body.facts.ClockBasisDeclared? && !f.body.facts.ClockRegression?
    ensures f.body.facts.ClockBasisDeclared? ==> f.body.facts == e.body.facts
    ensures WalkEmit(k, execution, original, w, e)
              == WalkClock(k, execution, w.(replayed := w.replayed + [f], remapped := w.remapped[e.id := f.id]), f)
  {
    hide ValidFacts, ReplayFacts, SortIds, Rewire, WalkClock, NewParent, FactsCarried, LeftBehind;
    RewireMeans(original, byId, w, e, e.body.parents, []);
    var parents := Rewire(original, w, e, e.body.parents, []).value;
    FactsStay(k, e.body.facts);
    SortedMeans(parents);
    f := Create(k, Body(execution, SortIds(parents), e.body.clock, ReplayFacts(e.body.facts))).value;
    ModeIs(e.body.facts);
    CarriedParents(byId, w.remapped, e, f, e.id);
  }

  lemma ModeIs(f: Facts)
    ensures ReplayFacts(f).ArtifactCommitted? ==> ReplayFacts(f).mode == Replay
  {
  }

  lemma SortedMeans(s: seq<Id>)
    requires Distinct(s)
    ensures StrictlyAscending(SortIds(s)) && forall y :: y in SortIds(s) <==> y in s
  {
    MultisetMembers(SortIds(s), s);
    DistinctPermutation(s, SortIds(s));
    AscendingDistinct(SortIds(s));
  }

  lemma CarriedParents(byId: ById, m: Renaming, e: Entry, f: Entry, x: Id)
    requires x !in m && m.Keys == byId.Keys && x !in byId && forall p :: p in e.body.parents ==> p in byId
    requires forall y :: y in f.body.parents <==> NewParent(byId, m, e, e.body.parents, y)
    ensures var n := m[x := f.id];
            && (forall p :: p in e.body.parents && !LeftBehind(byId, e, p) ==> p in n && n[p] in f.body.parents)
            && (forall y :: y in f.body.parents ==> exists p :: p in e.body.parents && !LeftBehind(byId, e, p) && p in n && n[p] == y)
  {
    hide LeftBehind;
    var n := m[x := f.id];
    forall p | p in e.body.parents && !LeftBehind(byId, e, p) ensures p in n && n[p] in f.body.parents {
      assert NewParent(byId, m, e, e.body.parents, m[p]);
    }
    forall y | y in f.body.parents ensures exists p :: p in e.body.parents && !LeftBehind(byId, e, p) && p in n && n[p] == y {
      var p :| p in e.body.parents && !LeftBehind(byId, e, p) && p in m && m[p] == y;
      assert n[p] == y;
    }
  }

  // ----- The clock of an emitted entry -----

  lemma NamesDiffer(k: Kernel, execution: string, e: Entry, f: Entry)
    requires CollisionFree(k) && Emitted(k, execution, e) && Emitted(k, execution, f) && e.body != f.body
    ensures e.id != f.id
  {
    if e.id == f.id { OneName(k, execution, e, f); }
  }

  lemma WitnessMade(k: Kernel, execution: string, d: Entry, prior: Entry, f: Entry) returns (g: Entry)
    requires CollisionFree(k) && Emitted(k, execution, d) && Emitted(k, execution, prior) && Emitted(k, execution, f)
    requires d.body.facts.ClockBasisDeclared? && !prior.body.facts.ClockBasisDeclared? && !f.body.facts.ClockBasisDeclared?
    requires prior.body.clock.Stamp? && f.body.clock.Stamp? && f.body.clock.wallMs < prior.body.clock.wallMs
    ensures Create(k, WitnessBody(execution, d.id, prior, f)) == Some(g) && Emitted(k, execution, g) && g.body.facts.ClockRegression?
    ensures g.body.clock == f.body.clock && g.body.facts.prior == prior.id && g.body.facts.regressing == f.id
  {
    hide *;
    BodiesDiffer(d, prior, f);
    NamesDiffer(k, execution, d, prior);
    NamesDiffer(k, execution, d, f);
    NamesDiffer(k, execution, prior, f);
    Emitter(k, execution, f);
    ThreeNames(d.id, prior.id, f.id);
    WitnessCreated(k, execution, d.id, prior, f);
    g := Create(k, WitnessBody(execution, d.id, prior, f)).value;
    WitnessEmitted(k, execution, d.id, prior, f);
  }

  lemma BodiesDiffer(d: Entry, prior: Entry, f: Entry)
    requires d.body.facts.ClockBasisDeclared? && !prior.body.facts.ClockBasisDeclared? && !f.body.facts.ClockBasisDeclared?
    requires prior.body.clock.Stamp? && f.body.clock.Stamp? && f.body.clock.wallMs < prior.body.clock.wallMs
    ensures d.body != prior.body && d.body != f.body && prior.body != f.body
  {
  }

  lemma ThreeNames(a: Id, b: Id, c: Id)
    requires a != b && a != c && b != c
    ensures StrictlyAscending(SortIds([a, b, c]))
  {
    assert Distinct([a, b, c]);
    SortedMeans([a, b, c]);
  }

  lemma WitnessCreated(k: Kernel, execution: string, d: Id, prior: Entry, f: Entry)
    requires Bounded(execution) && StrictlyAscending(SortIds([d, prior.id, f.id]))
    requires prior.body.clock.Stamp? && f.body.clock.Stamp? && f.body.clock.wallMs < prior.body.clock.wallMs
    ensures var made := Create(k, WitnessBody(execution, d, prior, f));
            && made.Some? && made.value.body.facts.ClockRegression? && made.value.body.clock == f.body.clock
            && made.value.body.facts.prior == prior.id && made.value.body.facts.regressing == f.id
  {
    hide SortIds;
  }

  lemma WitnessEmitted(k: Kernel, execution: string, d: Id, prior: Entry, f: Entry)
    requires prior.body.clock.Stamp? && f.body.clock.Stamp? && Create(k, WitnessBody(execution, d, prior, f)).Some?
    ensures Emitted(k, execution, Create(k, WitnessBody(execution, d, prior, f)).value)
  {
    hide SortIds;
  }

  lemma Emitter(k: Kernel, execution: string, f: Entry)
    requires Emitted(k, execution, f)
    ensures Bounded(execution)
  {
  }

  /** An emitted entry whose basis is declared goes through; what is added is at most its witness. */
  lemma ClockGoesOn(k: Kernel, execution: string, byId: ById, w: Walk, f: Entry) returns (x: Walk)
    requires CollisionFree(k) && AllEmitted(k, execution, w.replayed) && f in w.replayed && !f.body.facts.ClockRegression?
    requires DeclarationsKnown(w, byId) && WallsKnown(w)
    requires !f.body.facts.ClockBasisDeclared? && f.body.clock.Stamp? ==> f.body.clock.basis in w.declarations
    ensures WalkClock(k, execution, w, f) == Some(x) && x.remapped == w.remapped
    ensures AllEmitted(k, execution, x.replayed) && WallsKnown(x)
    ensures Witnessless(x.replayed) == Witnessless(w.replayed)
    ensures x.declarations == if f.body.facts.ClockBasisDeclared? then w.declarations[f.body.facts.clockBasis.id := f.id] else w.declarations
    ensures forall y :: y in Index(w.replayed) ==> y in Index(x.replayed) && Index(x.replayed)[y] == Index(w.replayed)[y]
    ensures x.replayed == w.replayed || (exists g :: x.replayed == w.replayed + [g] && Owed(w, f, g))
    ensures x.replayed == w.replayed <==> f.body.facts.ClockBasisDeclared? || f.body.clock.Unstamped? || !FallsBehind(w.lastWall, f)
  {
    hide Emitted, AllEmitted, CollisionFree, WitnessBody, Index;
    EmittedIn(k, execution, w.replayed, f);
    if !f.body.facts.ClockBasisDeclared? && f.body.clock.Stamp? && FallsBehind(w.lastWall, f) {
      var b := f.body.clock.basis;
      var d, prior := Index(w.replayed)[w.declarations[b]], w.lastWall[b];
      IndexIn(w.replayed, w.declarations[b]);
      EmittedIn(k, execution, w.replayed, d);
      EmittedIn(k, execution, w.replayed, prior);
      var g := WitnessMade(k, execution, d, prior, f);
      x := w.(replayed := w.replayed + [g], lastWall := w.lastWall[b := g]);
      AllEmittedMore(k, execution, w.replayed, g);
      KeptNext(w.replayed, g);
      forall y | y in Index(w.replayed) ensures y in Index(x.replayed) && Index(x.replayed)[y] == Index(w.replayed)[y] {
        FoundAgain(k, execution, w.replayed, g, y);
      }
      assert Owed(w, f, g);
    } else {
      x := WalkClock(k, execution, w, f).value;
    }
  }

  /** The witness owed by an entry that fell behind the last one on its basis. */
  predicate Owed(w: Walk, f: Entry, g: Entry) {
    && f.body.clock.Stamp? && f.body.clock.basis in w.lastWall && g.body.facts.ClockRegression? && g.body.clock == f.body.clock
    && g.body.facts.prior == w.lastWall[f.body.clock.basis].id && g.body.facts.regressing == f.id
  }

  lemma AllEmittedMore(k: Kernel, execution: string, out: seq<Entry>, g: Entry)
    requires AllEmitted(k, execution, out) && Emitted(k, execution, g)
    ensures AllEmitted(k, execution, out + [g])
  {
    hide Emitted;
  }

  // ----- One round of the walk -----

  /** What the validator knows before an entry. */
  ghost predicate Before(k: Kernel, s: Tables, entries: seq<Entry>, e: Entry) {
    LedgerClocks.Filed(s.graph.byId, entries) && Closed(s.graph.byId) && LedgerClocks.BasesMean(s.clocks, entries) && Admits(k, s, e)
  }

  lemma EntryAllowed(k: Kernel, s: Tables, entries: seq<Entry>, e: Entry)
    requires Before(k, s, entries, e)
    ensures e.id !in s.graph.byId && (forall p :: p in e.body.parents ==> p in s.graph.byId)
    ensures Create(k, e.body) == Some(e) && ParentTransition(s.graph.byId, e)
    ensures !e.body.facts.ClockBasisDeclared? && e.body.clock.Stamp? ==> e.body.clock.basis in s.clocks.bases
  {
    hide Create, ParentTransition, EvidenceOk, SelectParents, DepthOf, LedgerClocks.Filed;
  }

  lemma OwnFiled(byId: ById, entries: seq<Entry>, i: nat)
    requires LedgerClocks.Filed(byId, entries) && i < |entries|
    ensures entries[i].id in byId && byId[entries[i].id] == entries[i]
  {
  }

  lemma FiledAt(byId: ById, entries: seq<Entry>, x: Id) returns (i: nat)
    requires LedgerClocks.Filed(byId, entries) && x in byId
    ensures i < |entries| && entries[i] == byId[x] && entries[i].id == x
  {
    i :| 0 <= i < |entries| && entries[i] == byId[x];
  }

  lemma ImagedStable(byId: ById, m: Renaming, execution: string, e: Entry, f: Entry, x: Entry, y: Id)
    requires Imaged(byId, m, execution, e, f) && x.id !in byId && m.Keys == byId.Keys && forall p :: p in e.body.parents ==> p in byId
    ensures Imaged(byId[x.id := x], m[x.id := y], execution, e, f)
  {
    var grown, n := byId[x.id := x], m[x.id := y];
    forall p | p in e.body.parents ensures LeftBehind(grown, e, p) == LeftBehind(byId, e, p) && p in n && n[p] == m[p] { }
    forall z | z in f.body.parents ensures exists p :: p in e.body.parents && !LeftBehind(grown, e, p) && p in n && n[p] == z {
      var p :| p in e.body.parents && !LeftBehind(byId, e, p) && p in m && m[p] == z;
      assert n[p] == z;
    }
    hide LeftBehind, FactsCarried;
  }

  lemma {:induction false} KeptFiled(byId: ById, entries: seq<Entry>, all: seq<Entry>)
    requires LedgerClocks.Filed(byId, entries) && all <= entries
    ensures forall i :: 0 <= i < |KeptOf(all)| ==> KeptOf(all)[i] in entries && KeptOf(all)[i].id in byId && byId[KeptOf(all)[i].id] == KeptOf(all)[i]
  {
    if all != [] {
      KeptFiled(byId, entries, all[..|all| - 1]);
      OwnFiled(byId, entries, |all| - 1);
      assert all[|all| - 1] == entries[|all| - 1];
      hide LedgerClocks.Filed;
    }
  }

  lemma AllImagedStable(byId: ById, m: Renaming, execution: string, entries: seq<Entry>, fs: seq<Entry>, x: Entry, y: Id)
    requires LedgerClocks.Filed(byId, entries) && Closed(byId) && x.id !in byId && m.Keys == byId.Keys
    requires AllImaged(byId, m, execution, KeptOf(entries), fs)
    ensures AllImaged(byId[x.id := x], m[x.id := y], execution, KeptOf(entries), fs)
  {
    KeptFiled(byId, entries, entries);
    hide LedgerClocks.Filed, Imaged;
    forall i | 0 <= i < |fs| ensures Imaged(byId[x.id := x], m[x.id := y], execution, KeptOf(entries)[i], fs[i]) {
      ImagedStable(byId, m, execution, KeptOf(entries)[i], fs[i], x, y);
    }
  }

  lemma HangsOnStays(entries: seq<Entry>, e: Entry, p: seq<nat>, i: nat)
    requires HangsOn(entries, p, i)
    ensures HangsOn(entries + [e], p, i) && forall j :: 0 <= j < |p| ==> p[j] < |entries| && (entries + [e])[p[j]] == entries[p[j]]
  {
    LedgerMeaning.PathOld(entries, e, p, i);
    hide Kept;
  }

  lemma RepresentedStays(entries: seq<Entry>, m: Renaming, e: Entry, y: Id, i: nat)
    requires i < |entries| && Represented(entries, m, i) && e.id !in m
    ensures Represented(entries + [e], m[e.id := y], i)
  {
    var p :| HangsOn(entries, p, i) && entries[i].id in m && entries[p[0]].id in m && m[entries[i].id] == m[entries[p[0]].id];
    HangsOnStays(entries, e, p, i);
    var all, n := entries + [e], m[e.id := y];
    hide HangsOn;
    assert all[p[0]] == entries[p[0]] && all[i] == entries[i];
    assert HangsOn(all, p, i) && all[i].id in n && all[p[0]].id in n && n[all[i].id] == n[all[p[0]].id];
  }

  /** A dropped row behind a stage fact that is kept or itself represented. */
  lemma RepresentedNext(byId: ById, entries: seq<Entry>, m: Renaming, e: Entry, c: Id)
    requires LedgerClocks.Filed(byId, entries) && m.Keys == byId.Keys && e.id !in byId && AllRepresented(entries, m)
    requires c in byId && c in e.body.parents && !FactsAt(byId, c).ClockBasisDeclared? && !FactsAt(byId, c).ClockRegression?
    requires !e.body.facts.ClockBasisDeclared?
    ensures Represented(entries + [e], m[e.id := m[c]], |entries|)
  {
    var j := FiledAt(byId, entries, c);
    var n, all, grown := |entries|, entries + [e], m[e.id := m[c]];
    assert all[n] == e && all[j] == entries[j];
    if Kept(entries[j]) {
      DirectlyHangs(entries, e, j);
      hide HangsOn, LedgerClocks.Filed, AllRepresented;
      assert HangsOn(all, [j, n], n) && all[[j, n][0]].id in grown && grown[all[n].id] == grown[all[j].id];
    } else {
      assert Represented(entries, m, j);
      hide LedgerClocks.Filed, AllRepresented;
      var p :| HangsOn(entries, p, j) && entries[j].id in m && entries[p[0]].id in m && m[entries[j].id] == m[entries[p[0]].id];
      FurtherHangs(entries, e, p, j);
      hide HangsOn;
      assert (p + [n])[0] == p[0] && all[p[0]] == entries[p[0]];
      assert HangsOn(all, p + [n], n) && grown[all[n].id] == grown[all[p[0]].id];
    }
  }

  lemma DirectlyHangs(entries: seq<Entry>, e: Entry, j: nat)
    requires j < |entries| && Kept(entries[j]) && entries[j].id in e.body.parents
    requires !entries[j].body.facts.ClockBasisDeclared? && !e.body.facts.ClockBasisDeclared?
    ensures HangsOn(entries + [e], [j, |entries|], |entries|)
  {
    LedgerMeaning.LonePath(entries, j);
    LedgerMeaning.PathOn(entries, e, [j], j);
    assert [j] + [|entries|] == [j, |entries|];
  }

  lemma FurtherHangs(entries: seq<Entry>, e: Entry, p: seq<nat>, j: nat)
    requires HangsOn(entries, p, j) && entries[j].id in e.body.parents && !e.body.facts.ClockBasisDeclared?
    ensures HangsOn(entries + [e], p + [|entries|], |entries|) && p[0] < |entries|
  {
    LedgerMeaning.PathOn(entries, e, p, j);
    HangsOnStays(entries, e, p, j);
    hide LedgerMeaning.PathTo, Kept;
  }

  lemma AllRepresentedNext(entries: seq<Entry>, m: Renaming, e: Entry, y: Id)
    requires AllRepresented(entries, m) && e.id !in m
    requires Dropped(e) ==> Represented(entries + [e], m[e.id := y], |entries|)
    ensures AllRepresented(entries + [e], m[e.id := y])
  {
    hide Represented, Dropped;
    var all := entries + [e];
    forall i | 0 <= i < |all| && Dropped(all[i]) ensures Represented(all, m[e.id := y], i) {
      if i < |entries| { assert all[i] == entries[i]; RepresentedStays(entries, m, e, y, i); }
    }
  }

  /** Everything emitted is still found under its name. */
  predicate StillFound(w: Walk, x: Walk) {
    forall y :: y in Index(w.replayed) ==> y in Index(x.replayed) && Index(x.replayed)[y] == Index(w.replayed)[y]
  }

  lemma AllNamedNext(w: Walk, x: Walk, byId: ById, e: Entry)
    requires AllNamed(w, byId) && e.id !in byId && StillFound(w, x) && e.id in x.remapped
    requires x.remapped == w.remapped[e.id := x.remapped[e.id]] && NamesOne(x, e.id, e)
    ensures AllNamed(x, byId[e.id := e])
  {
    hide Index;
    var grown := byId[e.id := e];
    forall y | y in grown ensures NamesOne(x, y, grown[y]) {
      if y != e.id { assert NamesOne(w, y, byId[y]); }
    }
  }

  lemma DeclarationsNext(w: Walk, x: Walk, byId: ById, e: Entry, f: Id)
    requires DeclarationsKnown(w, byId) && e.id !in byId && StillFound(w, x)
    requires x.declarations == if e.body.facts.ClockBasisDeclared? then w.declarations[e.body.facts.clockBasis.id := f] else w.declarations
    requires e.body.facts.ClockBasisDeclared? ==> f in Index(x.replayed) && FactsAt(Index(x.replayed), f).ClockBasisDeclared?
    ensures DeclarationsKnown(x, byId[e.id := e])
  {
    hide Index;
  }

  /** The parts of the invariant, put together for one more entry. */
  lemma StandsOn(k: Kernel, execution: string, byId: ById, entries: seq<Entry>, w: Walk, x: Walk, e: Entry, f: Entry)
    requires Standing(k, execution, byId, entries, w) && LedgerClocks.Filed(byId, entries) && Closed(byId) && e.id !in byId && e.id in x.remapped
    requires x.remapped == w.remapped[e.id := x.remapped[e.id]] && StillFound(w, x) && NamesOne(x, e.id, e)
    requires AllEmitted(k, execution, x.replayed) && WallsKnown(x) && DeclarationsKnown(x, byId[e.id := e])
    requires Witnessless(x.replayed) == Witnessless(w.replayed) + if Kept(e) then [f] else []
    requires Kept(e) ==> Imaged(byId[e.id := e], x.remapped, execution, e, f)
    requires Dropped(e) ==> Represented(entries + [e], x.remapped, |entries|)
    ensures Standing(k, execution, byId[e.id := e], entries + [e], x)
  {
    hide LedgerClocks.Filed, AllEmitted, AllRepresented, Imaged, Represented, DeclarationsKnown, WallsKnown, NamesOne, StillFound, Index, Kept, Dropped;
    var y := x.remapped[e.id];
    AllNamedNext(w, x, byId, e);
    AllRepresentedNext(entries, w.remapped, e, y);
    KeptNext(entries, e);
    AllImagedStable(byId, w.remapped, execution, entries, Witnessless(w.replayed), e, y);
  }

  lemma StandingParts(k: Kernel, execution: string, byId: ById, entries: seq<Entry>, w: Walk)
    requires Standing(k, execution, byId, entries, w)
    ensures AllEmitted(k, execution, w.replayed) && AllNamed(w, byId) && AllRepresented(entries, w.remapped)
    ensures w.remapped.Keys == byId.Keys && DeclarationsKnown(w, byId) && WallsKnown(w)
  {
    hide AllEmitted, AllRepresented, AllImaged, DeclarationsKnown, WallsKnown, NamesOne;
  }

  lemma BeforeParts(k: Kernel, s: Tables, entries: seq<Entry>, e: Entry)
    requires Before(k, s, entries, e)
    ensures LedgerClocks.Filed(s.graph.byId, entries) && Closed(s.graph.byId) && LedgerClocks.BasesMean(s.clocks, entries)
  {
    hide Admits, LedgerClocks.Filed, Closed, LedgerClocks.BasesMean;
  }

  lemma DroppedNamed(w: Walk, x: Walk, byId: ById, e: Entry, c: Id)
    requires AllNamed(w, byId) && c in byId && !FactsAt(byId, c).ClockBasisDeclared? && Dropped(e)
    requires x == w.(remapped := w.remapped[e.id := w.remapped[c]])
    ensures NamesOne(x, e.id, e) && StillFound(w, x) && x.remapped[e.id] == w.remapped[c] && !Kept(e)
  {
    assert NamesOne(w, c, byId[c]);
    hide Index;
  }

  lemma SameDeclarations(w: Walk, x: Walk, byId: ById, e: Entry)
    requires DeclarationsKnown(w, byId) && x.declarations == w.declarations && x.replayed == w.replayed
    requires !e.body.facts.ClockBasisDeclared? && e.id !in byId
    ensures DeclarationsKnown(x, byId[e.id := e])
  {
    hide Index;
  }

  lemma SameWalls(w: Walk, x: Walk)
    requires WallsKnown(w) && x.lastWall == w.lastWall && x.replayed == w.replayed
    ensures WallsKnown(x)
  {
  }

  lemma DroppedStands(k: Kernel, pick: Pick, execution: string, original: ById, s: Tables, entries: seq<Entry>, w: Walk, e: Entry) returns (x: Walk)
    requires Standing(k, execution, s.graph.byId, entries, w) && Before(k, s, entries, e) && Dropped(e)
    ensures WalkStep(k, pick, execution, original, w, e) == Some(x)
    ensures Standing(k, execution, s.graph.byId[e.id := e], entries + [e], x)
  {
    hide *;
    var byId := s.graph.byId;
    StandingParts(k, execution, byId, entries, w);
    BeforeParts(k, s, entries, e);
    EntryAllowed(k, s, entries, e);
    DroppedStep(k, pick, execution, original, byId, entries, w, e);
    var c := CausalIds(byId, e.body.parents)[0];
    x := w.(remapped := w.remapped[e.id := w.remapped[c]]);
    DroppedKind(e);
    RepresentedNext(byId, entries, w.remapped, e, c);
    DroppedNamed(w, x, byId, e, c);
    SameDeclarations(w, x, byId, e);
    SameWalls(w, x);
    StandsOn(k, execution, byId, entries, w, x, e, e);
  }

  lemma DroppedKind(e: Entry)
    ensures Dropped(e) ==> !e.body.facts.ClockBasisDeclared? && !Kept(e)
    ensures e.body.facts.ClockRegression? ==> !Dropped(e) && !Kept(e) && !e.body.facts.ClockBasisDeclared?
    ensures Kept(e) ==> !Dropped(e) && !e.body.facts.ClockRegression?
  {
  }

  lemma FoundWitness(replayed: seq<Entry>, prior: Option<Id>, regressing: Option<Id>)
    requires FindWitness(replayed, prior, regressing).Some?
    ensures exists g :: g in replayed && g.id == FindWitness(replayed, prior, regressing).value && g.body.facts.ClockRegression?
                        && Some(g.body.facts.prior) == prior && Some(g.body.facts.regressing) == regressing
  {
    if replayed != [] {
      var f := replayed[0].body.facts;
      if f.ClockRegression? && Some(f.regressing) == regressing && Some(f.prior) == prior {
        assert replayed[0] in replayed;
      } else {
        FoundWitness(replayed[1..], prior, regressing);
        assert forall g :: g in replayed[1..] ==> g in replayed;
      }
    }
  }

  /** An end of the witness was dropped. */
  predicate EndDropped(byId: ById, e: Entry)
    requires e.body.facts.ClockRegression?
  {
    var f := e.body.facts;
    (f.prior in byId && Dropped(byId[f.prior])) || (f.regressing in byId && Dropped(byId[f.regressing]))
  }

  lemma WitnessMove(k: Kernel, pick: Pick, execution: string, original: ById, byId: ById, w: Walk, e: Entry)
    requires AllNamed(w, byId) && Agrees(original, byId) && e.body.facts.ClockRegression?
    requires e.body.facts.prior in byId && e.body.facts.regressing in byId
    ensures e.body.facts.prior in w.remapped && e.body.facts.regressing in w.remapped
    ensures var found := FindWitness(w.replayed, Some(w.remapped[e.body.facts.prior]), Some(w.remapped[e.body.facts.regressing]));
            WalkStep(k, pick, execution, original, w, e) ==
              if EndDropped(byId, e) then Some(w.(remapped := w.remapped[e.id := w.remapped[e.body.facts.regressing]]))
              else if found.None? then None
              else Some(w.(remapped := w.remapped[e.id := found.value]))
  {
    hide WalkEmit, WalkOmitted, FindWitness, Index, NamesOne;
  }

  lemma WitnessNamed(k: Kernel, execution: string, byId: ById, w: Walk, x: Walk, e: Entry)
    requires CollisionFree(k) && AllEmitted(k, execution, w.replayed) && AllNamed(w, byId) && e.body.facts.ClockRegression?
    requires e.body.facts.prior in byId && e.body.facts.regressing in byId && !FactsAt(byId, e.body.facts.regressing).ClockBasisDeclared?
    requires e.body.facts.prior in w.remapped && e.body.facts.regressing in w.remapped
    requires var found := FindWitness(w.replayed, Some(w.remapped[e.body.facts.prior]), Some(w.remapped[e.body.facts.regressing]));
             x == w.(remapped := w.remapped[e.id := w.remapped[e.body.facts.regressing]])
             || (found.Some? && x == w.(remapped := w.remapped[e.id := found.value]))
    ensures NamesOne(x, e.id, e) && StillFound(w, x)
  {
    hide AllEmitted, FindWitness, Index, CollisionFree;
    var f := e.body.facts;
    assert NamesOne(w, f.regressing, byId[f.regressing]);
    if x.remapped[e.id] != w.remapped[f.regressing] {
      FoundWitness(w.replayed, Some(w.remapped[f.prior]), Some(w.remapped[f.regressing]));
      var g :| g in w.replayed && g.id == x.remapped[e.id] && g.body.facts.ClockRegression?;
      FoundOwn(k, execution, w.replayed, g);
    }
  }

  /** A witness stops the walk only if both its ends are left and no witness of their new names was made. */
  lemma WitnessStands(k: Kernel, pick: Pick, execution: string, original: ById, s: Tables, entries: seq<Entry>, w: Walk, e: Entry)
    requires CollisionFree(k) && Standing(k, execution, s.graph.byId, entries, w) && Before(k, s, entries, e) && e.body.facts.ClockRegression?
    requires Agrees(original, s.graph.byId)
    ensures e.body.facts.prior in w.remapped && e.body.facts.regressing in w.remapped
    ensures WalkStep(k, pick, execution, original, w, e).None? <==>
              !EndDropped(s.graph.byId, e)
              && FindWitness(w.replayed, Some(w.remapped[e.body.facts.prior]), Some(w.remapped[e.body.facts.regressing])).None?
    ensures WalkStep(k, pick, execution, original, w, e).Some? ==>
              Standing(k, execution, s.graph.byId[e.id := e], entries + [e], WalkStep(k, pick, execution, original, w, e).value)
  {
    hide *;
    var byId := s.graph.byId;
    StandingParts(k, execution, byId, entries, w);
    BeforeParts(k, s, entries, e);
    EntryAllowed(k, s, entries, e);
    WitnessEndsHere(byId, e);
    WitnessMove(k, pick, execution, original, byId, w, e);
    DroppedKind(e);
    if WalkStep(k, pick, execution, original, w, e).Some? {
      var x := WalkStep(k, pick, execution, original, w, e).value;
      WitnessNamed(k, execution, byId, w, x, e);
      SameDeclarations(w, x, byId, e);
      SameWalls(w, x);
      StandsOn(k, execution, byId, entries, w, x, e, e);
    }
  }

  lemma KeptStands(k: Kernel, pick: Pick, execution: string, original: ById, s: Tables, entries: seq<Entry>, w: Walk, e: Entry) returns (x: Walk)
    requires CollisionFree(k) && Bounded(execution) && Agrees(original, s.graph.byId)
    requires Standing(k, execution, s.graph.byId, entries, w) && Before(k, s, entries, e) && Kept(e)
    ensures WalkStep(k, pick, execution, original, w, e) == Some(x)
    ensures Standing(k, execution, s.graph.byId[e.id := e], entries + [e], x)
  {
    hide *;
    var byId := s.graph.byId;
    StandingParts(k, execution, byId, entries, w);
    BeforeParts(k, s, entries, e);
    EntryAllowed(k, s, entries, e);
    DroppedKind(e);
    EmitIs(k, pick, execution, original, w, e);
    var f := KeptEmits(k, execution, original, byId, w, e);
    var between := w.(replayed := w.replayed + [f], remapped := w.remapped[e.id := f.id]);
    Between(k, execution, byId, w, between, e, f);
    if !e.body.facts.ClockBasisDeclared? && e.body.clock.Stamp? { BasisKnown(s, entries, w, e.body.clock.basis); }
    SameClock(byId, between.remapped, execution, e, f);
    x := ClockGoesOn(k, execution, byId, between, f);
    FoundOwn(k, execution, between.replayed, f);
    KeptNext(w.replayed, f);
    ImagedNow(byId, between.remapped, execution, e, f);
    FoundOn(w, between, x, e, f);
    DeclarationsNext(w, x, byId, e, f.id);
    StandsOn(k, execution, byId, entries, w, x, e, f);
  }

  lemma EmitIs(k: Kernel, pick: Pick, execution: string, original: ById, w: Walk, e: Entry)
    requires Kept(e)
    ensures WalkStep(k, pick, execution, original, w, e) == WalkEmit(k, execution, original, w, e)
  {
    hide WalkEmit, WalkOmitted, WalkWitness;
  }

  lemma FoundOn(w: Walk, between: Walk, x: Walk, e: Entry, f: Entry)
    requires StillFound(w, between) && f.id in Index(between.replayed) && Index(between.replayed)[f.id] == f
    requires forall y :: y in Index(between.replayed) ==> y in Index(x.replayed) && Index(x.replayed)[y] == Index(between.replayed)[y]
    requires e.id in x.remapped && x.remapped[e.id] == f.id && f.body.facts.ClockBasisDeclared? == e.body.facts.ClockBasisDeclared?
    ensures StillFound(w, x) && NamesOne(x, e.id, e)
    ensures f.id in Index(x.replayed) && FactsAt(Index(x.replayed), f.id).ClockBasisDeclared? == e.body.facts.ClockBasisDeclared?
  {
    hide Index;
  }

  lemma Between(k: Kernel, execution: string, byId: ById, w: Walk, x: Walk, e: Entry, f: Entry)
    requires CollisionFree(k) && AllEmitted(k, execution, w.replayed) && Emitted(k, execution, f)
    requires x == w.(replayed := w.replayed + [f], remapped := w.remapped[e.id := f.id]) && DeclarationsKnown(w, byId) && WallsKnown(w)
    ensures AllEmitted(k, execution, x.replayed) && StillFound(w, x) && DeclarationsKnown(x, byId) && WallsKnown(x) && f in x.replayed
  {
    hide Emitted, Index, CollisionFree;
    AllEmittedMore(k, execution, w.replayed, f);
    forall y | y in Index(w.replayed) ensures y in Index(x.replayed) && Index(x.replayed)[y] == Index(w.replayed)[y] {
      FoundAgain(k, execution, w.replayed, f, y);
    }
  }

  lemma BasisKnown(s: Tables, entries: seq<Entry>, w: Walk, b: Id)
    requires LedgerClocks.Filed(s.graph.byId, entries) && LedgerClocks.BasesMean(s.clocks, entries) && b in s.clocks.bases
    requires DeclarationsKnown(w, s.graph.byId)
    ensures b in w.declarations
  {
    var d := s.clocks.bases[b];
    var i :| 0 <= i < |entries| && entries[i] == d;
    OwnFiled(s.graph.byId, entries, i);
    hide Index, LedgerClocks.Filed;
  }

  lemma SameClock(byId: ById, m: Renaming, execution: string, e: Entry, f: Entry)
    requires Imaged(byId, m, execution, e, f)
    ensures f.body.clock == e.body.clock && m[e.id] == f.id
  {
    hide LeftBehind, FactsCarried;
  }

  lemma ImagedNow(byId: ById, m: Renaming, execution: string, e: Entry, f: Entry)
    requires Imaged(byId, m, execution, e, f) && e.id !in byId && e.id !in e.body.parents
    ensures Imaged(byId[e.id := e], m, execution, e, f)
  {
    var grown := byId[e.id := e];
    forall p | p in e.body.parents ensures LeftBehind(grown, e, p) == LeftBehind(byId, e, p) { }
    forall z | z in f.body.parents ensures exists p :: p in e.body.parents && !LeftBehind(grown, e, p) && p in m && m[p] == z {
      var p :| p in e.body.parents && !LeftBehind(byId, e, p) && p in m && m[p] == z;
      assert !LeftBehind(grown, e, p);
    }
    hide LeftBehind, FactsCarried;
  }

  // ----- The whole walk -----

  lemma NothingSound()
    ensures Sound(EMPTY.graph.byId, EMPTY.evidence.vaultEvidence)
  {
  }

  lemma SoundClosed(byId: ById, vaultEvidence: map<Id, VaultEvidence>)
    requires Sound(byId, vaultEvidence)
    ensures Closed(byId)
  {
    hide VerifiedFromCommit, CapturedFromEmission, EvidenceRecorded;
  }

  lemma TablesParts(s: Tables, entries: seq<Entry>)
    requires LedgerMeaning.TablesMean(s, entries)
    ensures LedgerClocks.Filed(s.graph.byId, entries) && LedgerClocks.BasesMean(s.clocks, entries) && s.graph.byId == Index(entries)
  {
    hide LedgerClocks.Filed, LedgerClocks.BasesMean, Index, LedgerMeaning.DepthMeans;
  }

  /** What the validator knows before an entry of a bundle it goes through. */
  lemma BeforeAt(k: Kernel, entries: seq<Entry>, n: nat) returns (s: Tables)
    requires n < |entries| && Run(k, EMPTY, entries).Some?
    ensures Run(k, EMPTY, entries[..n]) == Some(s) && Before(k, s, entries[..n], entries[n])
    ensures s.graph.byId == Index(entries[..n]) && Index(entries[..n + 1]) == s.graph.byId[entries[n].id := entries[n]]
    ensures entries[n].id !in s.graph.byId
  {
    hide *;
    RunLast(k, entries, n);
    s := Run(k, EMPTY, entries[..n]).value;
    LedgerMeaning.RunExactly(k, entries, n);
    TablesParts(s, entries[..n]);
    NothingSound();
    SoundRun(k, EMPTY, entries[..n]);
    SoundClosed(s.graph.byId, s.evidence.vaultEvidence);
    BeforeIs(k, s, entries[..n], entries[n]);
    EntryAllowed(k, s, entries[..n], entries[n]);
    KeptNext(entries[..n], entries[n]);
    assert entries[..n] + [entries[n]] == entries[..n + 1];
  }

  lemma BeforeIs(k: Kernel, s: Tables, entries: seq<Entry>, e: Entry)
    requires LedgerClocks.Filed(s.graph.byId, entries) && Closed(s.graph.byId) && LedgerClocks.BasesMean(s.clocks, entries) && Admits(k, s, e)
    ensures Before(k, s, entries, e)
  {
    hide Admits, LedgerClocks.Filed, Closed, LedgerClocks.BasesMean;
  }

  lemma {:induction false} IndexAgrees(k: Kernel, entries: seq<Entry>, n: nat)
    requires n <= |entries| && Run(k, EMPTY, entries).Some?
    ensures Agrees(Index(entries), Index(entries[..n]))
    decreases |entries| - n
  {
    hide Run, Index;
    if n == |entries| {
      assert entries[..n] == entries;
    } else {
      var s := BeforeAt(k, entries, n);
      IndexAgrees(k, entries, n + 1);
      hide Before;
      forall x | x in Index(entries[..n]) ensures x in Index(entries) && Index(entries)[x] == Index(entries[..n])[x] {
        assert Index(entries[..n + 1])[x] == Index(entries[..n])[x];
      }
    }
  }

  lemma NothingStands(k: Kernel, execution: string)
    ensures Standing(k, execution, Index([]), [], NO_WALK)
  {
  }

  lemma WalkNext(k: Kernel, pick: Pick, execution: string, original: ById, entries: seq<Entry>, n: nat)
    requires n < |entries| && WalkRun(k, pick, execution, original, entries[..n + 1]).Some?
    ensures WalkRun(k, pick, execution, original, entries[..n]).Some?
    ensures WalkRun(k, pick, execution, original, entries[..n + 1])
              == WalkStep(k, pick, execution, original, WalkRun(k, pick, execution, original, entries[..n]).value, entries[n])
  {
    WalkRunLast(k, pick, execution, original, entries, n);
    hide WalkRun, WalkStep;
  }

  lemma {:induction false} WalkStands(k: Kernel, pick: Pick, execution: string, entries: seq<Entry>, n: nat)
    requires CollisionFree(k) && Bounded(execution) && n <= |entries| && Run(k, EMPTY, entries).Some?
    requires WalkRun(k, pick, execution, Index(entries), entries[..n]).Some?
    ensures Standing(k, execution, Index(entries[..n]), entries[..n], WalkRun(k, pick, execution, Index(entries), entries[..n]).value)
  {
    hide *;
    if n == 0 {
      assert entries[..0] == [];
      WalkNothing(k, pick, execution, Index(entries));
      NothingStands(k, execution);
    } else {
      WalkNext(k, pick, execution, Index(entries), entries, n - 1);
      WalkStands(k, pick, execution, entries, n - 1);
      var s := BeforeAt(k, entries, n - 1);
      var w, e := WalkRun(k, pick, execution, Index(entries), entries[..n - 1]).value, entries[n - 1];
      IndexAgrees(k, entries, n - 1);
      assert entries[..n - 1] + [e] == entries[..n];
      OneOfThree(e);
      if Dropped(e) { var x := DroppedStands(k, pick, execution, Index(entries), s, entries[..n - 1], w, e); }
      else if Kept(e) { var x := KeptStands(k, pick, execution, Index(entries), s, entries[..n - 1], w, e); }
      else { WitnessStands(k, pick, execution, Index(entries), s, entries[..n - 1], w, e); }
    }
  }

  lemma OneOfThree(e: Entry)
    ensures Dropped(e) || Kept(e) || e.body.facts.ClockRegression?
  {
  }

  /** The witness of these two new names has been made. */
  predicate MadeFor(replayed: seq<Entry>, prior: Id, regressing: Id) {
    exists g :: g in replayed && g.body.facts.ClockRegression? && g.body.facts.prior == prior && g.body.facts.regressing == regressing
  }

  lemma {:induction false} FindsExactly(replayed: seq<Entry>, prior: Id, regressing: Id)
    ensures FindWitness(replayed, Some(prior), Some(regressing)).Some? <==> MadeFor(replayed, prior, regressing)
  {
    if replayed != [] {
      FindsExactly(replayed[1..], prior, regressing);
      assert replayed == [replayed[0]] + replayed[1..];
      if MadeFor(replayed[1..], prior, regressing) {
        var g :| g in replayed[1..] && g.body.facts.ClockRegression? && g.body.facts.prior == prior && g.body.facts.regressing == regressing;
        assert g in replayed;
      }
      var f := replayed[0].body.facts;
      if f.ClockRegression? && f.regressing == regressing && f.prior == prior { assert replayed[0] in replayed; }
    }
  }

  /**
    No dropped row and no kept entry ever stops the walk. It stops at a witness, exactly if both its ends are
    left and no witness of their new names has been made.
   */
  lemma WalkStopsExactly(k: Kernel, pick: Pick, execution: string, entries: seq<Entry>, n: nat)
    requires CollisionFree(k) && Bounded(execution) && n < |entries| && Run(k, EMPTY, entries).Some?
    requires WalkRun(k, pick, execution, Index(entries), entries[..n]).Some?
    ensures var w, e := WalkRun(k, pick, execution, Index(entries), entries[..n]).value, entries[n];
            WalkRun(k, pick, execution, Index(entries), entries[..n + 1]).None? <==>
              && e.body.facts.ClockRegression? && !EndDropped(Index(entries[..n]), e)
              && e.body.facts.prior in w.remapped && e.body.facts.regressing in w.remapped
              && !MadeFor(w.replayed, w.remapped[e.body.facts.prior], w.remapped[e.body.facts.regressing])
  {
    hide *;
    WalkStands(k, pick, execution, entries, n);
    var s := BeforeAt(k, entries, n);
    var w, e := WalkRun(k, pick, execution, Index(entries), entries[..n]).value, entries[n];
    IndexAgrees(k, entries, n);
    WalkRunLast(k, pick, execution, Index(entries), entries, n);
    OneOfThree(e);
    DroppedKind(e);
    if Dropped(e) { var x := DroppedStands(k, pick, execution, Index(entries), s, entries[..n], w, e); }
    else if Kept(e) { var x := KeptStands(k, pick, execution, Index(entries), s, entries[..n], w, e); }
    else {
      WitnessStands(k, pick, execution, Index(entries), s, entries[..n], w, e);
      FindsExactly(w.replayed, w.remapped[e.body.facts.prior], w.remapped[e.body.facts.regressing]);
    }
  }

  // ----- What comes out -----

  /** What a replay makes of a bundle, under some assignment of new names to all its entries. */
  ghost predicate Carried(entries: seq<Entry>, m: Renaming, execution: string, out: seq<Entry>) {
    && (forall i :: 0 <= i < |entries| ==> entries[i].id in m)
    && AllImaged(Index(entries), m, execution, KeptOf(entries), Witnessless(out))
    && AllRepresented(entries, m)
    && PromptWitnesses(out) && LedgerClocks.AllAttested(out)
  }

  lemma FirstIsKept(k: Kernel, entries: seq<Entry>)
    requires entries != [] && Run(k, EMPTY, entries).Some?
    ensures Kept(entries[0])
  {
    hide *;
    var s := BeforeAt(k, entries, 0);
    assert entries[..0] == [];
    EntryAllowed(k, s, [], entries[0]);
    NothingIndexed();
    OneOfThree(entries[0]);
    if Dropped(entries[0]) { DroppedHangs(s.graph.byId, entries[0]); }
    if entries[0].body.facts.ClockRegression? { WitnessEndsHere(s.graph.byId, entries[0]); }
  }

  lemma NothingIndexed()
    ensures Index([]) == map[]
  {
  }

  /** A replay that emits anything has a proper name. */
  lemma ReplayBounded(k: Kernel, pick: Pick, execution: string, entries: seq<Entry>)
    requires entries != [] && Run(k, EMPTY, entries).Some? && WalkRun(k, pick, execution, Index(entries), entries).Some?
    ensures Bounded(execution)
  {
    hide *;
    FirstIsKept(k, entries);
    var original := Index(entries);
    WalkPrefix(k, pick, execution, original, entries, 1);
    WalkNext(k, pick, execution, original, entries, 0);
    var w := WalkRun(k, pick, execution, original, entries[..0]).value;
    EmitIs(k, pick, execution, original, w, entries[0]);
    EmitBounded(k, execution, original, w, entries[0]);
  }

  lemma EmitBounded(k: Kernel, execution: string, original: ById, w: Walk, e: Entry)
    requires WalkEmit(k, execution, original, w, e).Some?
    ensures Bounded(execution)
  {
    hide WalkClock, Rewire;
  }

  lemma NothingCarried(execution: string)
    ensures Carried([], map[], execution, [])
  {
  }

  /**
    Whatever the acquisition replay returns, for any ledger with request and failure facts: in their order the
    kept entries with their clocks and facts, commits as replayed ones, under the new names of their parents;
    each dropped row named after a kept stage fact it hangs on; and the witnesses owed, each right behind the
    entry that owes it.
   */
  lemma ReplayCarries(k: Kernel, pick: Pick, entries: seq<Entry>, execution: string)
    requires CollisionFree(k) && ReplayAcquisition(k, pick, entries, execution).Some?
    ensures exists m :: Carried(entries, m, execution, ReplayAcquisition(k, pick, entries, execution).value)
  {
    AcceptedRuns(k, entries);
    var original := Index(entries);
    var w := WalkRun(k, pick, execution, original, entries).value;
    LedgerMeaning.AcceptedExactly(k, w.replayed);
    hide *;
    assert entries[..|entries|] == entries;
    if entries == [] {
      WalkNothing(k, pick, execution, original);
      NothingCarried(execution);
    } else {
      ReplayBounded(k, pick, execution, entries);
      WalkStands(k, pick, execution, entries, |entries|);
      RunShape(k, pick, execution, original, entries, |entries|);
      CarriedIs(k, execution, entries, w);
    }
  }

  lemma AcceptedRuns(k: Kernel, entries: seq<Entry>)
    ensures Accepted(k, entries) ==> Run(k, EMPTY, entries).Some?
  {
    hide Run, Settled;
  }

  lemma {:induction false} IndexHas(entries: seq<Entry>, i: nat)
    requires i < |entries|
    ensures entries[i].id in Index(entries)
  {
    assert entries[i] in entries;
    IndexedIn(entries, entries[i]);
  }

  lemma CarriedIs(k: Kernel, execution: string, entries: seq<Entry>, w: Walk)
    requires Standing(k, execution, Index(entries), entries, w) && PromptWitnesses(w.replayed) && LedgerClocks.AllAttested(w.replayed)
    ensures Carried(entries, w.remapped, execution, w.replayed)
  {
    hide AllImaged, AllRepresented, PromptWitnesses, LedgerClocks.AllAttested, AllEmitted, Index, DeclarationsKnown, WallsKnown;
    forall i | 0 <= i < |entries| ensures entries[i].id in w.remapped { IndexHas(entries, i); }
  }
}
