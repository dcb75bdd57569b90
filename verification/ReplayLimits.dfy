/** A ledger that is accepted and cannot be replayed. */
module ReplayLimits {
  import opened Base
  import opened ObservationLedger
  import opened LedgerReplay
  import opened ReplaySimulation
  import opened ReplayTheorem

  const DECLARED := AcquisitionDeclared(1, "provider", "attempt", 2, "route")

  /** One artifact of that acquisition, retrieved at no recorded time. */
  function Artifact(mode: Mode): Facts {
    ArtifactCommitted(1, 3, 4, 5, 6, mode, None)
  }

  function Sealed(k: Kernel, parents: seq<Id>, facts: Facts): Entry {
    var body := Body("recording", parents, Unstamped, facts);
    Entry(k.hash(body), body)
  }

  /** The same artifact committed twice, once as recorded and once as replayed. */
  function Twice(k: Kernel): seq<Entry> {
    var declared := Sealed(k, [], DECLARED);
    [declared, Sealed(k, [declared.id], Artifact(Recorded)), Sealed(k, [declared.id], Artifact(Replay))]
  }

  lemma DeclaredGraph(k: Kernel)
    requires k.derived(DECLARED)
    ensures var e := Sealed(k, [], DECLARED);
            && GraphOk(k, EMPTY.graph, e)
            && RecordGraph(EMPTY.graph, e) == Graph(Some("recording"), map[e.id := e], map[e.id := 1], 0)
  {
    var e := Sealed(k, [], DECLARED);
    assert map[][e.id := e] == map[e.id := e] && map[][e.id := 1] == map[e.id := 1];
    assert multiset(KindsOf(map[], [])) == multiset(RequiredKinds(DECLARED));
  }

  lemma DeclaredEvidence()
    ensures EvidenceOk(EMPTY.evidence, map[], DECLARED)
    ensures RecordEvidence(EMPTY.evidence, DECLARED) == EMPTY.evidence.(acquisitionCounts := map[1 := 1])
  {
    assert AcquisitionsTouched(DECLARED) == {1};
    assert AddCounts(map[], {1}) == map[1 := 1];
  }

  lemma DeclaredAdmitted(k: Kernel)
    requires k.derived(DECLARED)
    ensures var e := Sealed(k, [], DECLARED);
            && Admits(k, EMPTY, e)
            && Advance(EMPTY, e).graph == Graph(Some("recording"), map[e.id := e], map[e.id := 1], 0)
            && Advance(EMPTY, e).clocks == EMPTY.clocks
            && Advance(EMPTY, e).evidence == EMPTY.evidence.(acquisitionCounts := map[1 := 1])
  {
    hide GraphOk, RecordGraph, EvidenceOk, RecordEvidence;
    DeclaredGraph(k);
    DeclaredEvidence();
  }

  /** A commit under a declaration that stands in the tables. */
  lemma CommitGraph(k: Kernel, g: Graph, d: Id, mode: Mode)
    requires mode != Live && d in g.byId && FactsAt(g.byId, d) == DECLARED && g.execution == Some("recording") && g.edges <= 1
    requires d in g.depths && g.depths[d] == 1
    requires Sealed(k, [d], Artifact(mode)).id !in g.byId
    ensures GraphOk(k, g, Sealed(k, [d], Artifact(mode)))
    ensures BasisIds(g.byId, [d]) == []
  {
    var e := Sealed(k, [d], Artifact(mode));
    assert [d][1..] == [];
    assert SelectParents(g.byId, [], true) == [] && SelectParents(g.byId, [], false) == [];
    assert SelectParents(g.byId, [d], true) == [] && SelectParents(g.byId, [d], false) == [d];
    assert CausalIds(g.byId, [d]) == [d] && BasisIds(g.byId, [d]) == [];
    assert KindsOf(g.byId, [d]) == [KAcquisition] == RequiredKinds(e.body.facts);
    assert DepthOf(g.depths, [d]) == 2 by { assert MaxDepth(g.depths, []) == 0; }
  }

  lemma CommitEvidence(v: Evidence, byId: ById, mode: Mode)
    requires mode != Live && v.blockedCommits == {} && CountAt(v.acquisitionCounts, 1) <= 2
    requires forall x :: x in byId ==> !IsRequest(FactsAt(byId, x))
    requires 1 in v.commits ==> v.commits[1] == CommitIdentity(3, 4, 5, 6)
    requires 3 in v.vaultEvidence ==> v.vaultEvidence[3] == VaultEvidence(4, 5, 6)
    ensures EvidenceOk(v, byId, Artifact(mode))
    ensures var w := RecordEvidence(v, Artifact(mode));
            && w.blockedCommits == {} && CountAt(w.acquisitionCounts, 1) == CountAt(v.acquisitionCounts, 1) + 1
            && (1 in w.commits ==> w.commits[1] == CommitIdentity(3, 4, 5, 6))
            && (3 in w.vaultEvidence ==> w.vaultEvidence[3] == VaultEvidence(4, 5, 6))
  {
    assert AcquisitionsTouched(Artifact(mode)) == {1};
  }

  /** The tables after the declaration and the first commit. */
  lemma FirstCommitted(k: Kernel) returns (s: Tables)
    requires CollisionFree(k) && k.derived(DECLARED)
    ensures Run(k, EMPTY, Twice(k)[..2]) == Some(s)
    ensures s.clocks == EMPTY.clocks && s.graph.execution == Some("recording") && s.graph.edges == 1
    ensures var d := Twice(k)[0];
            s.graph.byId == map[d.id := d, Twice(k)[1].id := Twice(k)[1]] && d.id in s.graph.depths && s.graph.depths[d.id] == 1
    ensures s.evidence.blockedCommits == {} && CountAt(s.evidence.acquisitionCounts, 1) == 2
    ensures 1 in s.evidence.commits ==> s.evidence.commits[1] == CommitIdentity(3, 4, 5, 6)
    ensures 3 in s.evidence.vaultEvidence ==> s.evidence.vaultEvidence[3] == VaultEvidence(4, 5, 6)
  {
    hide Admits, GraphOk, EvidenceOk, RecordEvidence, Fold, CollisionFree;
    var d, c := Twice(k)[0], Twice(k)[1];
    DeclaredAdmitted(k);
    var first := Advance(EMPTY, d);
    NamesDiffer(k);
    CommitGraph(k, first.graph, d.id, Recorded);
    CommitEvidence(first.evidence, first.graph.byId, Recorded);
    CommitAdmitted(k, first, c);
    s := Advance(first, c);
    TwoSteps(k, Twice(k), first, s);
  }

  lemma CommitAdmitted(k: Kernel, s: Tables, e: Entry)
    requires GraphOk(k, s.graph, e) && EvidenceOk(s.evidence, s.graph.byId, e.body.facts)
    requires e.body.clock.Unstamped? && !e.body.facts.ClockBasisDeclared? && BasisIds(s.graph.byId, e.body.parents) == []
    ensures Admits(k, s, e) && Advance(s, e).clocks == s.clocks
  {
    hide GraphOk, EvidenceOk, RecordEvidence;
  }

  lemma NamesDiffer(k: Kernel)
    requires CollisionFree(k)
    ensures forall i, j :: 0 <= i < j < 3 ==> Twice(k)[i].id != Twice(k)[j].id
  {
  }

  lemma TwoSteps(k: Kernel, entries: seq<Entry>, first: Tables, second: Tables)
    requires |entries| >= 2 && Step(k, EMPTY, entries[0]) == Some(first) && Step(k, first, entries[1]) == Some(second)
    ensures Run(k, EMPTY, entries[..2]) == Some(second)
  {
    hide Step;
    assert entries[..0] == [];
    FoldLast(Stepper(k), EMPTY, entries, 0);
    FoldLast(Stepper(k), EMPTY, entries, 1);
  }

  /** An accepted ledger without a single request fact that no execution identity can replay. */
  lemma TwinsNotReplayed(k: Kernel, execution: string)
    requires CollisionFree(k) && k.derived(DECLARED)
    ensures Accepted(k, Twice(k)) && NoRequestFacts(Twice(k)) && ModeTwins(Twice(k)[1], Twice(k)[2])
    ensures ReplayRecorded(k, Twice(k), execution).None?
  {
    hide Admits, GraphOk, EvidenceOk, RecordEvidence, Fold, CollisionFree, ReplayRecorded;
    var entries := Twice(k);
    var s := FirstCommitted(k);
    NamesDiffer(k);
    assert entries[2].id !in s.graph.byId;
    CommitGraph(k, s.graph, entries[0].id, Replay);
    CommitEvidence(s.evidence, s.graph.byId, Replay);
    CommitAdmitted(k, s, entries[2]);
    FoldLast(Stepper(k), EMPTY, entries, 2);
    assert entries[..3] == entries;
    assert ModeTwins(entries[1], entries[2]);
    ReplayAccepted(k, entries, execution);
  }
}
