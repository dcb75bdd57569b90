/**
  Acceptance of a bundle, without a table: what every entry must satisfy towards the entries before it.
 */
module LedgerMeaning {
  import opened Base
  import opened ObservationLedger
  import opened LedgerInvariants
  import opened ReplayTheorem
  import LedgerEvidence
  import LedgerClocks
  import KeyOrder

  // ----- The graph -----

  /** A way through the bundle, each entry a parent of the next. */
  predicate Path(entries: seq<Entry>, p: seq<nat>) {
    && (forall j :: 0 <= j < |p| ==> p[j] < |entries|)
    && forall j :: 0 < j < |p| ==> p[j - 1] < p[j] && entries[p[j - 1]].id in entries[p[j]].body.parents
  }

  predicate PathTo(entries: seq<Entry>, p: seq<nat>, i: nat) {
    p != [] && p[|p| - 1] == i && Path(entries, p)
  }

  function EdgeCount(entries: seq<Entry>): nat {
    if entries == [] then 0 else EdgeCount(entries[..|entries| - 1]) + |entries[|entries| - 1].body.parents|
  }

  predicate ParentsBefore(before: seq<Entry>, e: Entry) {
    forall p :: p in e.body.parents ==> exists i :: 0 <= i < |before| && before[i].id == p
  }

  ghost predicate PathsShort(entries: seq<Entry>, i: nat) {
    forall p :: PathTo(entries, p, i) ==> |p| <= MAX_CAUSAL_DEPTH
  }

  ghost predicate GraphRules(k: Kernel, before: seq<Entry>, e: Entry) {
    && Create(k, e.body) == Some(e)
    && (before != [] ==> before[0].body.execution == e.body.execution)
    && (forall i :: 0 <= i < |before| ==> before[i].id != e.id)
    && ParentsBefore(before, e)
    && EdgeCount(before + [e]) <= MAX_EDGES
    && PathsShort(before + [e], |before|)
    && ParentTransition(Index(before), e)
  }

  // ----- What the graph tables hold -----

  ghost predicate DepthMeans(depths: map<Id, nat>, entries: seq<Entry>, i: nat)
    requires i < |entries|
  {
    && entries[i].id in depths
    && (forall p :: PathTo(entries, p, i) ==> |p| <= depths[entries[i].id])
    && exists p :: PathTo(entries, p, i) && |p| == depths[entries[i].id]
  }

  ghost predicate GraphMeans(g: Graph, entries: seq<Entry>) {
    && g.execution == (if entries == [] then None else Some(entries[0].body.execution))
    && g.byId == Index(entries) && LedgerClocks.Filed(g.byId, entries)
    && g.edges == EdgeCount(entries)
    && (forall i :: 0 <= i < |entries| ==> DepthMeans(g.depths, entries, i))
    && g.depths.Keys == g.byId.Keys
  }

  lemma ByIdNext(entries: seq<Entry>, e: Entry)
    ensures Index(entries + [e]) == Index(entries)[e.id := e] && EdgeCount(entries + [e]) == EdgeCount(entries) + |e.body.parents|
  {
    assert (entries + [e])[..|entries|] == entries;
  }

  /** A path to an old entry has nothing to do with a new one. */
  lemma PathOld(entries: seq<Entry>, e: Entry, p: seq<nat>, i: nat)
    requires i < |entries|
    ensures PathTo(entries + [e], p, i) <==> PathTo(entries, p, i)
  {
    var all := entries + [e];
    if p != [] && p[|p| - 1] == i {
      if Path(all, p) { PathRises(all, p); }
      if Path(entries, p) { PathRises(entries, p); }
      assert forall j :: 0 <= j < |entries| ==> all[j] == entries[j];
    }
  }

  lemma {:induction false} PathRises(entries: seq<Entry>, p: seq<nat>)
    requires Path(entries, p) && p != []
    ensures forall j :: 0 <= j < |p| ==> p[j] <= p[|p| - 1]
  {
    if |p| > 1 {
      var front := p[..|p| - 1];
      assert forall j :: 0 <= j < |front| ==> front[j] == p[j];
      PathRises(entries, front);
    }
  }

  lemma {:induction false} DeepestParent(depths: map<Id, nat>, ids: seq<Id>)
    ensures forall p :: p in ids && p in depths ==> depths[p] <= MaxDepth(depths, ids)
    ensures MaxDepth(depths, ids) > 0 ==> exists p :: p in ids && p in depths && depths[p] == MaxDepth(depths, ids)
  {
    if ids != [] {
      DeepestParent(depths, ids[1..]);
      assert ids == [ids[0]] + ids[1..];
    }
  }

  /** The depth the validator computes is the length of the longest path. */
  lemma DepthIsLongest(g: Graph, entries: seq<Entry>, e: Entry)
    requires GraphMeans(g, entries) && ParentsBefore(entries, e)
    ensures forall p :: PathTo(entries + [e], p, |entries|) ==> |p| <= DepthOf(g.depths, e.body.parents)
    ensures exists p :: PathTo(entries + [e], p, |entries|) && |p| == DepthOf(g.depths, e.body.parents)
  {
    hide GraphMeans, PathTo, DepthOf, ParentsBefore;
    forall p | PathTo(entries + [e], p, |entries|) ensures |p| <= DepthOf(g.depths, e.body.parents) {
      PathBound(g, entries, e, p);
    }
    var longest := LongestPath(g, entries, e);
  }

  lemma DepthsOf(g: Graph, entries: seq<Entry>, i: nat)
    requires GraphMeans(g, entries) && i < |entries|
    ensures DepthMeans(g.depths, entries, i)
  {
    hide DepthMeans, Index, EdgeCount, LedgerClocks.Filed;
  }

  lemma LongestAt(depths: map<Id, nat>, entries: seq<Entry>, i: nat) returns (p: seq<nat>)
    requires i < |entries| && DepthMeans(depths, entries, i)
    ensures PathTo(entries, p, i) && |p| == depths[entries[i].id]
  {
    hide PathTo;
    p :| PathTo(entries, p, i) && |p| == depths[entries[i].id];
  }

  lemma LongestPath(g: Graph, entries: seq<Entry>, e: Entry) returns (longest: seq<nat>)
    requires GraphMeans(g, entries) && ParentsBefore(entries, e)
    ensures PathTo(entries + [e], longest, |entries|) && |longest| == DepthOf(g.depths, e.body.parents)
  {
    hide GraphMeans, PathTo, DepthMeans;
    var n := |entries|;
    DeepestParent(g.depths, e.body.parents);
    var deepest := MaxDepth(g.depths, e.body.parents);
    if deepest == 0 {
      longest := [n];
      LonePath(entries + [e], n);
    } else {
      var x :| x in e.body.parents && x in g.depths && g.depths[x] == deepest;
      var i :| 0 <= i < n && entries[i].id == x;
      DepthsOf(g, entries, i);
      var p := LongestAt(g.depths, entries, i);
      PathOn(entries, e, p, i);
      longest := p + [n];
    }
  }

  lemma LonePath(entries: seq<Entry>, i: nat)
    requires i < |entries|
    ensures PathTo(entries, [i], i)
  {
  }

  lemma PathOn(entries: seq<Entry>, e: Entry, p: seq<nat>, i: nat)
    requires i < |entries| && PathTo(entries, p, i) && entries[i].id in e.body.parents
    ensures PathTo(entries + [e], p + [|entries|], |entries|)
  {
    var all, q := entries + [e], p + [|entries|];
    assert forall j :: 0 <= j < |entries| ==> all[j] == entries[j];
    forall j | 0 < j < |q| ensures q[j - 1] < q[j] && all[q[j - 1]].id in all[q[j]].body.parents {
      if j < |p| { assert q[j - 1] == p[j - 1] && q[j] == p[j]; }
    }
  }

  lemma PathBound(g: Graph, entries: seq<Entry>, e: Entry, p: seq<nat>)
    requires GraphMeans(g, entries) && ParentsBefore(entries, e) && PathTo(entries + [e], p, |entries|)
    ensures |p| <= DepthOf(g.depths, e.body.parents)
  {
    hide GraphMeans;
    var all, n := entries + [e], |entries|;
    DeepestParent(g.depths, e.body.parents);
    if |p| > 1 {
      var front := p[..|p| - 1];
      var i := p[|p| - 2];
      assert all[i].id in all[n].body.parents && i < n;
      assert forall j :: 0 <= j < |front| ==> front[j] == p[j];
      assert PathTo(all, front, i);
      PathOld(entries, e, front, i);
      DepthsOf(g, entries, i);
    }
  }

  lemma ParentsFiled(g: Graph, entries: seq<Entry>, e: Entry)
    requires GraphMeans(g, entries)
    ensures (forall p :: p in e.body.parents ==> p in g.byId) <==> ParentsBefore(entries, e)
    ensures e.id !in g.byId <==> forall i :: 0 <= i < |entries| ==> entries[i].id != e.id
  {
    hide DepthMeans, Index, EdgeCount;
    forall x: Id ensures x in g.byId <==> exists i :: 0 <= i < |entries| && entries[i].id == x {
      if x in g.byId { var i :| 0 <= i < |entries| && entries[i] == g.byId[x]; }
      if i :| 0 <= i < |entries| && entries[i].id == x { assert entries[i].id in g.byId; }
    }
  }

  lemma GraphDecided(k: Kernel, g: Graph, entries: seq<Entry>, e: Entry)
    requires GraphMeans(g, entries)
    ensures GraphOk(k, g, e) <==> GraphRules(k, entries, e)
  {
    ParentsFiled(g, entries, e);
    ByIdNext(entries, e);
    if ParentsBefore(entries, e) { DepthIsLongest(g, entries, e); }
    hide ParentTransition, Create, DepthOf, ParentsBefore, DepthMeans, Index, EdgeCount, PathTo, LedgerClocks.Filed;
  }

  lemma DepthsNext(k: Kernel, g: Graph, entries: seq<Entry>, e: Entry, i: nat)
    requires GraphMeans(g, entries) && GraphOk(k, g, e) && i <= |entries|
    ensures DepthMeans(RecordGraph(g, e).depths, entries + [e], i)
  {
    hide GraphMeans, GraphOk, PathTo, DepthOf, ParentsBefore;
    var all, depths := entries + [e], RecordGraph(g, e).depths;
    ParentsFiled(g, entries, e);
    ParentsOk(k, g, e);
    if i == |entries| {
      DepthIsLongest(g, entries, e);
    } else {
      DepthsOf(g, entries, i);
      assert all[i] == entries[i] && entries[i].id != e.id;
      forall p ensures PathTo(all, p, i) <==> PathTo(entries, p, i) { PathOld(entries, e, p, i); }
    }
  }

  lemma ParentsOk(k: Kernel, g: Graph, e: Entry)
    requires GraphOk(k, g, e)
    ensures e.id !in g.byId && forall p :: p in e.body.parents ==> p in g.byId
  {
    hide ParentTransition, Create, DepthOf;
  }

  lemma FiledNext(k: Kernel, g: Graph, entries: seq<Entry>, e: Entry)
    requires GraphMeans(g, entries) && GraphOk(k, g, e)
    ensures LedgerClocks.Filed(g.byId[e.id := e], entries + [e])
  {
    ParentsOk(k, g, e);
    HoldsGrows(g.byId, entries, e);
    hide GraphOk, DepthMeans, Index, EdgeCount;
  }

  lemma GraphNext(k: Kernel, g: Graph, entries: seq<Entry>, e: Entry)
    requires GraphMeans(g, entries) && GraphOk(k, g, e)
    ensures GraphMeans(RecordGraph(g, e), entries + [e])
  {
    hide DepthMeans, Index, EdgeCount, LedgerClocks.Filed, DepthOf, GraphOk;
    ByIdNext(entries, e);
    FiledNext(k, g, entries, e);
    SameExecution(k, g, e);
    forall i | 0 <= i < |entries| + 1 ensures DepthMeans(RecordGraph(g, e).depths, entries + [e], i) {
      hide GraphMeans;
      DepthsNext(k, g, entries, e, i);
    }
  }

  lemma SameExecution(k: Kernel, g: Graph, e: Entry)
    requires GraphOk(k, g, e)
    ensures g.execution.Some? ==> g.execution.value == e.body.execution
  {
    hide ParentTransition, Create, DepthOf;
  }

  // ----- All rules, and all tables -----

  ghost predicate EntryRules(k: Kernel, before: seq<Entry>, e: Entry) {
    GraphRules(k, before, e) && LedgerEvidence.EvidenceRules(before, e) && LedgerClocks.ClockRules(before, e)
  }

  ghost predicate TablesMean(s: Tables, entries: seq<Entry>) {
    GraphMeans(s.graph, entries) && LedgerEvidence.EvidenceMeans(s.evidence, entries) && LedgerClocks.ClocksMean(s.clocks, entries)
  }

  lemma GraphFiled(g: Graph, entries: seq<Entry>)
    requires GraphMeans(g, entries)
    ensures LedgerClocks.Filed(g.byId, entries) && Holds(g.byId, entries)
  {
  }

  lemma ParentsAscend(k: Kernel, g: Graph, e: Entry)
    requires GraphOk(k, g, e)
    ensures StrictlyAscending(e.body.parents) && (e.body.facts.ClockRegression? ==> e.body.clock.Stamp?)
  {
  }

  /** The validator admits an entry exactly when it keeps the rules towards the entries before it. */
  lemma AdmittedExactly(k: Kernel, s: Tables, entries: seq<Entry>, e: Entry)
    requires TablesMean(s, entries)
    ensures Admits(k, s, e) <==> EntryRules(k, entries, e)
    ensures Admits(k, s, e) ==> TablesMean(Advance(s, e), entries + [e])
  {
    hide GraphMeans, LedgerEvidence.EvidenceMeans, LedgerClocks.ClocksMean, GraphOk, GraphRules, EvidenceOk, LedgerEvidence.EvidenceRules, ClockOk,
      LedgerClocks.ClockRules, LedgerClocks.Filed, Holds, RecordGraph, RecordClock, RecordEvidence;
    GraphDecided(k, s.graph, entries, e);
    GraphFiled(s.graph, entries);
    LedgerEvidence.RulesDecided(s.evidence, s.graph.byId, entries, e);
    if GraphOk(k, s.graph, e) {
      ParentsAscend(k, s.graph, e);
      LedgerClocks.RulesDecided(s.graph.byId, s.clocks, entries, e);
      if Admits(k, s, e) {
        GraphNext(k, s.graph, entries, e);
        LedgerEvidence.EvidenceNext(s.evidence, s.graph.byId, entries, e);
        LedgerClocks.ClocksNext(s.graph.byId, s.clocks, entries, e);
      }
    }
  }

  lemma StartMeans()
    ensures TablesMean(EMPTY, [])
  {
  }

  ghost predicate AllRules(k: Kernel, entries: seq<Entry>) {
    forall i :: 0 <= i < |entries| ==> EntryRules(k, entries[..i], entries[i])
  }

  lemma {:induction false} RunExactly(k: Kernel, entries: seq<Entry>, n: nat)
    requires n <= |entries|
    ensures Run(k, EMPTY, entries[..n]).Some? <==> forall i :: 0 <= i < n ==> EntryRules(k, entries[..i], entries[i])
    ensures Run(k, EMPTY, entries[..n]).Some? ==> TablesMean(Run(k, EMPTY, entries[..n]).value, entries[..n])
  {
    hide Admits, Advance, EntryRules, TablesMean, Fold;
    if n == 0 {
      assert entries[..0] == [];
      StartMeans();
      assert Run(k, EMPTY, []) == Some(EMPTY) by { RunNothing(k); }
    } else {
      RunExactly(k, entries, n - 1);
      FoldLast(Stepper(k), EMPTY, entries, n - 1);
      if Run(k, EMPTY, entries[..n - 1]).Some? {
        AdmittedExactly(k, Run(k, EMPTY, entries[..n - 1]).value, entries[..n - 1], entries[n - 1]);
        assert entries[..n - 1] + [entries[n - 1]] == entries[..n];
      }
    }
  }

  lemma RunNothing(k: Kernel)
    ensures Run(k, EMPTY, []) == Some(EMPTY)
  {
  }

  /**
    A bundle is accepted if and only if it is not too long, every entry keeps the rules towards the entries
    before it, and every fall of a wall clock is attested.
   */
  lemma AcceptedExactly(k: Kernel, entries: seq<Entry>)
    ensures Accepted(k, entries) <==> |entries| <= MAX_ENTRIES && AllRules(k, entries) && LedgerClocks.AllAttested(entries)
  {
    hide EntryRules, GraphMeans, LedgerEvidence.EvidenceMeans, LedgerClocks.AllAttested, Run, LedgerClocks.BasesMean, LedgerClocks.WallsMean,
      LedgerClocks.MonotonicMeans, LedgerClocks.DebtsMean;
    assert entries[..|entries|] == entries;
    RunExactly(k, entries, |entries|);
    if Run(k, EMPTY, entries).Some? {
      LedgerClocks.SettledExactly(Run(k, EMPTY, entries).value.clocks, entries);
    }
  }

  // ----- What that says of failures -----

  lemma RulesAt(k: Kernel, entries: seq<Entry>, j: nat)
    requires Accepted(k, entries) && j < |entries|
    ensures EntryRules(k, entries[..j], entries[j])
  {
    hide EntryRules, Accepted;
    AcceptedExactly(k, entries);
  }

  /** Nothing is committed after its request failed, and nothing normalized after its bytes were lost. */
  lemma FailuresRuleOut(k: Kernel, entries: seq<Entry>, i: nat, j: nat, a: Id)
    requires Accepted(k, entries) && i < j < |entries|
    ensures LedgerEvidence.FailedAt(entries[i], RequestStage, a) ==>
              !(entries[j].body.facts.ArtifactCommitted? && entries[j].body.facts.acquisition == a)
    ensures (exists stage :: stage in {ArtifactStoreStage, VerifiedReadStage, NormalizationStage} && LedgerEvidence.FailedAt(entries[i], stage, a))
            ==> forall l :: l in LinksOf(entries[j].body.facts) ==> l.acquisition != a
  {
    hide Accepted, GraphRules, LedgerClocks.ClockRules, LinksOf;
    RulesAt(k, entries, j);
    var before, e := entries[..j], entries[j];
    assert before[i] == entries[i];
    if e.body.facts.ArtifactCommitted? { assert LedgerEvidence.CommitAfter(before[i], e); }
    if stage :| stage in {ArtifactStoreStage, VerifiedReadStage, NormalizationStage} && LedgerEvidence.FailedAt(entries[i], stage, a) {
      assert LedgerEvidence.NothingToNormalize(before[i], a);
    }
  }

  /** After every run the two blocking tables hold exactly the acquisitions that failed so. */
  lemma BlocksExactly(k: Kernel, entries: seq<Entry>, a: Id)
    requires Run(k, EMPTY, entries).Some?
    ensures var v := Run(k, EMPTY, entries).value.evidence;
            && (a in v.blockedCommits <==> exists i :: 0 <= i < |entries| && LedgerEvidence.FailedAt(entries[i], RequestStage, a))
            && (a in v.blockedNormalizations <==>
                  exists i, stage :: 0 <= i < |entries| && stage in {ArtifactStoreStage, VerifiedReadStage, NormalizationStage}
                                     && LedgerEvidence.FailedAt(entries[i], stage, a))
  {
    hide EntryRules, GraphMeans, LedgerEvidence.CountsMean, LedgerEvidence.CommitsMean, LedgerEvidence.RevisionsMean, Run, LedgerClocks.ClocksMean;
    assert entries[..|entries|] == entries;
    RunExactly(k, entries, |entries|);
    forall i: nat | i < |entries|
      ensures LedgerEvidence.NothingToNormalize(entries[i], a) <==>
                exists stage :: stage in {ArtifactStoreStage, VerifiedReadStage, NormalizationStage} && LedgerEvidence.FailedAt(entries[i], stage, a) {
      hide LedgerEvidence.FailedAt;
      if LedgerEvidence.FailedAt(entries[i], ArtifactStoreStage, a) || LedgerEvidence.FailedAt(entries[i], VerifiedReadStage, a)
         || LedgerEvidence.FailedAt(entries[i], NormalizationStage, a) { }
    }
  }

  /** The roles of the raw links of an accepted entry rise in code-unit order. */
  lemma RolesInOrder(k: Kernel, entries: seq<Entry>, j: nat, i: nat)
    requires Accepted(k, entries) && j < |entries| && IsNormalization(entries[j].body.facts) && 0 < i < |LinksOf(entries[j].body.facts)|
    ensures var links := LinksOf(entries[j].body.facts);
            KeyOrder.Precedes(KeyOrder.Codes(links[i - 1].role), KeyOrder.Codes(links[i].role))
  {
    RulesAt(k, entries, j);
    var links := LinksOf(entries[j].body.facts);
    KeyOrder.StringLessExactly(links[i - 1].role, links[i].role);
    hide Accepted, ParentTransition, LedgerEvidence.EvidenceRules, LedgerClocks.ClockRules, KeyOrder.Precedes, StringLess, PathsShort, EdgeCount;
  }
}
