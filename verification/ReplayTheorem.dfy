/**
  The replay theorem: an accepted ledger is replayed to an accepted ledger exactly when it holds no
  request facts and no two commits that differ only in their acquisition mode, and the replayed
  ledger is the original one with its identifiers renamed.
 */
module ReplayTheorem {
  import opened Base
  import opened ObservationLedger
  import opened LedgerInvariants
  import opened LedgerReplay
  import opened ReplayPreservation
  import opened ReplaySimulation

  predicate NoRequestFacts(entries: seq<Entry>) {
    forall i :: 0 <= i < |entries| ==> !IsRequest(entries[i].body.facts)
  }

  predicate NoModeTwins(entries: seq<Entry>) {
    forall i, j :: 0 <= i < j < |entries| ==> !ModeTwins(entries[i], entries[j])
  }

  /** The tables hold the entries of the prefix and nothing else. */
  ghost predicate Holds(byId: ById, entries: seq<Entry>) {
    && (forall x :: x in byId ==> exists i :: 0 <= i < |entries| && entries[i] == byId[x])
    && (forall i :: 0 <= i < |entries| ==> entries[i].id in byId && byId[entries[i].id] == entries[i])
  }

  lemma HoldsGrows(byId: ById, entries: seq<Entry>, e: Entry)
    requires Holds(byId, entries) && e.id !in byId
    ensures Holds(byId[e.id := e], entries + [e])
  {
    var grown, more := byId[e.id := e], entries + [e];
    forall x | x in grown ensures exists i :: 0 <= i < |more| && more[i] == grown[x] {
      if x == e.id {
        assert more[|entries|] == e;
      } else {
        var i :| 0 <= i < |entries| && entries[i] == byId[x];
        assert more[i] == byId[x];
      }
    }
  }

  lemma RunLast(k: Kernel, entries: seq<Entry>, n: nat)
    requires n < |entries| && Run(k, EMPTY, entries).Some?
    ensures Run(k, EMPTY, entries[..n]).Some?
    ensures var s := Run(k, EMPTY, entries[..n]).value;
            Admits(k, s, entries[n]) && Run(k, EMPTY, entries[..n + 1]) == Some(Advance(s, entries[n]))
  {
    hide Admits, Advance, Fold;
    var step := Stepper(k);
    FoldLast(step, EMPTY, entries, n);
    FoldConcat(step, EMPTY, entries[..n + 1], entries[n + 1..]);
    assert entries[..n + 1] + entries[n + 1..] == entries;
  }

  lemma RunAppend(k: Kernel, entries: seq<Entry>, e: Entry, s: Tables)
    requires Run(k, EMPTY, entries) == Some(s) && Admits(k, s, e)
    ensures Run(k, EMPTY, entries + [e]) == Some(Advance(s, e))
  {
    hide Admits, Advance, Fold;
    var all := entries + [e];
    FoldLast(Stepper(k), EMPTY, all, |entries|);
    assert all[..|entries|] == entries && all[..|entries| + 1] == all;
  }

  /** The two runs after `n` entries, and how the output so far renames the input so far. */
  ghost predicate Together(k: Kernel, execution: string, entries: seq<Entry>, n: nat, p: Progress, s: Tables, t: Tables)
    requires n <= |entries|
  {
    && Run(k, EMPTY, entries[..n]) == Some(s)
    && ReplayRun(k, execution, entries[..n]) == Some(p)
    && Run(k, EMPTY, p.replayed) == Some(t)
    && Simulates(k, execution, p.mapped, s, t)
    && Holds(s.graph.byId, entries[..n])
    && Holds(t.graph.byId, p.replayed)
    && AllCorrespond(p.mapped, entries[..n], p.replayed)
  }

  predicate Corresponds(m: Renaming, e: Entry, f: Entry) {
    e.id in m && m[e.id] == f.id && EntryRenamed(m, e, f)
  }

  /** Position by position, `b` is `a` renamed. */
  predicate AllCorrespond(m: Renaming, a: seq<Entry>, b: seq<Entry>) {
    |b| == |a| && forall i :: 0 <= i < |a| ==> Corresponds(m, a[i], b[i])
  }

  lemma AllCorrespondGrows(m: Renaming, a: seq<Entry>, b: seq<Entry>, e: Entry, f: Entry)
    requires AllCorrespond(m, a, b) && e.id !in m && EntryRenamed(m[e.id := f.id], e, f)
    ensures AllCorrespond(m[e.id := f.id], a + [e], b + [f])
  {
    hide EntryRenamed;
    var m1 := m[e.id := f.id];
    forall i | 0 <= i < |a| + 1 ensures Corresponds(m1, (a + [e])[i], (b + [f])[i]) {
      if i < |a| { CorrespondsStable(m, a[i], b[i], e.id, f.id); }
    }
  }

  lemma CorrespondsStable(m: Renaming, e: Entry, f: Entry, x: Id, y: Id)
    requires Corresponds(m, e, f) && x !in m
    ensures Corresponds(m[x := y], e, f)
  {
    EntryRenamedStable(m, e, f, x, y);
  }

  lemma StartTogether(k: Kernel, execution: string, entries: seq<Entry>)
    ensures Together(k, execution, entries, 0, START, EMPTY, EMPTY)
  {
    assert entries[..0] == [];
  }

  lemma NoTwinOf(byId: ById, entries: seq<Entry>, n: nat)
    requires n < |entries| && Holds(byId, entries[..n]) && NoModeTwins(entries[..n + 1])
    ensures forall x :: x in byId ==> !ModeTwins(byId[x], entries[n])
  {
    forall x | x in byId ensures !ModeTwins(byId[x], entries[n]) {
      var i :| 0 <= i < n && entries[..n][i] == byId[x];
      assert entries[..n + 1][i] == byId[x] && entries[..n + 1][n] == entries[n];
    }
  }

  lemma NextTogether(k: Kernel, execution: string, entries: seq<Entry>, n: nat, p: Progress, s: Tables, t: Tables)
    returns (q: Progress, u: Tables, v: Tables)
    requires CollisionFree(k) && Bounded(execution)
    requires n < |entries| && Run(k, EMPTY, entries).Some? && !IsRequest(entries[n].body.facts) && NoModeTwins(entries[..n + 1])
    requires Together(k, execution, entries, n, p, s, t)
    ensures Together(k, execution, entries, n + 1, q, u, v)
    ensures Admits(k, s, entries[n]) && Relabel(k, execution, p.mapped, entries[n]).Some?
    ensures var f := Relabel(k, execution, p.mapped, entries[n]).value;
            && q == Progress(p.replayed + [f], p.mapped[entries[n].id := f.id])
            && u == Advance(s, entries[n]) && v == Advance(t, f) && Admits(k, t, f)
  {
    hide Simulates, Admits, RecordClock, RecordEvidence, Fold, Relabel, CollisionFree, ModeTwins, EntryRenamed, Holds, AllCorrespond, Run, NoModeTwins;
    var e := entries[n];
    RunLast(k, entries, n);
    ReplayRunLast(k, execution, entries, n);
    SimulatedKeys(k, execution, p.mapped, s, t, e);
    NoTwinOf(s.graph.byId, entries, n);
    StepKept(k, execution, p.mapped, s, t, e);
    var f := Relabel(k, execution, p.mapped, e).value;
    AdmittedFresh(k, t, f);
    RunAppend(k, p.replayed, f, t);
    q, u, v := Progress(p.replayed + [f], p.mapped[e.id := f.id]), Advance(s, e), Advance(t, f);
    assert entries[..n + 1] == entries[..n] + [e];
    HoldsGrows(s.graph.byId, entries[..n], e);
    HoldsGrows(t.graph.byId, p.replayed, f);
    AllCorrespondGrows(p.mapped, entries[..n], p.replayed, e, f);
  }

  lemma AdmittedFresh(k: Kernel, t: Tables, f: Entry)
    requires Admits(k, t, f)
    ensures f.id !in t.graph.byId
  {
    hide ParentTransition, EvidenceOk, ClockOk;
  }

  lemma SimulatedKeys(k: Kernel, execution: string, m: Renaming, s: Tables, t: Tables, e: Entry)
    requires Simulates(k, execution, m, s, t) && Admits(k, s, e)
    ensures m.Keys == s.graph.byId.Keys && e.id !in m && e.id !in s.graph.byId
  {
    hide ParentTransition, EvidenceOk, ClockOk, ClocksRenamed, Sound, DepthsRenamed, Named;
  }

  /** As long as neither obstacle occurs, both runs go through side by side. */
  lemma {:induction false} RunTogether(k: Kernel, execution: string, entries: seq<Entry>, n: nat)
    returns (p: Progress, s: Tables, t: Tables)
    requires CollisionFree(k) && Bounded(execution)
    requires n <= |entries| && Run(k, EMPTY, entries).Some?
    requires NoRequestFacts(entries[..n]) && NoModeTwins(entries[..n])
    ensures Together(k, execution, entries, n, p, s, t)
  {
    hide Together, Simulates, Run, CollisionFree;
    if n == 0 {
      StartTogether(k, execution, entries);
      p, s, t := START, EMPTY, EMPTY;
    } else {
      assert forall i :: 0 <= i < n - 1 ==> entries[..n - 1][i] == entries[..n][i];
      p, s, t := RunTogether(k, execution, entries, n - 1);
      assert entries[..n][n - 1] == entries[n - 1];
      p, s, t := NextTogether(k, execution, entries, n - 1, p, s, t);
    }
  }

  // ----- Settling -----

  lemma SettledTogether(k: Kernel, execution: string, m: Renaming, s: Tables, t: Tables)
    requires Simulates(k, execution, m, s, t) && Settled(s)
    ensures Settled(t)
  {
    hide Tracks, Named, DepthsRenamed, NoRequests, KeyedRenamed, PairsRenamed;
    SameSizeSubset(s.clocks.required, s.clocks.witnessed);
    PairsOfEqual(m, s.clocks.required, t.clocks.required, t.clocks.witnessed);
  }

  // ----- What a successful replay shows about its input -----

  lemma {:induction false} ReplayPrefix(k: Kernel, execution: string, entries: seq<Entry>, n: nat)
    requires n <= |entries| && ReplayRun(k, execution, entries).Some?
    ensures ReplayRun(k, execution, entries[..n]).Some?
    ensures var p, all := ReplayRun(k, execution, entries[..n]).value, ReplayRun(k, execution, entries).value;
            |p.replayed| <= |all.replayed| && p.replayed == all.replayed[..|p.replayed|]
    decreases |entries| - n
  {
    hide Fold, Relabel;
    if n == |entries| {
      assert entries[..n] == entries;
    } else {
      ReplayPrefix(k, execution, entries, n + 1);
      ReplayRunLast(k, execution, entries, n);
    }
  }

  lemma ReplayedAt(k: Kernel, execution: string, entries: seq<Entry>, n: nat)
    requires n < |entries| && ReplayRun(k, execution, entries).Some?
    ensures ReplayRun(k, execution, entries[..n]).Some?
    ensures var p := ReplayRun(k, execution, entries[..n]).value;
            && Relabel(k, execution, p.mapped, entries[n]).Some?
            && |p.replayed| < |ReplayRun(k, execution, entries).value.replayed|
            && ReplayRun(k, execution, entries).value.replayed[..|p.replayed| + 1] ==
                 p.replayed + [Relabel(k, execution, p.mapped, entries[n]).value]
  {
    hide Fold, Relabel;
    ReplayPrefix(k, execution, entries, n);
    ReplayPrefix(k, execution, entries, n + 1);
    ReplayRunLast(k, execution, entries, n);
  }

  lemma RunPrefix(k: Kernel, entries: seq<Entry>, n: nat)
    requires n <= |entries| && Run(k, EMPTY, entries).Some?
    ensures Run(k, EMPTY, entries[..n]).Some?
  {
    hide Fold;
    FoldConcat(Stepper(k), EMPTY, entries[..n], entries[n..]);
    assert entries[..n] + entries[n..] == entries;
  }

  /** A twin of an earlier commit is renamed to the very entry the earlier commit became. */
  lemma TwinCollides(k: Kernel, execution: string, m: Renaming, a: Entry, b: Entry, a': Entry, b': Entry)
    requires ModeTwins(a, b) && Injective(m)
    requires EntryRenamed(m, a, a') && EntryRenamed(m, b, b')
    requires Create(k, a'.body) == Some(a') && Create(k, b'.body) == Some(b')
    requires a'.body.execution == b'.body.execution
    ensures a'.id == b'.id
  {
    hide ValidFacts, Injective;
    assert a'.body.facts == b'.body.facts;
    MultisetMembers(a'.body.parents, b'.body.parents);
    AscendingUnique(a'.body.parents, b'.body.parents);
    assert a'.body == b'.body;
  }

  lemma RelabelRenames(k: Kernel, execution: string, m: Renaming, e: Entry)
    requires Injective(m) && StrictlyAscending(e.body.parents) && Relabel(k, execution, m, e).Some?
    ensures var f := Relabel(k, execution, m, e).value;
            EntryRenamed(m, e, f) && Create(k, f.body) == Some(f) && f.body.execution == execution
  {
    hide ValidFacts, MapFacts, StrictlyAscending, BagRenamed, Injective, SortIds, MapIds, KindOf;
    SortedNames(m, e.body.parents);
  }

  lemma NoTwinBefore(k: Kernel, execution: string, entries: seq<Entry>, n: nat)
    requires CollisionFree(k) && Bounded(execution)
    requires n < |entries| && Run(k, EMPTY, entries).Some? && ReplayRun(k, execution, entries).Some?
    requires Run(k, EMPTY, ReplayRun(k, execution, entries).value.replayed).Some?
    requires NoRequestFacts(entries[..n]) && NoModeTwins(entries[..n])
    ensures NoModeTwins(entries[..n + 1])
  {
    hide Simulates, Admits, Relabel, CollisionFree, Run, ReplayRun, Create, ModeTwins, EntryRenamed;
    var replayed := ReplayRun(k, execution, entries).value.replayed;
    var p, s, t := RunTogether(k, execution, entries, n);
    RunLast(k, entries, n);
    ReplayedAt(k, execution, entries, n);
    var f := Relabel(k, execution, p.mapped, entries[n]).value;
    assert replayed[..n + 1] == p.replayed + [f];
    assert replayed[..n] == p.replayed && replayed[n] == f by {
      assert replayed[..n + 1][n] == f && replayed[..n + 1][..n] == p.replayed;
    }
    RunLast(k, replayed, n);
    AdmittedFresh(k, t, f);
    var head := entries[..n + 1];
    forall i, j | 0 <= i < j < |head| ensures !ModeTwins(head[i], head[j]) {
      if j < n {
        assert !ModeTwins(entries[..n][i], entries[..n][j]);
      } else if ModeTwins(entries[i], entries[n]) {
        assert Corresponds(p.mapped, entries[..n][i], p.replayed[i]);
        TwinReplayed(k, execution, p.mapped, s, t, entries[i], entries[n], p.replayed[i]);
        assert false;
      }
    }
  }

  lemma TwinReplayed(k: Kernel, execution: string, m: Renaming, s: Tables, t: Tables, a: Entry, b: Entry, a': Entry)
    requires Simulates(k, execution, m, s, t) && Admits(k, s, b)
    requires ModeTwins(a, b) && EntryRenamed(m, a, a')
    requires a'.id in t.graph.byId && t.graph.byId[a'.id] == a'
    requires Relabel(k, execution, m, b).Some?
    ensures Relabel(k, execution, m, b).value.id == a'.id
  {
    hide ParentTransition, EvidenceOk, ClockOk, ClocksRenamed, Sound, DepthsRenamed, Relabel, EntryRenamed, ModeTwins, ValidFacts;
    RelabelRenames(k, execution, m, b);
    TwinCollides(k, execution, m, a, b, a', Relabel(k, execution, m, b).value);
  }

  lemma RequestsRefused(k: Kernel, execution: string, entries: seq<Entry>)
    requires ReplayRun(k, execution, entries).Some?
    ensures NoRequestFacts(entries)
  {
    forall i | 0 <= i < |entries| ensures !IsRequest(entries[i].body.facts) {
      ReplayedAt(k, execution, entries, i);
    }
  }

  lemma {:induction false} TwinsRefused(k: Kernel, execution: string, entries: seq<Entry>, n: nat)
    requires CollisionFree(k) && Bounded(execution)
    requires n <= |entries| && Run(k, EMPTY, entries).Some? && ReplayRun(k, execution, entries).Some?
    requires Run(k, EMPTY, ReplayRun(k, execution, entries).value.replayed).Some?
    requires NoRequestFacts(entries)
    ensures NoModeTwins(entries[..n])
  {
    hide CollisionFree, Run, ReplayRun, ModeTwins;
    if n > 0 {
      TwinsRefused(k, execution, entries, n - 1);
      NoTwinBefore(k, execution, entries, n - 1);
    }
  }

  /** Exactly the ledgers without request facts and without mode twins are replayed. */
  lemma ReplayAccepted(k: Kernel, entries: seq<Entry>, execution: string)
    requires CollisionFree(k) && Accepted(k, entries)
    ensures ReplayRecorded(k, entries, execution).Some? <==>
              Bounded(execution) && NoRequestFacts(entries) && NoModeTwins(entries)
  {
    hide CollisionFree, Run, ReplayRun, ModeTwins, NoModeTwins, NoRequestFacts, Simulates, Settled;
    assert entries[..|entries|] == entries;
    if ReplayRecorded(k, entries, execution).Some? {
      RequestsRefused(k, execution, entries);
      TwinsRefused(k, execution, entries, |entries|);
    }
    if Bounded(execution) && NoRequestFacts(entries) && NoModeTwins(entries) {
      var p, s, t := RunTogether(k, execution, entries, |entries|);
      SettledTogether(k, execution, p.mapped, s, t);
    }
  }

  function RenamingOf(k: Kernel, entries: seq<Entry>, execution: string): Renaming
    requires ReplayRun(k, execution, entries).Some?
  {
    ReplayRun(k, execution, entries).value.mapped
  }

  /** Entry by entry, the parents of the new form are exactly the renamed parents of the old one,
      and the clock and the facts are carried over. */
  predicate SameNode(m: Renaming, e: Entry, f: Entry) {
    && e.id in m && m[e.id] == f.id
    && |f.body.parents| == |e.body.parents|
    && (forall p :: p in e.body.parents ==> p in m && m[p] in f.body.parents)
    && (forall q :: q in f.body.parents ==> exists p :: p in e.body.parents && p in m && m[p] == q)
    && f.body.clock == e.body.clock
    && FactsReplayed(m, e.body.facts, f.body.facts)
  }

  /** A commit is now a replayed one, a witness is about the new names of its two entries, all else is as it was. */
  predicate FactsReplayed(m: Renaming, f: Facts, g: Facts) {
    if f.ArtifactCommitted? then g == f.(mode := Replay)
    else if f.ClockRegression? then
      f.prior in m && f.regressing in m
      && g == ClockRegression(m[f.prior], m[f.regressing], f.priorWallMs, f.currentWallMs, f.monotonicOrderPreserved)
    else g == f
  }

  lemma CorrespondsNode(m: Renaming, e: Entry, f: Entry)
    requires Corresponds(m, e, f)
    ensures SameNode(m, e, f)
  {
    BagMembers(m, e.body.parents, f.body.parents);
    hide BagRenamed;
  }

  /** A replayed ledger is the original graph under new names: the renaming is one to one, every
      entry keeps its place, its clock, its facts, its parents and its causal depth. */
  lemma ReplayIsomorphic(k: Kernel, entries: seq<Entry>, execution: string)
    requires CollisionFree(k) && ReplayRecorded(k, entries, execution).Some?
    ensures var out := ReplayRecorded(k, entries, execution).value;
            var m := RenamingOf(k, entries, execution);
            && Injective(m)
            && |out| == |entries|
            && (forall i :: 0 <= i < |entries| ==> SameNode(m, entries[i], out[i]))
            && DepthsRenamed(m, Run(k, EMPTY, entries).value.graph.depths, Run(k, EMPTY, out).value.graph.depths)
  {
    hide CollisionFree, Run, ReplayRun, ModeTwins, NoModeTwins, NoRequestFacts, Settled, Corresponds, SameNode;
    ReplayAccepted(k, entries, execution);
    assert entries[..|entries|] == entries;
    var p, s, t := RunTogether(k, execution, entries, |entries|);
    SimulatedNames(k, execution, p.mapped, s, t);
    forall i | 0 <= i < |entries| ensures SameNode(p.mapped, entries[i], p.replayed[i]) {
      CorrespondsNode(p.mapped, entries[i], p.replayed[i]);
    }
  }

  lemma SimulatedNames(k: Kernel, execution: string, m: Renaming, s: Tables, t: Tables)
    requires Simulates(k, execution, m, s, t)
    ensures Injective(m) && DepthsRenamed(m, s.graph.depths, t.graph.depths)
  {
    hide ClocksRenamed, Sound, Named, NoRequests, Injective, DepthsRenamed;
  }
}
