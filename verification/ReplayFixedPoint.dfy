/**
  Replaying a replay: the output of the acquisition replay, replayed again under the same execution
  identity, is itself. This holds for every accepted input, live ledgers included.
 */
module ReplayFixedPoint {
  import opened Base
  import opened ObservationLedger
  import opened LedgerReplay
  import opened ReplayPreservation
  import opened ReplaySimulation
  import opened ReplayTheorem
  import opened AcquisitionReplay
  import opened ReplayAgreement

  // ----- The identity replay -----

  predicate Identity(m: Renaming) {
    forall x :: x in m ==> m[x] == x
  }

  lemma {:induction false} MapIdsIdentity(m: Renaming, ids: seq<Id>)
    requires Identity(m) && forall p :: p in ids ==> p in m
    ensures MapIds(m, ids) == ids
  {
    if ids != [] { MapIdsIdentity(m, ids[1..]); }
  }

  lemma RelabelIdentity(k: Kernel, execution: string, m: Renaming, e: Entry)
    requires Identity(m) && Emitted(k, execution, e)
    requires (forall p :: p in e.body.parents ==> p in m) && FactsResolve(m, e.body.facts)
    ensures Relabel(k, execution, m, e) == Some(e)
  {
    hide ValidFacts, SortIds, MapIds;
    MapIdsIdentity(m, e.body.parents);
    AscendingSorted(e.body.parents);
    assert MapFacts(m, e.body.facts) == e.body.facts;
  }

  lemma AscendingSorted(ids: seq<nat>)
    requires StrictlyAscending(ids)
    ensures SortIds(ids) == ids
  {
    SortedUnique(SortIds(ids), ids);
  }

  lemma {:induction false} IdentityReplay(k: Kernel, execution: string, out: seq<Entry>, n: nat)
    requires n <= |out| && Accepted(k, out) && AllEmitted(k, execution, out)
    ensures ReplayRun(k, execution, out[..n]).Some? && Run(k, EMPTY, out[..n]).Some?
    ensures var p := ReplayRun(k, execution, out[..n]).value;
            && p.replayed == out[..n] && Identity(p.mapped)
            && p.mapped.Keys == Run(k, EMPTY, out[..n]).value.graph.byId.Keys
  {
    hide Admits, RecordClock, RecordEvidence, Relabel, Emitted, Settled;
    if n == 0 {
      assert out[..0] == [];
    } else {
      IdentityReplay(k, execution, out, n - 1);
      RunLast(k, out, n - 1);
      ReplayRunLast(k, execution, out, n - 1);
      var p, s, e := ReplayRun(k, execution, out[..n - 1]).value, Run(k, EMPTY, out[..n - 1]).value, out[n - 1];
      AdmittedResolves(k, s, p.mapped, e);
      RelabelIdentity(k, execution, p.mapped, e);
      assert out[..n] == out[..n - 1] + [e];
    }
  }

  lemma AdmittedResolves(k: Kernel, s: Tables, m: Renaming, e: Entry)
    requires Admits(k, s, e) && m.Keys == s.graph.byId.Keys
    ensures (forall p :: p in e.body.parents ==> p in m) && FactsResolve(m, e.body.facts)
  {
    hide EvidenceOk, ClockOk, Create, KindsAgree, SameAcquisition, ParentFactsAgree, SelectParents;
  }

  lemma NoTwinsEmitted(k: Kernel, execution: string, out: seq<Entry>)
    requires AllEmitted(k, execution, out)
    ensures NoModeTwins(out) && NothingOmitted(out)
  {
    forall i, j | 0 <= i < j < |out| ensures !ModeTwins(out[i], out[j]) {
      assert Emitted(k, execution, out[i]) && Emitted(k, execution, out[j]);
    }
    forall i | 0 <= i < |out| ensures !Omitted(out[i].body.facts) {
      assert Emitted(k, execution, out[i]);
    }
  }

  /** The acquisition replay is a fixed point on its own output. */
  lemma ReplayOfReplay(k: Kernel, pick: Pick, entries: seq<Entry>, execution: string)
    requires CollisionFree(k) && ReplayAcquisition(k, pick, entries, execution).Some?
    ensures var out := ReplayAcquisition(k, pick, entries, execution).value;
            ReplayAcquisition(k, pick, out, execution) == Some(out)
  {
    hide CollisionFree, Run, WalkRun, Index, Settled, Emitted, PromptWitnesses, NoModeTwins, NothingOmitted, ReplayRun;
    var out := ReplayAcquisition(k, pick, entries, execution).value;
    RunShape(k, pick, execution, Index(entries), entries, |entries|);
    assert entries[..|entries|] == entries;
    if out == [] {
      WalkNothing(k, pick, execution, Index(out));
    } else {
      EmittedBounded(k, execution, out[0]);
      NoTwinsEmitted(k, execution, out);
      ReplaysAgree(k, pick, out, execution);
      IdentityReplay(k, execution, out, |out|);
      assert out[..|out|] == out;
    }
  }

  lemma EmittedBounded(k: Kernel, execution: string, f: Entry)
    requires Emitted(k, execution, f)
    ensures Bounded(execution)
  {
  }
}
