/**
  Replaying a recorded ledger under a new execution identity.

  The execution identity is hashed into every entry, so replay renames every entry, every parent
  reference and both ends of every regression witness, and re-sorts each parent list under the new
  names. The theorems say when the renamed ledger is accepted again and that the renaming is an
  isomorphism of the causal graph.
 */
module LedgerReplay {
  import opened Base
  import opened ObservationLedger

  type Renaming = map<Id, Id>

  function MapIds(m: Renaming, ids: seq<Id>): (r: seq<Id>)
    requires forall x :: x in ids ==> x in m
    ensures |r| == |ids|
    ensures forall i :: 0 <= i < |ids| ==> r[i] == m[ids[i]]
  {
    if ids == [] then [] else [m[ids[0]]] + MapIds(m, ids[1..])
  }

  predicate FactsResolve(m: Renaming, f: Facts) {
    f.ClockRegression? ==> f.prior in m && f.regressing in m
  }

  function MapFacts(m: Renaming, f: Facts): Facts
    requires FactsResolve(m, f)
  {
    match f
    case ArtifactCommitted(_, _, _, _, _, _, _) => f.(mode := Replay)
    case ClockRegression(prior, regressing, _, _, _) => f.(prior := m[prior], regressing := m[regressing])
    case _ => f
  }

  /** One round of the replay loop: the entry's new form, or a refusal. */
  function Relabel(k: Kernel, execution: string, m: Renaming, e: Entry): Option<Entry> {
    if IsRequest(e.body.facts) || !(forall p :: p in e.body.parents ==> p in m) || !FactsResolve(m, e.body.facts) then None
    else Create(k, Body(execution, SortIds(MapIds(m, e.body.parents)), e.body.clock, MapFacts(m, e.body.facts)))
  }

  datatype Progress = Progress(replayed: seq<Entry>, mapped: Renaming)

  const START: Progress := Progress([], map[])

  function ReplayStep(k: Kernel, execution: string, p: Progress, e: Entry): Option<Progress> {
    var renamed := Relabel(k, execution, p.mapped, e);
    if renamed.None? then None
    else Some(Progress(p.replayed + [renamed.value], p.mapped[e.id := renamed.value.id]))
  }

  function Replayer(k: Kernel, execution: string): (Progress, Entry) -> Option<Progress> {
    (p, e) => ReplayStep(k, execution, p, e)
  }

  function ReplayRun(k: Kernel, execution: string, entries: seq<Entry>): Option<Progress> {
    Fold(Replayer(k, execution), START, entries)
  }

  /** Validate, rename entry by entry, and validate the result. */
  function ReplayRecorded(k: Kernel, entries: seq<Entry>, execution: string): Option<seq<Entry>> {
    if !Accepted(k, entries) || !Bounded(execution) then None
    else
      var r := ReplayRun(k, execution, entries);
      if r.Some? && Accepted(k, r.value.replayed) then Some(r.value.replayed) else None
  }

  lemma ReplayRunLast(k: Kernel, execution: string, entries: seq<Entry>, n: nat)
    requires n < |entries|
    ensures var before := ReplayRun(k, execution, entries[..n]);
            && ReplayRun(k, execution, entries[..n + 1]) ==
                 (if before.None? then None else ReplayStep(k, execution, before.value, entries[n]))
            && (ReplayRun(k, execution, entries[..n + 1]).None? ==> ReplayRun(k, execution, entries).None?)
  {
    hide Relabel, Fold;
    var step := Replayer(k, execution);
    FoldLast(step, START, entries, n);
    FoldConcat(step, START, entries[..n + 1], entries[n + 1..]);
    assert entries[..n + 1] + entries[n + 1..] == entries;
  }

  /** The replay loop, with its map of new names and its growing output. */
  method ReplayBundle(k: Kernel, entries: seq<Entry>, execution: string) returns (r: Option<seq<Entry>>)
    ensures r == ReplayRecorded(k, entries, execution)
  {
    var valid := ValidateBundle(k, entries);
    if !valid || !Bounded(execution) {
      return None;
    }
    var mapped: Renaming := map[];
    var replayed: seq<Entry> := [];
    for i := 0 to |entries|
      invariant ReplayRun(k, execution, entries[..i]) == Some(Progress(replayed, mapped))
    {
      ReplayRunLast(k, execution, entries, i);
      var entry := Relabel(k, execution, mapped, entries[i]);
      if entry.None? {
        return None;
      }
      mapped := mapped[entries[i].id := entry.value.id];
      replayed := replayed + [entry.value];
    }
    assert entries[..|entries|] == entries;
    var again := ValidateBundle(k, replayed);
    return if again then Some(replayed) else None;
  }
}
