/**
  The acquisition replay: request and failure facts are dropped, everything they carried is rewired
  to a surviving ancestor, and regression witnesses are synthesised again instead of copied.

  Which surviving parent stands in for a dropped row is decided in the source by sorting: clock
  declarations come last, and among the others a comparator of their monotonic readings decides, which is
  no order where readings are missing. `pick` is that choice among equals in kind. Nothing below depends on it.
 */
module AcquisitionReplay {
  import opened Base
  import opened ObservationLedger
  import opened LedgerReplay

  predicate Omitted(f: Facts) {
    IsRequest(f) || f.FailureRecorded?
  }

  predicate OmittedAt(original: ById, id: Id) {
    id in original && Omitted(FactsAt(original, id))
  }

  function ReplayFacts(f: Facts): Facts {
    if f.ArtifactCommitted? then f.(mode := Replay) else f
  }

  /** What the loop carries: the output, the new names, the new clock declarations, and the last
      entry of each clock basis. */
  datatype Walk = Walk(replayed: seq<Entry>, remapped: Renaming, declarations: map<Id, Id>, lastWall: ById)

  const NO_WALK: Walk := Walk([], map[], map[], map[])

  type Pick = seq<Entry> -> nat

  function Lookup(m: Renaming, id: Id): Option<Id> {
    if id in m then Some(m[id]) else None
  }

  /** `replayed.find`: the first witness of exactly this pair of new names. */
  function FindWitness(replayed: seq<Entry>, prior: Option<Id>, regressing: Option<Id>): (r: Option<Id>)
  {
    if replayed == [] then None
    else
      var f := replayed[0].body.facts;
      if f.ClockRegression? && Some(f.regressing) == regressing && Some(f.prior) == prior then Some(replayed[0].id)
      else FindWitness(replayed[1..], prior, regressing)
  }

  function WalkWitness(original: ById, w: Walk, e: Entry): Option<Walk>
    requires e.body.facts.ClockRegression?
  {
    var f := e.body.facts;
    var regressing, prior := Lookup(w.remapped, f.regressing), Lookup(w.remapped, f.prior);
    var stands :=
      if OmittedAt(original, f.regressing) || OmittedAt(original, f.prior)
      then if regressing.Some? then regressing else prior
      else FindWitness(w.replayed, prior, regressing);
    if stands.None? then None else Some(w.(remapped := w.remapped[e.id := stands.value]))
  }

  /** The parents' new forms, as far as there are any. */
  function Survivors(w: Walk, ids: seq<Id>): seq<Entry> {
    if ids == [] then []
    else
      var rest := Survivors(w, ids[1..]);
      var replayed := Index(w.replayed);
      if ids[0] in w.remapped && w.remapped[ids[0]] in replayed then [replayed[w.remapped[ids[0]]]] + rest else rest
  }

  /** Those that are no clock declarations. */
  function Mainline(es: seq<Entry>): seq<Entry> {
    if es == [] then [] else (if es[0].body.facts.ClockBasisDeclared? then [] else [es[0]]) + Mainline(es[1..])
  }

  function WalkOmitted(pick: Pick, w: Walk, e: Entry): Option<Walk> {
    var survivors := Survivors(w, e.body.parents);
    if survivors == [] then None
    else
      var first := if Mainline(survivors) == [] then survivors else Mainline(survivors);
      Some(w.(remapped := w.remapped[e.id := first[pick(first) % |first|].id]))
  }

  /** The new parents: a live commit loses its request, every other parent must have a new name,
      and a name reached twice is kept once. */
  function Rewire(original: ById, w: Walk, e: Entry, ids: seq<Id>, parents: seq<Id>): Option<seq<Id>>
    decreases |ids|
  {
    if ids == [] then Some(parents)
    else if e.body.facts.ArtifactCommitted? && e.body.facts.mode == Live && ids[0] in original && FactsAt(original, ids[0]).RequestSucceeded? then
      Rewire(original, w, e, ids[1..], parents)
    else if ids[0] !in w.remapped then None
    else
      var name := w.remapped[ids[0]];
      Rewire(original, w, e, ids[1..], if name in parents then parents else parents + [name])
  }

  function WitnessBody(execution: string, basis: Id, prior: Entry, entry: Entry): Body
    requires prior.body.clock.Stamp? && entry.body.clock.Stamp?
  {
    var p, c := prior.body.clock, entry.body.clock;
    Body(
      execution, SortIds([basis, prior.id, entry.id]), c,
      ClockRegression(
        prior.id, entry.id, p.wallMs, c.wallMs,
        p.monotonicUs.Some? && c.monotonicUs.Some? && p.monotonicUs.value < c.monotonicUs.value))
  }

  /** After an entry is emitted: note a clock declaration, or the last entry on its basis, emitting
      the witness at once when the wall clock fell. */
  function WalkClock(k: Kernel, execution: string, w: Walk, f: Entry): Option<Walk> {
    var clock := f.body.clock;
    if f.body.facts.ClockBasisDeclared? then
      Some(w.(declarations := w.declarations[f.body.facts.clockBasis.id := f.id]))
    else if clock.Unstamped? then Some(w)
    else if FallsBehind(w.lastWall, f) then
      if clock.basis !in w.declarations then None
      else
        var attested := Create(k, WitnessBody(execution, w.declarations[clock.basis], w.lastWall[clock.basis], f));
        if attested.None? then None
        else Some(w.(replayed := w.replayed + [attested.value], lastWall := w.lastWall[clock.basis := attested.value]))
    else Some(w.(lastWall := w.lastWall[clock.basis := f]))
  }

  function WalkEmit(k: Kernel, execution: string, original: ById, w: Walk, e: Entry): Option<Walk> {
    var parents := Rewire(original, w, e, e.body.parents, []);
    if parents.None? then None
    else
      var f := Create(k, Body(execution, SortIds(parents.value), e.body.clock, ReplayFacts(e.body.facts)));
      if f.None? then None
      else WalkClock(k, execution, w.(replayed := w.replayed + [f.value], remapped := w.remapped[e.id := f.value.id]), f.value)
  }

  function WalkStep(k: Kernel, pick: Pick, execution: string, original: ById, w: Walk, e: Entry): Option<Walk> {
    if e.body.facts.ClockRegression? then WalkWitness(original, w, e)
    else if Omitted(e.body.facts) then WalkOmitted(pick, w, e)
    else WalkEmit(k, execution, original, w, e)
  }

  function Walker(k: Kernel, pick: Pick, execution: string, original: ById): (Walk, Entry) -> Option<Walk> {
    (w, e) => WalkStep(k, pick, execution, original, w, e)
  }

  function WalkRun(k: Kernel, pick: Pick, execution: string, original: ById, entries: seq<Entry>): Option<Walk> {
    Fold(Walker(k, pick, execution, original), NO_WALK, entries)
  }

  function ReplayAcquisition(k: Kernel, pick: Pick, entries: seq<Entry>, execution: string): Option<seq<Entry>> {
    if !Accepted(k, entries) then None
    else
      var w := WalkRun(k, pick, execution, Index(entries), entries);
      if w.Some? && Accepted(k, w.value.replayed) then Some(w.value.replayed) else None
  }

  const PAGE_SIZE_MAX: nat := 10000

  lemma WalkRunLast(k: Kernel, pick: Pick, execution: string, original: ById, entries: seq<Entry>, n: nat)
    requires n < |entries|
    ensures var before := WalkRun(k, pick, execution, original, entries[..n]);
            && WalkRun(k, pick, execution, original, entries[..n + 1]) ==
                 (if before.None? then None else WalkStep(k, pick, execution, original, before.value, entries[n]))
            && (WalkRun(k, pick, execution, original, entries[..n + 1]).None? ==> WalkRun(k, pick, execution, original, entries).None?)
  {
    hide Fold, WalkStep;
    var step := Walker(k, pick, execution, original);
    FoldLast(step, NO_WALK, entries, n);
    FoldConcat(step, NO_WALK, entries[..n + 1], entries[n + 1..]);
    assert entries[..n + 1] + entries[n + 1..] == entries;
  }

  /** The inner loop: the entries from `start` up to `end`. */
  method WalkPage(
    k: Kernel, pick: Pick, execution: string, original: ById, entries: seq<Entry>, start: nat, end: nat, w: Walk)
    returns (r: Option<Walk>)
    requires start <= end <= |entries|
    requires WalkRun(k, pick, execution, original, entries[..start]) == Some(w)
    ensures r == WalkRun(k, pick, execution, original, entries[..end])
    ensures r.None? ==> WalkRun(k, pick, execution, original, entries).None?
  {
    hide WalkStep, WalkRun;
    var page, current := entries[start..end], w;
    for i := 0 to |page|
      invariant WalkRun(k, pick, execution, original, entries[..start + i]) == Some(current)
    {
      WalkRunLast(k, pick, execution, original, entries, start + i);
      var next := WalkStep(k, pick, execution, original, current, page[i]);
      if next.None? {
        WalkRunLast(k, pick, execution, original, entries[..end], start + i);
        assert entries[..end][..start + i] == entries[..start + i];
        assert entries[..end][..start + i + 1] == entries[..start + i + 1];
        return None;
      }
      current := next.value;
    }
    r := Some(current);
  }

  /** The two nested loops over pages and entries. The result names no page size: however the
      ledger is cut into pages, the same replay comes out. */
  method ReplayByPages(k: Kernel, pick: Pick, entries: seq<Entry>, execution: string, pageSize: int) returns (r: Option<seq<Entry>>)
    ensures r == if 1 <= pageSize <= PAGE_SIZE_MAX then ReplayAcquisition(k, pick, entries, execution) else None
  {
    hide WalkStep, WalkRun, Accepted, Index;
    if !(1 <= pageSize <= PAGE_SIZE_MAX) {
      return None;
    }
    var valid := ValidateBundle(k, entries);
    if !valid {
      return None;
    }
    var original, w, offset := Index(entries), NO_WALK, 0;
    WalkNothing(k, pick, execution, original);
    assert entries[..0] == [];
    while offset < |entries|
      invariant 0 <= offset <= |entries|
      invariant WalkRun(k, pick, execution, original, entries[..offset]) == Some(w)
    {
      var end := if offset + pageSize < |entries| then offset + pageSize else |entries|;
      var next := WalkPage(k, pick, execution, original, entries, offset, end, w);
      if next.None? {
        return None;
      }
      w, offset := next.value, end;
    }
    assert entries[..|entries|] == entries;
    var again := ValidateBundle(k, w.replayed);
    return if again then Some(w.replayed) else None;
  }

  lemma WalkNothing(k: Kernel, pick: Pick, execution: string, original: ById)
    ensures WalkRun(k, pick, execution, original, []) == Some(NO_WALK)
  {
  }
}
