/**
  The clock rules of a bundle, read off the entries alone: declarations come first, monotonic readings
  never fall, and each wall clock that falls behind the stamp before it on its basis has exactly one witness.
 */
module LedgerClocks {
  import opened Base
  import opened ObservationLedger
  import opened LedgerInvariants
  import opened ReplayTheorem

  predicate Declares(e: Entry, basis: Id) {
    e.body.facts.ClockBasisDeclared? && e.body.facts.clockBasis.id == basis
  }

  predicate StampedOn(e: Entry, basis: Id) {
    !e.body.facts.ClockBasisDeclared? && e.body.clock.Stamp? && e.body.clock.basis == basis
  }

  /** The declaration of a basis that is in force after a prefix: the last one. */
  function InForce(entries: seq<Entry>, basis: Id): (r: Option<Entry>)
    ensures r.Some? ==> Declares(r.value, basis) && r.value in entries
    ensures r.None? ==> forall i :: 0 <= i < |entries| ==> !Declares(entries[i], basis)
  {
    if entries == [] then None
    else if Declares(entries[|entries| - 1], basis) then Some(entries[|entries| - 1])
    else InForce(entries[..|entries| - 1], basis)
  }

  /** The last entry stamped on a basis. */
  function LastStamp(entries: seq<Entry>, basis: Id): (r: Option<Entry>)
    ensures r.Some? ==> StampedOn(r.value, basis) && r.value in entries
  {
    if entries == [] then None
    else if StampedOn(entries[|entries| - 1], basis) then Some(entries[|entries| - 1])
    else LastStamp(entries[..|entries| - 1], basis)
  }

  function DeclaredBases(entries: seq<Entry>): set<Id> {
    set i | 0 <= i < |entries| && entries[i].body.facts.ClockBasisDeclared? :: entries[i].body.facts.clockBasis.id
  }

  /** The entry at a place has a wall clock behind that of the stamp before it: which one that was. */
  function FellBehind(entries: seq<Entry>, i: nat): Option<Entry>
    requires i < |entries|
  {
    var e := entries[i];
    if e.body.facts.ClockRegression? || e.body.facts.ClockBasisDeclared? || e.body.clock.Unstamped? then None
    else
      var before := LastStamp(entries[..i], e.body.clock.basis);
      if before.Some? && e.body.clock.wallMs < before.value.body.clock.wallMs then before else None
  }

  predicate Owes(entries: seq<Entry>, prior: Id, regressing: Id) {
    exists i :: 0 <= i < |entries| && entries[i].id == regressing && FellBehind(entries, i).Some? && FellBehind(entries, i).value.id == prior
  }

  predicate Attests(e: Entry, prior: Id, regressing: Id) {
    e.body.facts.ClockRegression? && e.body.facts.prior == prior && e.body.facts.regressing == regressing
  }

  predicate Attested(entries: seq<Entry>, prior: Id, regressing: Id) {
    exists i :: 0 <= i < |entries| && Attests(entries[i], prior, regressing)
  }

  // ----- The rules -----

  predicate DeclarationAllowed(before: seq<Entry>, e: Entry) {
    e.body.clock.Unstamped? && e.body.parents == [] && |DeclaredBases(before + [e])| <= MAX_CLOCK_BASES
  }

  /** The parents that are declarations are these. */
  predicate DeclaredParents(before: seq<Entry>, e: Entry, declarations: seq<Entry>) {
    forall i :: 0 <= i < |before| && before[i].body.facts.ClockBasisDeclared? ==>
      (before[i].id in e.body.parents <==> before[i] in declarations)
  }

  predicate MonotonicAllowed(before: seq<Entry>, e: Entry)
    requires e.body.clock.Stamp?
  {
    e.body.clock.monotonicUs.Some? ==>
      forall i :: 0 <= i < |before| && StampedOn(before[i], e.body.clock.basis) && before[i].body.clock.monotonicUs.Some? ==>
        before[i].body.clock.monotonicUs.value <= e.body.clock.monotonicUs.value
  }

  predicate StampAllowed(before: seq<Entry>, e: Entry)
    requires e.body.clock.Stamp?
  {
    var declaration := InForce(before, e.body.clock.basis);
    && declaration.Some? && DeclaredParents(before, e, [declaration.value])
    && (e.body.clock.monotonicUs.Some? ==> declaration.value.body.facts.clockBasis.monotonic)
    && MonotonicAllowed(before, e)
    && (e.body.facts.ClockRegression? ==>
          var f := e.body.facts; Owes(before, f.prior, f.regressing) && !Attested(before, f.prior, f.regressing))
  }

  /** An entry after those before it. */
  predicate ClockRules(before: seq<Entry>, e: Entry) {
    if e.body.facts.ClockBasisDeclared? then DeclarationAllowed(before, e)
    else if e.body.clock.Unstamped? then DeclaredParents(before, e, [])
    else StampAllowed(before, e)
  }

  /** In the end every fall of a wall clock has been attested. */
  predicate AllAttested(entries: seq<Entry>) {
    forall i :: 0 <= i < |entries| && FellBehind(entries, i).Some? ==> Attested(entries, FellBehind(entries, i).value.id, entries[i].id)
  }

  // ----- What the tables hold -----

  predicate BasesMean(c: Clocks, entries: seq<Entry>) {
    && c.bases.Keys == DeclaredBases(entries)
    && forall b :: b in c.bases ==> InForce(entries, b) == Some(c.bases[b])
  }

  ghost predicate WallsMean(c: Clocks, entries: seq<Entry>) {
    forall b :: LastStamp(entries, b) == if b in c.lastWall then Some(c.lastWall[b]) else None
  }

  /** The reading on record is the greatest one, and an entry took it. */
  ghost predicate MonotonicMeans(c: Clocks, entries: seq<Entry>) {
    && (forall b :: b in c.lastMonotonic ==> exists i :: 0 <= i < |entries| && ReadsAt(entries[i], b, c.lastMonotonic[b]))
    && (forall i :: 0 <= i < |entries| ==> ReadingRecorded(c, entries[i]))
  }

  predicate ReadsAt(e: Entry, basis: Id, us: nat) {
    StampedOn(e, basis) && e.body.clock.monotonicUs == Some(us)
  }

  predicate ReadingRecorded(c: Clocks, e: Entry) {
    !e.body.facts.ClockBasisDeclared? && e.body.clock.Stamp? && e.body.clock.monotonicUs.Some? ==>
      e.body.clock.basis in c.lastMonotonic && e.body.clock.monotonicUs.value <= c.lastMonotonic[e.body.clock.basis]
  }

  ghost predicate DebtsMean(c: Clocks, entries: seq<Entry>) {
    && (forall p: Id, r: Id :: (p, r) in c.required <==> Owes(entries, p, r))
    && (forall p: Id, r: Id :: (p, r) in c.witnessed <==> Attested(entries, p, r))
    && c.witnessed <= c.required
  }

  ghost predicate ClocksMean(c: Clocks, entries: seq<Entry>) {
    BasesMean(c, entries) && WallsMean(c, entries) && MonotonicMeans(c, entries) && DebtsMean(c, entries)
  }

  // ----- The rules are what the tables decide -----

  lemma Front(entries: seq<Entry>, e: Entry)
    ensures (entries + [e])[..|entries|] == entries && (entries + [e])[|entries|] == e
  {
  }

  lemma BasesNext(entries: seq<Entry>, e: Entry)
    ensures DeclaredBases(entries + [e])
              == DeclaredBases(entries) + (if e.body.facts.ClockBasisDeclared? then {e.body.facts.clockBasis.id} else {})
  {
    var all := entries + [e];
    assert all[|entries|] == e && forall i :: 0 <= i < |entries| ==> all[i] == entries[i];
  }

  /** The declarations among the parents, as the validator filters them. */
  lemma {:induction false} BasisIdsAre(byId: ById, ids: seq<Id>, x: Id)
    ensures x in BasisIds(byId, ids) <==> x in ids && x in byId && FactsAt(byId, x).ClockBasisDeclared?
  {
  }

  ghost predicate Filed(byId: ById, entries: seq<Entry>) {
    Holds(byId, entries) && forall x :: x in byId ==> byId[x].id == x
  }

  lemma DeclaredAt(byId: ById, entries: seq<Entry>, e: Entry, x: Id) returns (i: nat)
    requires Filed(byId, entries) && x in BasisIds(byId, e.body.parents)
    ensures i < |entries| && entries[i].id == x && entries[i].body.facts.ClockBasisDeclared? && x in e.body.parents
  {
    BasisIdsAre(byId, e.body.parents, x);
    i :| 0 <= i < |entries| && entries[i] == byId[x];
  }

  lemma DeclaredIn(byId: ById, entries: seq<Entry>, e: Entry, i: nat)
    requires Filed(byId, entries) && i < |entries| && entries[i].body.facts.ClockBasisDeclared?
    ensures entries[i].id in BasisIds(byId, e.body.parents) <==> entries[i].id in e.body.parents
  {
    BasisIdsAre(byId, e.body.parents, entries[i].id);
  }

  lemma NoBasisIds(byId: ById, entries: seq<Entry>, e: Entry)
    requires Filed(byId, entries)
    ensures BasisIds(byId, e.body.parents) == [] <==> DeclaredParents(entries, e, [])
  {
    hide Filed, SelectParents;
    var ids := BasisIds(byId, e.body.parents);
    if ids == [] {
      forall i | 0 <= i < |entries| && entries[i].body.facts.ClockBasisDeclared? ensures entries[i].id !in e.body.parents {
        DeclaredIn(byId, entries, e, i);
      }
    } else {
      var i := DeclaredAt(byId, entries, e, ids[0]);
    }
  }

  lemma OneOnly(byId: ById, ids: seq<Id>, x: Id)
    requires StrictlyAscending(ids) && BasisIds(byId, ids) != [] && forall y :: y in BasisIds(byId, ids) ==> y == x
    ensures BasisIds(byId, ids) == [x]
  {
    var s := BasisIds(byId, ids);
    SelectCount(byId, ids, true, x);
    StrictlyAscendingDistinct(ids);
    DistinctMultiplicity(ids);
    AllSame(s, x);
    assert s[0] in s;
  }

  lemma {:induction false} AllSame(s: seq<Id>, x: Id)
    requires forall y :: y in s ==> y == x
    ensures multiset(s)[x] == |s|
  {
    if s != [] {
      assert s == [s[0]] + s[1..];
      assert s[0] in s && forall y :: y in s[1..] ==> y in s;
      AllSame(s[1..], x);
    }
  }

  lemma OneBasisId(byId: ById, entries: seq<Entry>, e: Entry, d: Entry)
    requires Filed(byId, entries) && d in entries && d.body.facts.ClockBasisDeclared? && StrictlyAscending(e.body.parents)
    ensures BasisIds(byId, e.body.parents) == [d.id] <==> DeclaredParents(entries, e, [d])
  {
    var ids := BasisIds(byId, e.body.parents);
    FiledOnce(byId, entries);
    hide Filed, SelectParents;
    var k :| 0 <= k < |entries| && entries[k] == d;
    if ids == [d.id] {
      forall i | 0 <= i < |entries| && entries[i].body.facts.ClockBasisDeclared?
        ensures entries[i].id in e.body.parents <==> entries[i] in [d] {
        DeclaredIn(byId, entries, e, i);
      }
    }
    if DeclaredParents(entries, e, [d]) {
      DeclaredIn(byId, entries, e, k);
      assert entries[k] in [d];
      forall y | y in ids ensures y == d.id {
        var i := DeclaredAt(byId, entries, e, y);
        assert entries[i] in [d];
      }
      OneOnly(byId, e.body.parents, d.id);
    }
  }

  lemma FiledOnce(byId: ById, entries: seq<Entry>)
    requires Filed(byId, entries)
    ensures forall i, j :: 0 <= i < |entries| && 0 <= j < |entries| && entries[i].id == entries[j].id ==> entries[i] == entries[j]
  {
  }

  lemma MonotonicDecided(c: Clocks, entries: seq<Entry>, e: Entry)
    requires MonotonicMeans(c, entries) && e.body.clock.Stamp? && e.body.clock.monotonicUs.Some?
    ensures (e.body.clock.basis in c.lastMonotonic ==> c.lastMonotonic[e.body.clock.basis] <= e.body.clock.monotonicUs.value)
            <==> MonotonicAllowed(entries, e)
  {
    var b := e.body.clock.basis;
    if b in c.lastMonotonic {
      var i :| 0 <= i < |entries| && ReadsAt(entries[i], b, c.lastMonotonic[b]);
      assert StampedOn(entries[i], b);
    }
    forall i | 0 <= i < |entries| ensures ReadingRecorded(c, entries[i]) { }
    hide MonotonicMeans;
  }

  lemma StampDecided(byId: ById, c: Clocks, entries: seq<Entry>, e: Entry)
    requires ClocksMean(c, entries) && Filed(byId, entries) && e.body.clock.Stamp? && StrictlyAscending(e.body.parents)
    ensures StampOk(byId, c, e) <==> StampAllowed(entries, e)
  {
    var b := e.body.clock.basis;
    assert b in c.bases <==> InForce(entries, b).Some? by { if b in DeclaredBases(entries) { } }
    if b in c.bases { OneBasisId(byId, entries, e, c.bases[b]); }
    if e.body.clock.monotonicUs.Some? { MonotonicDecided(c, entries, e); }
    hide Filed, DeclaredParents, MonotonicAllowed, MonotonicMeans, WallsMean, Owes, Attested, SelectParents, InForce, DeclaredBases;
  }

  lemma RulesDecided(byId: ById, c: Clocks, entries: seq<Entry>, e: Entry)
    requires ClocksMean(c, entries) && Filed(byId, entries) && StrictlyAscending(e.body.parents)
    ensures ClockOk(byId, c, e) <==> ClockRules(entries, e)
  {
    hide Filed, SelectParents, StampOk, StampAllowed, DeclaredParents, DeclaredBases, InForce, WallsMean, MonotonicMeans, DebtsMean;
    NoBasisIds(byId, entries, e);
    BasesNext(entries, e);
    if e.body.clock.Stamp? { StampDecided(byId, c, entries, e); }
  }

  // ----- The tables keep their meaning -----

  lemma InForceNext(entries: seq<Entry>, e: Entry, b: Id)
    ensures InForce(entries + [e], b) == if Declares(e, b) then Some(e) else InForce(entries, b)
    ensures LastStamp(entries + [e], b) == if StampedOn(e, b) then Some(e) else LastStamp(entries, b)
  {
    Front(entries, e);
  }

  lemma BasesKept(c: Clocks, entries: seq<Entry>, e: Entry)
    requires BasesMean(c, entries)
    ensures BasesMean(RecordClock(c, e), entries + [e])
  {
    var d := RecordClock(c, e);
    assert d.bases == if e.body.facts.ClockBasisDeclared? then c.bases[e.body.facts.clockBasis.id := e] else c.bases;
    BasesNext(entries, e);
    hide RecordClock, DeclaredBases;
    forall b | b in d.bases ensures InForce(entries + [e], b) == Some(d.bases[b]) { InForceNext(entries, e, b); }
  }

  lemma WallsKept(c: Clocks, entries: seq<Entry>, e: Entry)
    requires WallsMean(c, entries)
    ensures WallsMean(RecordClock(c, e), entries + [e])
  {
    var d := RecordClock(c, e);
    assert d.lastWall == if e.body.facts.ClockBasisDeclared? || e.body.clock.Unstamped? then c.lastWall else c.lastWall[e.body.clock.basis := e];
    hide RecordClock, LastStamp;
    forall b: Id ensures LastStamp(entries + [e], b) == if b in d.lastWall then Some(d.lastWall[b]) else None { InForceNext(entries, e, b); }
  }

  lemma MonotonicKept(byId: ById, c: Clocks, entries: seq<Entry>, e: Entry)
    requires MonotonicMeans(c, entries) && ClockOk(byId, c, e)
    ensures MonotonicMeans(RecordClock(c, e), entries + [e])
  {
    var all, d := entries + [e], RecordClock(c, e);
    Front(entries, e);
    MonotonicTable(byId, c, e);
    hide RecordClock, ClockOk;
    forall b | b in d.lastMonotonic ensures exists i :: 0 <= i < |all| && ReadsAt(all[i], b, d.lastMonotonic[b]) {
      if b in c.lastMonotonic && d.lastMonotonic[b] == c.lastMonotonic[b] {
        var i :| 0 <= i < |entries| && ReadsAt(entries[i], b, c.lastMonotonic[b]);
        assert all[i] == entries[i];
      } else {
        assert ReadsAt(all[|entries|], b, d.lastMonotonic[b]);
      }
    }
    forall i | 0 <= i < |all| ensures ReadingRecorded(d, all[i]) {
      if i < |entries| { assert all[i] == entries[i] && ReadingRecorded(c, entries[i]); }
    }
  }

  lemma MonotonicTable(byId: ById, c: Clocks, e: Entry)
    requires ClockOk(byId, c, e)
    ensures var d := RecordClock(c, e);
            && d.lastMonotonic == (if !e.body.facts.ClockBasisDeclared? && e.body.clock.Stamp? && e.body.clock.monotonicUs.Some?
                                   then c.lastMonotonic[e.body.clock.basis := e.body.clock.monotonicUs.value] else c.lastMonotonic)
            && (!e.body.facts.ClockBasisDeclared? && e.body.clock.Stamp? && e.body.clock.monotonicUs.Some? && e.body.clock.basis in c.lastMonotonic
                ==> c.lastMonotonic[e.body.clock.basis] <= e.body.clock.monotonicUs.value)
  {
    hide SelectParents, FallsBehind;
  }

  lemma FellBehindNext(entries: seq<Entry>, e: Entry, i: nat)
    requires i <= |entries|
    ensures i < |entries| ==> FellBehind(entries + [e], i) == FellBehind(entries, i) && (entries + [e])[i] == entries[i]
    ensures i == |entries| && e.body.clock.Stamp? ==>
              var before := LastStamp(entries, e.body.clock.basis);
              FellBehind(entries + [e], i) ==
                if e.body.facts.ClockRegression? || e.body.facts.ClockBasisDeclared? || before.None?
                   || e.body.clock.wallMs >= before.value.body.clock.wallMs then None else before
    ensures i == |entries| && e.body.clock.Unstamped? ==> FellBehind(entries + [e], i) == None
  {
    assert (entries + [e])[..i] == entries[..i];
    assert entries[..|entries|] == entries;
  }

  /** The pair an entry adds to what is owed. */
  function Debt(c: Clocks, e: Entry): set<(Id, Id)> {
    if e.body.facts.ClockRegression? || e.body.facts.ClockBasisDeclared? || e.body.clock.Unstamped? || !FallsBehind(c.lastWall, e) then {}
    else {(c.lastWall[e.body.clock.basis].id, e.id)}
  }

  lemma DebtTables(c: Clocks, e: Entry)
    ensures var d := RecordClock(c, e);
            && d.required == c.required + Debt(c, e)
            && d.witnessed == c.witnessed
                 + (if e.body.facts.ClockRegression? && e.body.clock.Stamp? then {(e.body.facts.prior, e.body.facts.regressing)} else {})
  {
  }

  lemma OwesNext(c: Clocks, entries: seq<Entry>, e: Entry, p: Id, r: Id)
    requires WallsMean(c, entries)
    ensures Owes(entries + [e], p, r) <==> Owes(entries, p, r) || (p, r) in Debt(c, e)
  {
    var all := entries + [e];
    FellBehindNext(entries, e, |entries|);
    hide FellBehind, LastStamp;
    if i :| 0 <= i < |all| && all[i].id == r && FellBehind(all, i).Some? && FellBehind(all, i).value.id == p {
      FellBehindNext(entries, e, i);
    }
    if i :| 0 <= i < |entries| && entries[i].id == r && FellBehind(entries, i).Some? && FellBehind(entries, i).value.id == p {
      FellBehindNext(entries, e, i);
      assert all[i].id == r && FellBehind(all, i) == FellBehind(entries, i);
    }
    if (p, r) in Debt(c, e) {
      assert all[|entries|].id == r && FellBehind(all, |entries|) == Some(c.lastWall[e.body.clock.basis]);
    }
  }

  lemma AttestedNext(entries: seq<Entry>, e: Entry, p: Id, r: Id)
    ensures Attested(entries + [e], p, r) <==> Attested(entries, p, r) || Attests(e, p, r)
  {
    var all := entries + [e];
    Front(entries, e);
    hide Attests;
    if i :| 0 <= i < |all| && Attests(all[i], p, r) { if i < |entries| { assert all[i] == entries[i]; } }
    if i :| 0 <= i < |entries| && Attests(entries[i], p, r) { assert all[i] == entries[i]; }
    if Attests(e, p, r) { assert Attests(all[|entries|], p, r); }
  }

  lemma WitnessStamped(byId: ById, g: Graph, k: Kernel, e: Entry)
    requires GraphOk(k, g, e) && e.body.facts.ClockRegression?
    ensures e.body.clock.Stamp?
  {
  }

  lemma DebtsKept(byId: ById, c: Clocks, entries: seq<Entry>, e: Entry)
    requires DebtsMean(c, entries) && WallsMean(c, entries) && ClockOk(byId, c, e)
    requires e.body.facts.ClockRegression? ==> e.body.clock.Stamp?
    ensures DebtsMean(RecordClock(c, e), entries + [e])
  {
    var d := RecordClock(c, e);
    DebtTables(c, e);
    AttestedDebt(byId, c, e);
    hide RecordClock, WallsMean, Owes, Attested, Debt, ClockOk;
    forall p: Id, r: Id
      ensures (p, r) in d.required <==> Owes(entries + [e], p, r)
      ensures (p, r) in d.witnessed <==> Attested(entries + [e], p, r) {
      OwesNext(c, entries, e, p, r);
      AttestedNext(entries, e, p, r);
    }
  }

  lemma AttestedDebt(byId: ById, c: Clocks, e: Entry)
    requires ClockOk(byId, c, e)
    ensures e.body.facts.ClockRegression? && e.body.clock.Stamp? ==> (e.body.facts.prior, e.body.facts.regressing) in c.required
  {
    hide SelectParents;
  }

  lemma ClocksNext(byId: ById, c: Clocks, entries: seq<Entry>, e: Entry)
    requires ClocksMean(c, entries) && ClockOk(byId, c, e)
    requires e.body.facts.ClockRegression? ==> e.body.clock.Stamp?
    ensures ClocksMean(RecordClock(c, e), entries + [e])
  {
    hide BasesMean, WallsMean, MonotonicMeans, DebtsMean, ClockOk, RecordClock;
    BasesKept(c, entries, e);
    WallsKept(c, entries, e);
    MonotonicKept(byId, c, entries, e);
    DebtsKept(byId, c, entries, e);
  }

  lemma SettledExactly(c: Clocks, entries: seq<Entry>)
    requires DebtsMean(c, entries)
    ensures |c.required| == |c.witnessed| && c.required <= c.witnessed <==> AllAttested(entries)
  {
    hide FellBehind, Attested;
    if c.required <= c.witnessed {
      forall i | 0 <= i < |entries| && FellBehind(entries, i).Some? ensures Attested(entries, FellBehind(entries, i).value.id, entries[i].id) {
        assert Owes(entries, FellBehind(entries, i).value.id, entries[i].id);
        assert (FellBehind(entries, i).value.id, entries[i].id) in c.witnessed;
      }
      assert c.required == c.witnessed;
    }
    if AllAttested(entries) {
      forall x | x in c.required ensures x in c.witnessed {
        assert (x.0, x.1) in c.required;
        assert Owes(entries, x.0, x.1);
      }
      assert c.required == c.witnessed;
    }
  }
}
