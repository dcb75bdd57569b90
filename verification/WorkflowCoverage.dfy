/**
  Exact coverage of a workflow ledger: starting from the entries a journal refers to, a loop adds ledger
  parents and the regression witnesses whose two endpoints are covered, and accepts if that is the ledger.
 */
module WorkflowCoverage {
  import opened Base

  type Id = nat

  /** A ledger entry: its parents, and for a regression witness the two entries it is about. */
  datatype Row = Row(id: Id, parents: seq<Id>, witnessed: Option<(Id, Id)>)

  /** The ledger as the map from identifiers to rows that the loop looks rows up in. */
  function Index(ledger: seq<Row>): map<Id, Row> {
    if ledger == [] then map[] else Index(ledger[..|ledger| - 1])[ledger[|ledger| - 1].id := ledger[|ledger| - 1]]
  }

  predicate UniqueIds(ledger: seq<Row>) {
    forall i, j :: 0 <= i < j < |ledger| ==> ledger[i].id != ledger[j].id
  }

  /** Closed under ledger parents. */
  predicate ParentsClosed(index: map<Id, Row>, s: set<Id>) {
    forall x :: x in s && x in index ==> forall p :: p in index[x].parents ==> p in s
  }

  /** A witness both of whose entries are in the set. */
  predicate Witnesses(row: Row, s: set<Id>) {
    row.witnessed.Some? && row.witnessed.value.0 in s && row.witnessed.value.1 in s
  }

  /** Closed under the rule that covers a witness of two covered entries. */
  predicate WitnessesClosed(ledger: seq<Row>, s: set<Id>) {
    forall i :: 0 <= i < |ledger| && Witnesses(ledger[i], s) ==> ledger[i].id in s
  }

  predicate Closed(ledger: seq<Row>, s: set<Id>) {
    ParentsClosed(Index(ledger), s) && WitnessesClosed(ledger, s)
  }

  /** The smallest closed set that contains the references. */
  ghost predicate Least(ledger: seq<Row>, references: set<Id>, s: set<Id>) {
    references <= s && Closed(ledger, s) && forall t: set<Id> :: references <= t && Closed(ledger, t) ==> s <= t
  }

  function Ids(ledger: seq<Row>): set<Id> {
    set r | r in ledger :: r.id
  }

  /** Every identifier named anywhere: no covered set can leave it. */
  function Named(ledger: seq<Row>, references: set<Id>): set<Id> {
    references + Ids(ledger) + (set r, p | r in ledger && p in r.parents :: p)
  }

  lemma {:induction false} IndexRows(ledger: seq<Row>)
    ensures Index(ledger).Keys == Ids(ledger)
    ensures forall x :: x in Index(ledger) ==> Index(ledger)[x] in ledger && Index(ledger)[x].id == x
  {
    if ledger != [] {
      var head := ledger[..|ledger| - 1];
      IndexRows(head);
      assert ledger == head + [ledger[|ledger| - 1]];
    }
  }

  predicate ParentOf(index: map<Id, Row>, s: set<Id>, y: Id) {
    exists x :: x in s && x in index && y in index[x].parents
  }

  /** One sweep of the parents loop: the covered set after it, or nothing if an identifier is unknown. */
  method SweepParents(ledger: seq<Row>, references: set<Id>, covered: set<Id>, index: map<Id, Row>)
    returns (r: Option<set<Id>>)
    requires index == Index(ledger) && covered <= Named(ledger, references)
    ensures r.None? <==> !(covered <= index.Keys)
    ensures r.Some? ==> covered <= r.value <= Named(ledger, references)
    ensures r.Some? ==> forall t: set<Id> :: covered <= t && ParentsClosed(index, t) ==> r.value <= t
    ensures r.Some? ==> (r.value == covered <==> ParentsClosed(index, covered))
  {
    IndexRows(ledger);
    var todo := covered;
    var grown := covered;
    while todo != {}
      invariant todo <= covered <= grown <= Named(ledger, references)
      invariant forall x :: x in covered - todo ==> x in index && forall p :: p in index[x].parents ==> p in grown
      invariant forall t: set<Id> :: covered <= t && ParentsClosed(index, t) ==> grown <= t
      invariant forall y :: y in grown - covered ==> ParentOf(index, covered, y)
      decreases todo
    {
      var x :| x in todo;
      if x !in index { return None; }
      var row := index[x];
      var parents := set p | p in row.parents;
      forall y | y in parents ensures ParentOf(index, covered, y) {
        assert x in covered && x in index && y in index[x].parents;
      }
      grown := grown + parents;
      todo := todo - {x};
    }
    r := Some(grown);
    if ParentsClosed(index, covered) {
      forall y | y in grown ensures y in covered {
        var fromParent := ParentOf(index, covered, y);
      }
    }
  }

  /** One sweep over the ledger for witnesses of covered entries. */
  method SweepWitnesses(ledger: seq<Row>, references: set<Id>, covered: set<Id>) returns (grown: set<Id>)
    requires covered <= Named(ledger, references)
    ensures covered <= grown <= Named(ledger, references)
    ensures forall t: set<Id> :: covered <= t && WitnessesClosed(ledger, t) ==> grown <= t
    ensures grown == covered <==> WitnessesClosed(ledger, covered)
  {
    grown := covered;
    for i := 0 to |ledger|
      invariant covered <= grown <= Named(ledger, references)
      invariant forall t: set<Id> :: covered <= t && WitnessesClosed(ledger, t) ==> grown <= t
      invariant grown == covered <==> forall j :: 0 <= j < i && Witnesses(ledger[j], covered) ==> ledger[j].id in covered
    {
      var row := ledger[i];
      if Witnesses(row, grown) && row.id !in grown {
        assert row.id in Ids(ledger);
        grown := grown + {row.id};
      }
    }
  }

  /**
    The loop. It accepts exactly when the smallest set that contains the references and is closed under
    both rules is the set of the ledger's identifiers.
   */
  method ValidateExactCoverage(references: set<Id>, ledger: seq<Row>) returns (ok: bool)
    ensures ok <==> UniqueIds(ledger) && Least(ledger, references, Ids(ledger))
  {
    IndexRows(ledger);
    IdsCount(ledger);
    hide Index, ParentsClosed, WitnessesClosed, UniqueIds, Ids, Named;
    var index := Index(ledger);
    var covered := references;
    var changed := true;
    ReferencesNamed(ledger, references);
    while changed
      invariant references <= covered <= Named(ledger, references)
      invariant forall t: set<Id> :: references <= t && Closed(ledger, t) ==> covered <= t
      invariant !changed ==> Closed(ledger, covered) && covered <= index.Keys
      decreases |Named(ledger, references)| - |covered|, if changed then 1 else 0
    {
      var swept := SweepParents(ledger, references, covered, index);
      if swept.None? {
        Unknown(ledger, references, covered);
        return false;
      }
      var grown := SweepWitnesses(ledger, references, swept.value);
      if covered < grown { Grown(covered, grown, Named(ledger, references)); }
      changed := grown != covered;
      covered := grown;
    }
    ok := |covered| == |ledger| && CoversAll(ledger, covered);
    CoverageDecided(ledger, references, covered);
  }

  predicate CoversAll(ledger: seq<Row>, covered: set<Id>) {
    forall i :: 0 <= i < |ledger| ==> ledger[i].id in covered
  }

  lemma ReferencesNamed(ledger: seq<Row>, references: set<Id>)
    ensures references <= Named(ledger, references)
  {
  }

  /** At the fixed point, counting and looking up decide whether it is the whole ledger. */
  lemma CoverageDecided(ledger: seq<Row>, references: set<Id>, covered: set<Id>)
    requires references <= covered && Closed(ledger, covered) && covered <= Ids(ledger)
    requires forall t: set<Id> :: references <= t && Closed(ledger, t) ==> covered <= t
    requires |Ids(ledger)| <= |ledger| && (|Ids(ledger)| == |ledger| <==> UniqueIds(ledger))
    ensures |covered| == |ledger| && CoversAll(ledger, covered)
            <==> UniqueIds(ledger) && Least(ledger, references, Ids(ledger))
  {
    hide Closed, UniqueIds;
    if CoversAll(ledger, covered) {
      assert covered == Ids(ledger);
    }
    if Least(ledger, references, Ids(ledger)) {
      assert covered == Ids(ledger);
    }
  }

  lemma IdsLast(ledger: seq<Row>)
    requires ledger != []
    ensures var head, last := ledger[..|ledger| - 1], ledger[|ledger| - 1];
            Ids(ledger) == Ids(head) + {last.id} && (UniqueIds(ledger) <==> UniqueIds(head) && last.id !in Ids(head))
  {
    var head, last := ledger[..|ledger| - 1], ledger[|ledger| - 1];
    assert ledger == head + [last];
    if UniqueIds(ledger) {
      forall i, j | 0 <= i < j < |head| ensures head[i].id != head[j].id {
        assert head[i] == ledger[i] && head[j] == ledger[j];
      }
      forall i | 0 <= i < |head| ensures head[i].id != last.id {
        assert head[i] == ledger[i];
      }
    }
    if UniqueIds(head) && last.id !in Ids(head) {
      forall i, j | 0 <= i < j < |ledger| ensures ledger[i].id != ledger[j].id {
        assert head[i] == ledger[i] && head[i].id in Ids(head);
        if j < |head| { assert head[j] == ledger[j]; }
      }
    }
  }

  lemma {:induction false} IdsCount(ledger: seq<Row>)
    ensures |Ids(ledger)| <= |ledger| && (|Ids(ledger)| == |ledger| <==> UniqueIds(ledger))
  {
    if ledger != [] {
      IdsCount(ledger[..|ledger| - 1]);
      IdsLast(ledger);
      hide Ids, UniqueIds;
    } else {
      assert Ids(ledger) == {};
    }
  }

  lemma Grown(a: set<Id>, b: set<Id>, c: set<Id>)
    requires a < b <= c
    ensures |a| < |b| <= |c|
  {
    SubsetSize(b, c);
    SubsetSize(a, b);
    if |a| == |b| { SameSizeSubset(a, b); }
  }

  /** A covered identifier the ledger does not have rules the ledger out. */
  lemma Unknown(ledger: seq<Row>, references: set<Id>, covered: set<Id>)
    requires forall t: set<Id> :: references <= t && Closed(ledger, t) ==> covered <= t
    requires !(covered <= Index(ledger).Keys)
    ensures !Least(ledger, references, Ids(ledger))
  {
    IndexRows(ledger);
  }

  // ----- The least closed set, by derivation -----

  /** The step of a derivation: a reference, a parent of a row derived before, or a witness of two rows derived before. */
  predicate ByParent(ledger: seq<Row>, d: seq<Id>, n: nat, i: nat, j: nat)
    requires n < |d|
  {
    i < |ledger| && j < n && ledger[i].id == d[j] && d[n] in ledger[i].parents
  }

  predicate ByWitness(ledger: seq<Row>, d: seq<Id>, n: nat, i: nat, j: nat, l: nat)
    requires n < |d|
  {
    i < |ledger| && j < n && l < n && ledger[i].id == d[n] && ledger[i].witnessed == Some((d[j], d[l]))
  }

  ghost predicate Justified(ledger: seq<Row>, references: set<Id>, d: seq<Id>, n: nat)
    requires n < |d|
  {
    || d[n] in references
    || (exists i: nat, j: nat :: ByParent(ledger, d, n, i, j))
    || (exists i: nat, j: nat, l: nat :: ByWitness(ledger, d, n, i, j, l))
  }

  ghost predicate Derivation(ledger: seq<Row>, references: set<Id>, d: seq<Id>) {
    forall n: nat :: n < |d| ==> Justified(ledger, references, d, n)
  }

  ghost predicate Derives(ledger: seq<Row>, references: set<Id>, d: seq<Id>, x: Id) {
    d != [] && d[|d| - 1] == x && Derivation(ledger, references, d)
  }

  ghost predicate Derivable(ledger: seq<Row>, references: set<Id>, x: Id) {
    exists d: seq<Id> :: Derives(ledger, references, d, x)
  }

  lemma {:induction false} IndexAt(ledger: seq<Row>, i: nat)
    requires UniqueIds(ledger) && i < |ledger|
    ensures ledger[i].id in Index(ledger) && Index(ledger)[ledger[i].id] == ledger[i]
  {
    var head := ledger[..|ledger| - 1];
    if i < |head| {
      assert forall a, b :: 0 <= a < b < |head| ==> head[a].id == ledger[a].id && head[b].id == ledger[b].id;
      IndexAt(head, i);
      assert ledger[i].id != ledger[|ledger| - 1].id;
    }
  }

  /** What is derived lies in every closed set around the references. */
  lemma {:induction false} DerivedInside(ledger: seq<Row>, references: set<Id>, d: seq<Id>, n: nat, t: set<Id>)
    requires UniqueIds(ledger) && Derivation(ledger, references, d) && n < |d| && references <= t && Closed(ledger, t)
    ensures d[n] in t
    decreases n
  {
    hide Derivation, UniqueIds;
    assert Justified(ledger, references, d, n) by { StepOf(ledger, references, d, n); }
    if i: nat, j: nat :| ByParent(ledger, d, n, i, j) {
      DerivedInside(ledger, references, d, j, t);
      IndexAt(ledger, i);
    } else if i: nat, j: nat, l: nat :| ByWitness(ledger, d, n, i, j, l) {
      DerivedInside(ledger, references, d, j, t);
      DerivedInside(ledger, references, d, l, t);
      assert Witnesses(ledger[i], t);
    }
  }

  lemma StepOf(ledger: seq<Row>, references: set<Id>, d: seq<Id>, n: nat)
    requires Derivation(ledger, references, d) && n < |d|
    ensures Justified(ledger, references, d, n)
  {
    hide Justified;
  }

  lemma Shifted(ledger: seq<Row>, references: set<Id>, a: seq<Id>, d: seq<Id>, b: seq<Id>, n: nat)
    requires n < |d| && Justified(ledger, references, d, n)
    ensures Justified(ledger, references, a + d + b, |a| + n)
  {
    var all, m := a + d + b, |a| + n;
    assert all[m] == d[n];
    if i: nat, j: nat :| ByParent(ledger, d, n, i, j) {
      assert all[|a| + j] == d[j];
      assert ByParent(ledger, all, m, i, |a| + j);
    } else if i: nat, j: nat, l: nat :| ByWitness(ledger, d, n, i, j, l) {
      assert all[|a| + j] == d[j] && all[|a| + l] == d[l];
      assert ByWitness(ledger, all, m, i, |a| + j, |a| + l);
    }
  }

  lemma Joined(ledger: seq<Row>, references: set<Id>, a: seq<Id>, b: seq<Id>)
    requires Derivation(ledger, references, a) && Derivation(ledger, references, b)
    ensures Derivation(ledger, references, a + b)
  {
    hide Justified;
    var all := a + b;
    forall n: nat | n < |all| ensures Justified(ledger, references, all, n) {
      assert [] + a + b == all && a + b + [] == all;
      if n < |a| { Shifted(ledger, references, [], a, b, n); } else { Shifted(ledger, references, a, b, [], n - |a|); }
    }
  }

  lemma Extended(ledger: seq<Row>, references: set<Id>, d: seq<Id>, x: Id)
    requires Derivation(ledger, references, d) && Justified(ledger, references, d + [x], |d|)
    ensures Derives(ledger, references, d + [x], x)
  {
    hide Justified;
    var all := d + [x];
    forall n: nat | n < |all| ensures Justified(ledger, references, all, n) {
      if n < |d| {
        assert [] + d + [x] == all;
        Shifted(ledger, references, [], d, [x], n);
      }
    }
  }

  lemma ParentDerived(ledger: seq<Row>, references: set<Id>, i: nat, p: Id)
    requires i < |ledger| && Derivable(ledger, references, ledger[i].id) && p in ledger[i].parents
    ensures Derivable(ledger, references, p)
  {
    hide Derivation;
    var d: seq<Id> :| Derives(ledger, references, d, ledger[i].id);
    assert ByParent(ledger, d + [p], |d|, i, |d| - 1);
    Extended(ledger, references, d, p);
  }

  lemma WitnessDerived(ledger: seq<Row>, references: set<Id>, i: nat)
    requires i < |ledger| && ledger[i].witnessed.Some?
    requires Derivable(ledger, references, ledger[i].witnessed.value.0) && Derivable(ledger, references, ledger[i].witnessed.value.1)
    ensures Derivable(ledger, references, ledger[i].id)
  {
    hide Derivation;
    var a: seq<Id> :| Derives(ledger, references, a, ledger[i].witnessed.value.0);
    var b: seq<Id> :| Derives(ledger, references, b, ledger[i].witnessed.value.1);
    Joined(ledger, references, a, b);
    assert ByWitness(ledger, a + b + [ledger[i].id], |a + b|, i, |a| - 1, |a + b| - 1);
    Extended(ledger, references, a + b, ledger[i].id);
  }

  lemma ReferenceDerived(ledger: seq<Row>, references: set<Id>, x: Id)
    requires x in references
    ensures Derivable(ledger, references, x)
  {
    Extended(ledger, references, [], x);
    assert Derives(ledger, references, [] + [x], x);
  }

  /** The derivable identifiers among those named form a closed set. */
  lemma DerivableClosed(ledger: seq<Row>, references: set<Id>, s: set<Id>)
    requires UniqueIds(ledger) && forall x :: x in s <==> x in Named(ledger, references) && Derivable(ledger, references, x)
    ensures references <= s && Closed(ledger, s)
  {
    hide Derivable;
    IndexRows(ledger);
    forall x | x in references ensures x in s { ReferenceDerived(ledger, references, x); }
    forall x, p | x in s && x in Index(ledger) && p in Index(ledger)[x].parents ensures p in s {
      var i :| 0 <= i < |ledger| && ledger[i] == Index(ledger)[x];
      ParentDerived(ledger, references, i, p);
      assert ledger[i] in ledger && p in ledger[i].parents;
    }
    forall i: nat | i < |ledger| && Witnesses(ledger[i], s) ensures ledger[i].id in s {
      WitnessDerived(ledger, references, i);
      assert ledger[i].id in Ids(ledger);
    }
  }

  /** Coverage is exact if and only if the ledger's identifiers are those derivable from the references. */
  lemma CoverageIsDerivability(ledger: seq<Row>, references: set<Id>)
    requires UniqueIds(ledger)
    ensures Least(ledger, references, Ids(ledger)) <==> forall x :: x in Ids(ledger) <==> Derivable(ledger, references, x)
  {
    hide Derivable, Closed, UniqueIds, Ids, Named;
    var all := Ids(ledger);
    if Least(ledger, references, all) {
      var s := set x | x in Named(ledger, references) && Derivable(ledger, references, x);
      DerivableClosed(ledger, references, s);
      forall x | Derivable(ledger, references, x) ensures x in all { InsideClosed(ledger, references, x, all); }
    }
    if forall x :: x in all <==> Derivable(ledger, references, x) {
      forall x ensures x in all <==> x in Named(ledger, references) && Derivable(ledger, references, x) { IdsNamed(ledger, references, x); }
      DerivableClosed(ledger, references, all);
      forall t: set<Id> | references <= t && Closed(ledger, t) ensures all <= t {
        forall x | x in all ensures x in t { InsideClosed(ledger, references, x, t); }
      }
    }
  }

  lemma IdsNamed(ledger: seq<Row>, references: set<Id>, x: Id)
    ensures x in Ids(ledger) ==> x in Named(ledger, references)
  {
  }

  lemma InsideClosed(ledger: seq<Row>, references: set<Id>, x: Id, t: set<Id>)
    requires UniqueIds(ledger) && Derivable(ledger, references, x) && references <= t && Closed(ledger, t)
    ensures x in t
  {
    hide Derivation, Closed, UniqueIds;
    var d: seq<Id> :| Derives(ledger, references, d, x);
    DerivedInside(ledger, references, d, |d| - 1, t);
  }
}
