/** Small types and sequence facts shared by every module. */
module Base {

  datatype Option<+T> = None | Some(value: T)

  datatype Result<+T, +E> = Ok(value: T) | Err(error: E)

  const MAX_SAFE: int := 0x1F_FFFF_FFFF_FFFF

  /** JavaScript's `a < b` on strings, by code unit. */
  predicate Less(a: seq<int>, b: seq<int>) {
    if b == [] then false
    else if a == [] then true
    else if a[0] != b[0] then a[0] < b[0]
    else Less(a[1..], b[1..])
  }

  predicate StringLess(a: string, b: string) {
    Less(seq(|a|, i requires 0 <= i < |a| => a[i] as int), seq(|b|, i requires 0 <= i < |b| => b[i] as int))
  }

  function Max(a: int, b: int): int {
    if a < b then b else a
  }

  /** Every element is smaller than its successor, the check the source writes with `every`. */
  predicate StrictlyAscending(s: seq<nat>) {
    forall i :: 0 < i < |s| ==> s[i - 1] < s[i]
  }

  lemma AscendingPairs(s: seq<nat>, i: nat, j: nat)
    requires StrictlyAscending(s) && i < j < |s|
    ensures s[i] < s[j]
    decreases j
  {
    if i < j - 1 { AscendingPairs(s, i, j - 1); }
  }

  predicate Distinct<T(==)>(s: seq<T>) {
    forall i, j :: 0 <= i < j < |s| ==> s[i] != s[j]
  }

  predicate Ascending(s: seq<nat>) {
    forall i :: 0 < i < |s| ==> s[i - 1] <= s[i]
  }

  /** Ascending sort of identifiers, as `[...ids].sort()` on fixed-width hexadecimal digests. */
  function SortIds(s: seq<nat>): (r: seq<nat>)
    ensures multiset(r) == multiset(s)
    ensures |r| == |s|
    ensures Ascending(r)
  {
    if s == [] then []
    else
      assert s == [s[0]] + s[1..];
      InsertId(s[0], SortIds(s[1..]))
  }

  function InsertId(x: nat, s: seq<nat>): (r: seq<nat>)
    requires Ascending(s)
    ensures multiset(r) == multiset(s) + multiset{x}
    ensures |r| == |s| + 1
    ensures Ascending(r)
    ensures r[0] == if s == [] || x <= s[0] then x else s[0]
  {
    if s == [] || x <= s[0] then [x] + s
    else
      assert s == [s[0]] + s[1..];
      [s[0]] + InsertId(x, s[1..])
  }

  lemma MultisetMembers<T>(s: seq<T>, t: seq<T>)
    requires multiset(s) == multiset(t)
    ensures |s| == |t|
    ensures forall x :: x in s <==> x in t
  {
    assert |multiset(s)| == |s|;
    forall x ensures x in s <==> x in t {
      assert x in s <==> x in multiset(s);
      assert x in t <==> x in multiset(t);
    }
  }

  /** No member of a duplicate-free sequence occurs twice, and conversely. */
  lemma {:induction false} DistinctMultiplicity<T>(s: seq<T>)
    ensures Distinct(s) <==> forall x :: multiset(s)[x] <= 1
  {
    if s != [] {
      var h, t := s[0], s[1..];
      assert s == [h] + t;
      assert multiset(s) == multiset{h} + multiset(t);
      DistinctMultiplicity(t);
      if Distinct(s) {
        assert forall i, j :: 0 <= i < j < |t| ==> t[i] == s[i + 1] && t[j] == s[j + 1];
        assert h !in t;
        assert h !in multiset(t);
      } else {
        var i, j :| 0 <= i < j < |s| && s[i] == s[j];
        if i == 0 {
          assert t[j - 1] == h;
          assert h in multiset(t);
          assert multiset(s)[h] >= 2;
        } else {
          assert t[i - 1] == t[j - 1];
          assert !Distinct(t);
          var x :| multiset(t)[x] > 1;
          assert multiset(s)[x] > 1;
        }
      }
    }
  }

  lemma DistinctPermutation<T>(s: seq<T>, t: seq<T>)
    requires multiset(s) == multiset(t) && Distinct(s)
    ensures Distinct(t)
  {
    DistinctMultiplicity(s);
    DistinctMultiplicity(t);
  }

  lemma AscendingDistinct(s: seq<nat>)
    requires Ascending(s) && Distinct(s)
    ensures StrictlyAscending(s)
  {
    forall i | 0 < i < |s| ensures s[i - 1] < s[i] {
      assert s[i - 1] != s[i];
    }
  }

  lemma StrictlyAscendingDistinct(s: seq<nat>)
    requires StrictlyAscending(s)
    ensures Distinct(s)
  {
    forall i, j | 0 <= i < j < |s| ensures s[i] != s[j] {
      AscendingPairs(s, i, j);
    }
  }

  lemma AscendingTail(s: seq<nat>)
    requires StrictlyAscending(s) && s != []
    ensures StrictlyAscending(s[1..])
    ensures forall x :: x in s[1..] <==> x in s && x != s[0]
    ensures forall x :: x in s ==> s[0] <= x
  {
    forall i | 0 < i < |s| - 1 ensures s[1..][i - 1] < s[1..][i] {
      assert s[i] < s[i + 1];
    }
    forall i | 0 < i < |s| ensures s[0] < s[i] {
      AscendingPairs(s, 0, i);
    }
  }

  /** Two strictly ascending sequences with the same members are equal. */
  lemma {:induction false} AscendingUnique(s: seq<nat>, t: seq<nat>)
    requires StrictlyAscending(s) && StrictlyAscending(t)
    requires forall x :: x in s <==> x in t
    ensures s == t
  {
    assert s != [] ==> s[0] in s && s[0] in t;
    assert t != [] ==> t[0] in t && t[0] in s;
    if s != [] {
      AscendingTail(s);
      AscendingTail(t);
      AscendingUnique(s[1..], t[1..]);
      assert s == [s[0]] + s[1..] && t == [t[0]] + t[1..];
    }
  }

  /** Run a partial step over a sequence, stopping at the first refusal. */
  function Fold<S, E>(step: (S, E) -> Option<S>, s: S, es: seq<E>): Option<S>
    decreases |es|
  {
    if es == [] then Some(s)
    else
      var next := step(s, es[0]);
      if next.None? then None else Fold(step, next.value, es[1..])
  }

  lemma {:induction false} FoldConcat<S, E>(step: (S, E) -> Option<S>, s: S, a: seq<E>, b: seq<E>)
    ensures Fold(step, s, a + b) == if Fold(step, s, a).None? then None else Fold(step, Fold(step, s, a).value, b)
    decreases |a|
  {
    if a == [] {
      assert a + b == b;
    } else {
      assert (a + b)[0] == a[0] && (a + b)[1..] == a[1..] + b;
      var next := step(s, a[0]);
      if next.Some? { FoldConcat(step, next.value, a[1..], b); }
    }
  }

  lemma FoldLast<S, E>(step: (S, E) -> Option<S>, s: S, es: seq<E>, n: nat)
    requires n < |es|
    ensures Fold(step, s, es[..n + 1]) ==
              if Fold(step, s, es[..n]).None? then None else step(Fold(step, s, es[..n]).value, es[n])
  {
    assert es[..n + 1] == es[..n] + [es[n]];
    FoldConcat(step, s, es[..n], [es[n]]);
    if Fold(step, s, es[..n]).Some? {
      var next := step(Fold(step, s, es[..n]).value, [es[n]][0]);
      assert [es[n]][1..] == [];
    }
  }

  lemma FoldRefused<S, E>(step: (S, E) -> Option<S>, s: S, es: seq<E>, n: nat)
    requires n < |es|
    requires Fold(step, s, es[..n]).Some? && step(Fold(step, s, es[..n]).value, es[n]).None?
    ensures Fold(step, s, es).None?
  {
    FoldLast(step, s, es, n);
    FoldConcat(step, s, es[..n + 1], es[n + 1..]);
    assert es[..n + 1] + es[n + 1..] == es;
  }

  lemma RemoveAt<T>(s: seq<T>, j: nat)
    requires j < |s|
    ensures multiset(s) == multiset(s[..j] + s[j + 1..]) + multiset{s[j]}
  {
    assert s == s[..j] + ([s[j]] + s[j + 1..]);
  }

  lemma HeadBag<T>(s: seq<T>)
    requires s != []
    ensures multiset(s) == multiset{s[0]} + multiset(s[1..])
  {
    assert s == [s[0]] + s[1..];
  }

  lemma CancelBag<T>(x: multiset<T>, y: multiset<T>, v: T)
    requires multiset{v} + x == y + multiset{v}
    ensures x == y
  {
    forall t ensures x[t] == y[t] {
      assert (multiset{v} + x)[t] == (y + multiset{v})[t];
    }
  }

  lemma PairDistinct<T>(s: seq<T>, a: T, b: T)
    requires a != b && multiset(s) == multiset([a, b])
    ensures |s| == 2 && s[0] != s[1]
  {
    MultisetMembers(s, [a, b]);
    assert s == [s[0], s[1]];
    assert multiset([a, b])[s[0]] == 1;
  }

  lemma {:induction false} SameSizeSubset<T>(a: set<T>, b: set<T>)
    requires a <= b && |a| == |b|
    ensures a == b
  {
    if x :| x in b && x !in a {
      var rest := b - {x};
      assert a <= rest;
      assert |rest| == |b| - 1;
      SubsetSize(a, rest);
    }
  }

  lemma {:induction false} SubsetSize<T>(a: set<T>, b: set<T>)
    requires a <= b
    ensures |a| <= |b|
  {
    if a != {} {
      var x :| x in a;
      SubsetSize(a - {x}, b - {x});
    }
  }
}
