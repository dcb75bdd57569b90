/** The order of keys, read off their code units, and what sorting by it does to a list. */
module KeyOrder {
  import opened Base
  import opened Text
  import opened Json

  /** Two strings agree up to a place where the first one ends, or has the smaller code unit. */
  predicate Precedes(a: seq<int>, b: seq<int>) {
    exists i :: 0 <= i <= |a| && i <= |b| && a[..i] == b[..i] && PartsAt(a, b, i)
  }

  predicate PartsAt(a: seq<int>, b: seq<int>, i: nat)
    requires i <= |a| && i <= |b|
  {
    (i == |a| && |a| < |b|) || (i < |a| && i < |b| && a[i] < b[i])
  }

  lemma HeadsAgree(a: seq<int>, b: seq<int>, i: nat)
    requires i <= |a| && i <= |b| && a[..i] == b[..i]
    ensures i > 0 ==> a[0] == b[0]
  {
    if i > 0 { assert a[..i][0] == b[..i][0]; }
  }

  lemma {:induction false} LessExactly(a: seq<int>, b: seq<int>)
    ensures Less(a, b) <==> Precedes(a, b)
  {
    if a == [] || b == [] || a[0] != b[0] {
      if Less(a, b) { assert a[..0] == b[..0] && PartsAt(a, b, 0); }
      if i :| 0 <= i <= |a| && i <= |b| && a[..i] == b[..i] && PartsAt(a, b, i) {
        HeadsAgree(a, b, i);
      }
    } else {
      LessExactly(a[1..], b[1..]);
      if i :| 0 <= i <= |a| - 1 && i <= |b| - 1 && a[1..][..i] == b[1..][..i] && PartsAt(a[1..], b[1..], i) {
        assert a[..i + 1] == [a[0]] + a[1..][..i] && b[..i + 1] == [b[0]] + b[1..][..i];
        assert PartsAt(a, b, i + 1);
      }
      if i :| 0 <= i <= |a| && i <= |b| && a[..i] == b[..i] && PartsAt(a, b, i) {
        assert i > 0;
        assert a[1..][..i - 1] == a[..i][1..] && b[1..][..i - 1] == b[..i][1..];
        assert PartsAt(a[1..], b[1..], i - 1);
      }
    }
  }

  lemma {:induction false} LessTotal(a: Text, b: Text)
    ensures a == b || Less(a, b) || Less(b, a)
  {
    if a != [] && b != [] && a[0] == b[0] {
      LessTotal(a[1..], b[1..]);
      assert a == [a[0]] + a[1..] && b == [b[0]] + b[1..];
    }
  }

  /** Neighbouring keys are equal, or in code-unit order. */
  predicate KeysInOrder<T>(s: seq<Keyed<T>>) {
    forall i :: 0 < i < |s| ==> s[i - 1].key == s[i].key || Precedes(s[i - 1].key, s[i].key)
  }

  lemma {:induction false} InsertInOrder<T>(m: Keyed<T>, s: seq<Keyed<T>>)
    requires KeysInOrder(s)
    ensures KeysInOrder(InsertKey(m, s)) && multiset(InsertKey(m, s)) == multiset(s) + multiset{m}
    ensures InsertKey(m, s)[0] == if s == [] || !Less(s[0].key, m.key) then m else s[0]
  {
    hide Precedes, Less;
    if s != [] {
      LessExactly(s[0].key, m.key);
      LessExactly(m.key, s[0].key);
      LessTotal(s[0].key, m.key);
      if Less(s[0].key, m.key) {
        forall i | 0 < i < |s| - 1 ensures s[1..][i - 1].key == s[1..][i].key || Precedes(s[1..][i - 1].key, s[1..][i].key) {
          assert s[i].key == s[i + 1].key || Precedes(s[i].key, s[i + 1].key);
        }
        InsertInOrder(m, s[1..]);
        assert s == [s[0]] + s[1..];
        if |s| > 1 { assert s[0].key == s[1].key || Precedes(s[0].key, s[1].key); }
      }
    }
  }

  /** Sorting keeps the members and puts their keys in code-unit order. */
  lemma {:induction false} SortInOrder<T>(s: seq<Keyed<T>>)
    ensures KeysInOrder(SortKeys(s)) && multiset(SortKeys(s)) == multiset(s)
  {
    if s != [] {
      SortInOrder(s[1..]);
      InsertInOrder(s[0], SortKeys(s[1..]));
      assert s == [s[0]] + s[1..];
    }
  }

  function Codes(s: string): seq<int> {
    seq(|s|, i requires 0 <= i < |s| => s[i] as int)
  }

  /** The same order on strings of characters. */
  lemma StringLessExactly(a: string, b: string)
    ensures StringLess(a, b) <==> Precedes(Codes(a), Codes(b))
  {
    LessExactly(Codes(a), Codes(b));
  }
}
