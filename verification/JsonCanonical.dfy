/** The canonical text of a value determines it up to key order, and nothing more. */
module JsonCanonical {
  import opened Base
  import opened Text
  import opened Json
  import opened KeyOrder
  import opened JsonRoundTrip

  // ----- The order on keys -----

  lemma {:induction false} LessAsymmetric(a: Text, b: Text)
    requires Less(a, b)
    ensures !Less(b, a) && a != b
  {
    if a != [] && a[0] == b[0] { LessAsymmetric(a[1..], b[1..]); }
  }

  lemma {:induction false} LessTransitive(a: Text, b: Text, c: Text)
    requires Less(a, b) && Less(b, c)
    ensures Less(a, c)
  {
    if a != [] && a[0] == b[0] == c[0] { LessTransitive(a[1..], b[1..], c[1..]); }
  }

  // ----- Sorting -----

  predicate DistinctKeys<T>(s: seq<Keyed<T>>) {
    forall i, j :: 0 <= i < j < |s| ==> s[i].key != s[j].key
  }

  predicate StrictKeys<T>(s: seq<Keyed<T>>) {
    forall i, j :: 0 <= i < j < |s| ==> Less(s[i].key, s[j].key)
  }

  lemma {:induction false} InsertMembers<T>(m: Keyed<T>, s: seq<Keyed<T>>)
    ensures forall x :: x in InsertKey(m, s) <==> x == m || x in s
  {
    if s != [] && Less(s[0].key, m.key) {
      InsertMembers(m, s[1..]);
      assert s == [s[0]] + s[1..];
    }
  }

  lemma {:induction false} InsertedOne<T>(m: Keyed<T>, s: seq<Keyed<T>>, j: nat)
    requires j < |InsertKey(m, s)|
    ensures InsertKey(m, s)[j] == m || exists k :: 0 <= k < |s| && s[k] == InsertKey(m, s)[j]
  {
    if s != [] && Less(s[0].key, m.key) {
      if j == 0 {
        assert s[0] == InsertKey(m, s)[0];
      } else {
        InsertedOne(m, s[1..], j - 1);
        if InsertKey(m, s)[j] != m {
          var k :| 0 <= k < |s| - 1 && s[1..][k] == InsertKey(m, s[1..])[j - 1];
          assert s[k + 1] == InsertKey(m, s)[j];
        }
      }
    } else if j > 0 {
      assert s[j - 1] == InsertKey(m, s)[j];
    }
  }

  lemma {:induction false} InsertStrict<T>(m: Keyed<T>, s: seq<Keyed<T>>)
    requires StrictKeys(s) && forall i :: 0 <= i < |s| ==> s[i].key != m.key
    ensures StrictKeys(InsertKey(m, s))
  {
    if s != [] && Less(s[0].key, m.key) {
      assert forall i :: 0 <= i < |s| - 1 ==> s[1..][i] == s[i + 1];
      InsertStrict(m, s[1..]);
      InsertMembers(m, s[1..]);
      var t := InsertKey(m, s[1..]);
      forall j | 0 <= j < |t| ensures Less(s[0].key, t[j].key) {
        InsertedOne(m, s[1..], j);
        if t[j] != m {
          var k :| 0 <= k < |s| - 1 && s[1..][k] == t[j];
          assert s[1..][k] == s[k + 1];
        }
      }
    } else if s != [] {
      LessTotal(s[0].key, m.key);
      forall j | 0 <= j < |s| ensures Less(m.key, s[j].key) {
        if j > 0 { LessTransitive(m.key, s[0].key, s[j].key); }
      }
    }
  }

  lemma {:induction false} SortMembers<T>(s: seq<Keyed<T>>)
    ensures forall x :: x in SortKeys(s) <==> x in s
  {
    if s != [] {
      SortMembers(s[1..]);
      InsertMembers(s[0], SortKeys(s[1..]));
      assert s == [s[0]] + s[1..];
    }
  }

  lemma {:induction false} SortedOne<T>(s: seq<Keyed<T>>, j: nat)
    requires j < |s|
    ensures exists k :: 0 <= k < |s| && s[k] == SortKeys(s)[j]
  {
    InsertedOne(s[0], SortKeys(s[1..]), j);
    if SortKeys(s)[j] != s[0] {
      var k :| 0 <= k < |s| - 1 && SortKeys(s[1..])[k] == SortKeys(s)[j];
      SortedOne(s[1..], k);
      var i :| 0 <= i < |s| - 1 && s[1..][i] == SortKeys(s[1..])[k];
      assert s[i + 1] == SortKeys(s)[j];
    }
  }

  lemma {:induction false} SortStrict<T>(s: seq<Keyed<T>>)
    requires DistinctKeys(s)
    ensures StrictKeys(SortKeys(s))
  {
    if s != [] {
      assert forall i :: 0 <= i < |s| - 1 ==> s[1..][i] == s[i + 1];
      SortStrict(s[1..]);
      SortMembers(s[1..]);
      var t := SortKeys(s[1..]);
      forall i | 0 <= i < |t| ensures t[i].key != s[0].key {
        SortedOne(s[1..], i);
        var k :| 0 <= k < |s| - 1 && s[1..][k] == t[i];
      }
      InsertStrict(s[0], t);
    }
  }

  /** Two sequences in strict key order with the same members are equal. */
  lemma {:induction false} StrictUnique<T>(s: seq<Keyed<T>>, t: seq<Keyed<T>>)
    requires StrictKeys(s) && StrictKeys(t) && forall x :: x in s <==> x in t
    ensures s == t
  {
    assert s != [] ==> s[0] in s && s[0] in t;
    assert t != [] ==> t[0] in t && t[0] in s;
    if s != [] {
      StrictHead(s, t);
      StrictHead(t, s);
      if s[0] != t[0] { LessAsymmetric(s[0].key, t[0].key); }
      StrictTail(s);
      StrictTail(t);
      StrictUnique(s[1..], t[1..]);
      assert s == [s[0]] + s[1..] && t == [t[0]] + t[1..];
    }
  }

  lemma StrictHead<T>(s: seq<Keyed<T>>, t: seq<Keyed<T>>)
    requires StrictKeys(s) && s != [] && t != [] && t[0] in s
    ensures t[0] == s[0] || Less(s[0].key, t[0].key)
  {
  }

  lemma StrictTail<T>(s: seq<Keyed<T>>)
    requires StrictKeys(s) && s != []
    ensures StrictKeys(s[1..]) && forall x :: x in s[1..] <==> x in s && x != s[0]
  {
    forall i, j | 0 <= i < j < |s| - 1 ensures Less(s[1..][i].key, s[1..][j].key) {
      assert Less(s[i + 1].key, s[j + 1].key);
    }
    forall x ensures x in s[1..] <==> x in s && x != s[0] {
      if x in s[1..] {
        var k :| 0 <= k < |s| - 1 && s[1..][k] == x;
        assert Less(s[0].key, s[k + 1].key);
        LessAsymmetric(s[0].key, s[k + 1].key);
      }
    }
  }

  // ----- Sorting a sorted value changes nothing, nor does it change the text -----

  lemma {:induction false} InsertHead<T>(m: Keyed<T>, s: seq<Keyed<T>>)
    requires s != [] ==> !Less(s[0].key, m.key)
    ensures InsertKey(m, s) == [m] + s
  {
  }

  predicate WeakKeys<T>(s: seq<Keyed<T>>) {
    forall i :: 0 < i < |s| ==> !Less(s[i].key, s[i - 1].key)
  }

  lemma {:induction false} InsertWeak<T>(m: Keyed<T>, s: seq<Keyed<T>>)
    requires WeakKeys(s)
    ensures WeakKeys(InsertKey(m, s))
  {
    if s != [] && Less(s[0].key, m.key) {
      forall i | 0 < i < |s| - 1 ensures !Less(s[1..][i].key, s[1..][i - 1].key) {
        assert !Less(s[i + 1].key, s[i].key);
      }
      InsertWeak(m, s[1..]);
      LessAsymmetric(s[0].key, m.key);
      var t := InsertKey(m, s[1..]);
      assert t[0] == m || (|s| > 1 && t[0] == s[1]);
    }
  }

  lemma {:induction false} SortWeak<T>(s: seq<Keyed<T>>)
    ensures WeakKeys(SortKeys(s))
  {
    if s != [] {
      SortWeak(s[1..]);
      InsertWeak(s[0], SortKeys(s[1..]));
    }
  }

  lemma {:induction false} SortOfWeak<T>(s: seq<Keyed<T>>)
    requires WeakKeys(s)
    ensures SortKeys(s) == s
  {
    if s != [] {
      forall i | 0 < i < |s| - 1 ensures !Less(s[1..][i].key, s[1..][i - 1].key) {
        assert !Less(s[i + 1].key, s[i].key);
      }
      SortOfWeak(s[1..]);
      InsertHead(s[0], s[1..]);
      assert s == [s[0]] + s[1..];
    }
  }

  /** Encoding members and inserting one of them commute. */
  lemma {:induction false} EncodeInserted(m: Keyed<Json>, s: seq<Keyed<Json>>)
    ensures EncodeMembers(InsertKey(m, s)).Some? <==> EncodeMembers([m] + s).Some?
    ensures EncodeMembers([m] + s).Some? ==>
              EncodeMembers(s).Some? && Encode(m.value).Some?
              && EncodeMembers(InsertKey(m, s)).value == InsertKey(Keyed(m.key, Encode(m.value).value), EncodeMembers(s).value)
  {
    hide Encode, KeyOk, Less;
    assert ([m] + s)[1..] == s;
    if s != [] && Less(s[0].key, m.key) {
      EncodeInserted(m, s[1..]);
      assert ([m] + s[1..])[1..] == s[1..];
      assert ([s[0]] + InsertKey(m, s[1..]))[1..] == InsertKey(m, s[1..]);
      if EncodeMembers(s).Some? {
        assert EncodeMembers(s).value[0].key == s[0].key;
        assert EncodeMembers(s).value[1..] == EncodeMembers(s[1..]).value;
      }
    } else if EncodeMembers(s).Some? && s != [] {
      assert EncodeMembers(s).value[0].key == s[0].key;
    }
  }

  lemma {:induction false} EncodeSortedKeys(s: seq<Keyed<Json>>)
    ensures EncodeMembers(SortKeys(s)).Some? <==> EncodeMembers(s).Some?
    ensures EncodeMembers(s).Some? ==> EncodeMembers(SortKeys(s)).value == SortKeys(EncodeMembers(s).value)
  {
    hide Encode, KeyOk, Less, InsertKey;
    if s != [] {
      EncodeSortedKeys(s[1..]);
      var t := SortKeys(s[1..]);
      EncodeInserted(s[0], t);
      assert ([s[0]] + t)[1..] == t;
      if EncodeMembers(s).Some? {
        assert EncodeMembers(s).value[1..] == EncodeMembers(s[1..]).value;
      }
    }
  }

  /** A value and its sorted form have the same encoding, or neither has one. */
  lemma {:induction false} EncodeSorted(v: Json)
    ensures Encode(Sorted(v)) == Encode(v)
    decreases v
  {
    match v
    case Arr(items) => EncodeSortedItems(items);
    case Obj(members) =>
      EncodeSortedMembers(members);
      var s := SortedMembers(members);
      EncodeSortedKeys(s);
      if EncodeMembers(s).Some? {
        SortWeak(EncodeMembers(s).value);
        SortOfWeak(SortKeys(EncodeMembers(s).value));
      }
      hide SortKeys, MemberTexts, Join;
    case _ => {}
  }

  lemma {:induction false} EncodeSortedItems(items: seq<Json>)
    ensures EncodeItems(SortedItems(items)) == EncodeItems(items)
    decreases items
  {
    hide Encode, Sorted;
    if items != [] {
      EncodeSorted(items[0]);
      EncodeSortedItems(items[1..]);
      assert SortedItems(items)[1..] == SortedItems(items[1..]);
    }
  }

  lemma {:induction false} EncodeSortedMembers(members: seq<Keyed<Json>>)
    ensures EncodeMembers(SortedMembers(members)) == EncodeMembers(members)
    decreases members
  {
    hide Encode, Sorted, KeyOk;
    if members != [] {
      EncodeSorted(members[0].value);
      EncodeSortedMembers(members[1..]);
      assert SortedMembers(members)[1..] == SortedMembers(members[1..]);
    }
  }

  // ----- What the text determines -----

  /** Two values have the same canonical text exactly when sorting their keys makes them equal. */
  lemma CanonicalExactly(a: Json, b: Json)
    requires Encode(a).Some? && Encode(b).Some?
    ensures Encode(a) == Encode(b) <==> Sorted(a) == Sorted(b)
  {
    hide *;
    RoundTrip(a);
    RoundTrip(b);
    EncodeSorted(a);
    EncodeSorted(b);
  }

  /** Encoding what was parsed from an encoding gives the same text. */
  lemma Idempotent(v: Json)
    requires Encode(v).Some?
    ensures Parse(Encode(v).value).Some? && Encode(Parse(Encode(v).value).value) == Encode(v)
  {
    hide *;
    RoundTrip(v);
    EncodeSorted(v);
  }

  /** Every object inside has its keys in code-unit order. */
  predicate InOrder(v: Json)
    decreases v
  {
    match v
    case Arr(items) => forall i :: 0 <= i < |items| ==> InOrder(items[i])
    case Obj(members) => KeysInOrder(members) && forall i :: 0 <= i < |members| ==> InOrder(members[i].value)
    case _ => true
  }

  lemma {:induction false} SortedInOrder(v: Json)
    ensures InOrder(Sorted(v))
    decreases v
  {
    match v
    case Arr(items) =>
      forall i | 0 <= i < |items| ensures InOrder(Sorted(v).items[i]) {
        SortedItemAt(items, i);
        SortedInOrder(items[i]);
      }
    case Obj(members) =>
      SortInOrder(SortedMembers(members));
      forall i | 0 <= i < |members| ensures InOrder(Sorted(v).members[i].value) {
        SortedOne(SortedMembers(members), i);
        var j :| 0 <= j < |members| && SortedMembers(members)[j] == Sorted(v).members[i];
        SortedMemberAt(members, j);
        SortedInOrder(members[j].value);
      }
    case _ =>
  }

  /** The members of every object stand in the canonical text in the code-unit order of their keys. */
  lemma TextInOrder(v: Json)
    requires Encode(v).Some?
    ensures Parse(Encode(v).value).Some? && InOrder(Parse(Encode(v).value).value)
  {
    RoundTrip(v);
    SortedInOrder(v);
    hide Encode, Sorted, Parse, InOrder;
  }

  /** No object has the same key twice, as in any JavaScript object. */
  predicate WellKeyed(v: Json)
    decreases v
  {
    match v
    case Arr(items) => ItemsKeyed(items)
    case Obj(members) => DistinctKeys(members) && MembersKeyed(members)
    case _ => true
  }

  predicate ItemsKeyed(items: seq<Json>)
    decreases items
  {
    items == [] || (WellKeyed(items[0]) && ItemsKeyed(items[1..]))
  }

  predicate MembersKeyed(members: seq<Keyed<Json>>)
    decreases members
  {
    members == [] || (WellKeyed(members[0].value) && MembersKeyed(members[1..]))
  }

  /** Equal but for the order of members: every member of each object has its like in the other. */
  ghost predicate Alike(a: Json, b: Json)
    decreases a
  {
    match a
    case Arr(xs) => b.Arr? && |xs| == |b.items| && forall i :: 0 <= i < |xs| ==> Alike(xs[i], b.items[i])
    case Obj(ms) =>
      && b.Obj?
      && (forall i :: 0 <= i < |ms| ==> LikeAt(ms, b.members, i))
      && (forall j :: 0 <= j < |b.members| ==> LikeOf(ms, b.members, j))
    case _ => a == b
  }

  ghost predicate LikeAt(ms: seq<Keyed<Json>>, ns: seq<Keyed<Json>>, i: nat)
    requires i < |ms|
    decreases ms
  {
    exists j :: 0 <= j < |ns| && ms[i].key == ns[j].key && Alike(ms[i].value, ns[j].value)
  }

  ghost predicate LikeOf(ms: seq<Keyed<Json>>, ns: seq<Keyed<Json>>, j: nat)
    requires j < |ns|
    decreases ms
  {
    exists i :: 0 <= i < |ms| && ms[i].key == ns[j].key && Alike(ms[i].value, ns[j].value)
  }

  lemma {:induction false} SortedMemberAt(ms: seq<Keyed<Json>>, i: nat)
    requires i < |ms|
    ensures SortedMembers(ms)[i] == Keyed(ms[i].key, Sorted(ms[i].value))
  {
    hide Sorted;
    if i > 0 { SortedMemberAt(ms[1..], i - 1); }
  }

  lemma {:induction false} SortedItemAt(xs: seq<Json>, i: nat)
    requires i < |xs|
    ensures SortedItems(xs)[i] == Sorted(xs[i])
  {
    hide Sorted;
    if i > 0 { SortedItemAt(xs[1..], i - 1); }
  }

  lemma {:induction false} KeyedItemAt(xs: seq<Json>, i: nat)
    requires ItemsKeyed(xs) && i < |xs|
    ensures WellKeyed(xs[i])
  {
    hide WellKeyed;
    if i > 0 { KeyedItemAt(xs[1..], i - 1); }
  }

  lemma {:induction false} KeyedMemberAt(ms: seq<Keyed<Json>>, i: nat)
    requires MembersKeyed(ms) && i < |ms|
    ensures WellKeyed(ms[i].value)
  {
    hide WellKeyed;
    if i > 0 { KeyedMemberAt(ms[1..], i - 1); }
  }

  lemma SortedMembersDistinct(ms: seq<Keyed<Json>>)
    requires DistinctKeys(ms)
    ensures DistinctKeys(SortedMembers(ms))
  {
    hide Sorted;
    forall i, j | 0 <= i < j < |ms| ensures SortedMembers(ms)[i].key != SortedMembers(ms)[j].key {
      SortedMemberAt(ms, i);
      SortedMemberAt(ms, j);
    }
  }

  /** Member `i` of one object has an equal among the sorted members of the other. */
  predicate Matched(ms: seq<Keyed<Json>>, ns: seq<Keyed<Json>>, i: nat)
    requires i < |ms|
  {
    exists j :: 0 <= j < |ns| && ms[i].key == ns[j].key && Sorted(ms[i].value) == Sorted(ns[j].value)
  }

  lemma MatchedMembers(ms: seq<Keyed<Json>>, ns: seq<Keyed<Json>>)
    requires forall i :: 0 <= i < |ms| ==> Matched(ms, ns, i)
    ensures forall x :: x in SortedMembers(ms) ==> x in SortedMembers(ns)
  {
    hide Sorted;
    forall x | x in SortedMembers(ms) ensures x in SortedMembers(ns) {
      var i :| 0 <= i < |ms| && SortedMembers(ms)[i] == x;
      SortedMemberAt(ms, i);
      assert Matched(ms, ns, i);
      var j :| 0 <= j < |ns| && ms[i].key == ns[j].key && Sorted(ms[i].value) == Sorted(ns[j].value);
      SortedMemberAt(ns, j);
      assert SortedMembers(ns)[j] == x;
    }
  }

  lemma MembersMatched(ms: seq<Keyed<Json>>, ns: seq<Keyed<Json>>, i: nat)
    requires i < |ms| && forall x :: x in SortedMembers(ms) ==> x in SortedMembers(ns)
    ensures Matched(ms, ns, i)
  {
    hide Sorted;
    SortedMemberAt(ms, i);
    assert SortedMembers(ms)[i] in SortedMembers(ns);
    var j :| 0 <= j < |ns| && SortedMembers(ns)[j] == SortedMembers(ms)[i];
    SortedMemberAt(ns, j);
  }

  predicate AllMatched(ms: seq<Keyed<Json>>, ns: seq<Keyed<Json>>) {
    forall i :: 0 <= i < |ms| ==> Matched(ms, ns, i)
  }

  lemma EqualMatched(ms: seq<Keyed<Json>>, ns: seq<Keyed<Json>>)
    requires SortKeys(SortedMembers(ms)) == SortKeys(SortedMembers(ns))
    ensures AllMatched(ms, ns)
  {
    hide Sorted, Matched, SortedMembers, SortKeys;
    var s, t := SortedMembers(ms), SortedMembers(ns);
    SortMembers(s);
    SortMembers(t);
    forall x | x in s ensures x in t {
      assert x in SortKeys(s);
    }
    forall i | 0 <= i < |ms| ensures Matched(ms, ns, i) { MembersMatched(ms, ns, i); }
  }

  lemma MatchedEqual(ms: seq<Keyed<Json>>, ns: seq<Keyed<Json>>)
    requires DistinctKeys(ms) && DistinctKeys(ns) && AllMatched(ms, ns) && AllMatched(ns, ms)
    ensures SortKeys(SortedMembers(ms)) == SortKeys(SortedMembers(ns))
  {
    var s, t := SortedMembers(ms), SortedMembers(ns);
    MatchedMembers(ms, ns);
    MatchedMembers(ns, ms);
    hide *;
    SortMembers(s);
    SortMembers(t);
    SortedMembersDistinct(ms);
    SortedMembersDistinct(ns);
    SortStrict(s);
    SortStrict(t);
    StrictUnique(SortKeys(s), SortKeys(t));
  }

  /** Sorting two objects gives the same members in the same order exactly when the members match. */
  lemma ObjectsEqual(ms: seq<Keyed<Json>>, ns: seq<Keyed<Json>>)
    requires DistinctKeys(ms) && DistinctKeys(ns)
    ensures SortKeys(SortedMembers(ms)) == SortKeys(SortedMembers(ns)) <==> AllMatched(ms, ns) && AllMatched(ns, ms)
  {
    hide *;
    if SortKeys(SortedMembers(ms)) == SortKeys(SortedMembers(ns)) {
      EqualMatched(ms, ns);
      EqualMatched(ns, ms);
    }
    if AllMatched(ms, ns) && AllMatched(ns, ms) { MatchedEqual(ms, ns); }
  }

  /** Sorting makes two values equal exactly when they differ in key order only. */
  lemma {:induction false} SortedExactly(a: Json, b: Json)
    requires WellKeyed(a) && WellKeyed(b)
    ensures Sorted(a) == Sorted(b) <==> Alike(a, b)
    decreases a
  {
    if a.Arr? && b.Arr? {
      SortedArrays(a.items, b.items);
    } else if a.Obj? && b.Obj? {
      SortedObjects(a.members, b.members);
    }
  }

  lemma {:induction false} SortedArrays(xs: seq<Json>, ys: seq<Json>)
    requires ItemsKeyed(xs) && ItemsKeyed(ys)
    ensures SortedItems(xs) == SortedItems(ys) <==> |xs| == |ys| && forall i :: 0 <= i < |xs| ==> Alike(xs[i], ys[i])
    decreases xs
  {
    hide Alike, Sorted, WellKeyed, ItemsKeyed, SortedItems;
    if |xs| == |ys| {
      forall i | 0 <= i < |xs| ensures Alike(xs[i], ys[i]) <==> SortedItems(xs)[i] == SortedItems(ys)[i] {
        KeyedItemAt(xs, i);
        KeyedItemAt(ys, i);
        SortedItemAt(xs, i);
        SortedItemAt(ys, i);
        SortedExactly(xs[i], ys[i]);
      }
    }
  }

  lemma {:induction false} SortedObjects(ms: seq<Keyed<Json>>, ns: seq<Keyed<Json>>)
    requires DistinctKeys(ms) && DistinctKeys(ns) && MembersKeyed(ms) && MembersKeyed(ns)
    ensures SortKeys(SortedMembers(ms)) == SortKeys(SortedMembers(ns)) <==> Alike(Obj(ms), Obj(ns))
    decreases ms
  {
    ObjectsEqual(ms, ns);
    hide Sorted, WellKeyed, MembersKeyed, SortedMembers, SortKeys, DistinctKeys;
    forall i, j | 0 <= i < |ms| && 0 <= j < |ns|
      ensures Alike(ms[i].value, ns[j].value) <==> SameSorted(ms[i].value, ns[j].value) {
      KeyedMemberAt(ms, i);
      KeyedMemberAt(ns, j);
      SortedExactly(ms[i].value, ns[j].value);
    }
    hide Alike;
    AlikeMembers(ms, ns);
  }

  predicate SameSorted(a: Json, b: Json) {
    Sorted(a) == Sorted(b)
  }

  /** On these two objects likeness of values is equality of their sorted forms. */
  ghost predicate ValuesDecided(ms: seq<Keyed<Json>>, ns: seq<Keyed<Json>>) {
    forall i, j :: 0 <= i < |ms| && 0 <= j < |ns| ==> (Alike(ms[i].value, ns[j].value) <==> SameSorted(ms[i].value, ns[j].value))
  }

  lemma LikeAtMatched(ms: seq<Keyed<Json>>, ns: seq<Keyed<Json>>, i: nat)
    requires ValuesDecided(ms, ns) && i < |ms|
    ensures LikeAt(ms, ns, i) <==> Matched(ms, ns, i)
  {
    hide Sorted, Alike;
    if LikeAt(ms, ns, i) {
      var j :| 0 <= j < |ns| && ms[i].key == ns[j].key && Alike(ms[i].value, ns[j].value);
    }
    if Matched(ms, ns, i) {
      var j :| 0 <= j < |ns| && ms[i].key == ns[j].key && Sorted(ms[i].value) == Sorted(ns[j].value);
      assert SameSorted(ms[i].value, ns[j].value);
    }
  }

  lemma LikeOfMatched(ms: seq<Keyed<Json>>, ns: seq<Keyed<Json>>, j: nat)
    requires ValuesDecided(ms, ns) && j < |ns|
    ensures LikeOf(ms, ns, j) <==> Matched(ns, ms, j)
  {
    hide Sorted, Alike;
    if LikeOf(ms, ns, j) {
      var i :| 0 <= i < |ms| && ms[i].key == ns[j].key && Alike(ms[i].value, ns[j].value);
    }
    if Matched(ns, ms, j) {
      var i :| 0 <= i < |ms| && ns[j].key == ms[i].key && Sorted(ns[j].value) == Sorted(ms[i].value);
      assert SameSorted(ms[i].value, ns[j].value);
    }
  }

  lemma AlikeMembers(ms: seq<Keyed<Json>>, ns: seq<Keyed<Json>>)
    requires ValuesDecided(ms, ns)
    ensures Alike(Obj(ms), Obj(ns)) <==> AllMatched(ms, ns) && AllMatched(ns, ms)
  {
    hide LikeAt, LikeOf, Matched, ValuesDecided;
    forall i | 0 <= i < |ms| ensures LikeAt(ms, ns, i) <==> Matched(ms, ns, i) { LikeAtMatched(ms, ns, i); }
    forall j | 0 <= j < |ns| ensures LikeOf(ms, ns, j) <==> Matched(ns, ms, j) { LikeOfMatched(ms, ns, j); }
  }

  /** The encoding is injective up to key order, and blind to key order. */
  lemma CanonicalUpToOrder(a: Json, b: Json)
    requires Encode(a).Some? && Encode(b).Some? && WellKeyed(a) && WellKeyed(b)
    ensures Encode(a) == Encode(b) <==> Alike(a, b)
  {
    hide *;
    CanonicalExactly(a, b);
    SortedExactly(a, b);
  }

  // ----- What can be encoded -----

  /** A value occurs in itself and in what it occurs in an item or member of. */
  predicate Occurs(w: Json, v: Json)
    decreases v
  {
    || w == v
    || match v
       case Arr(items) => exists i :: 0 <= i < |items| && Occurs(w, items[i])
       case Obj(members) => exists i :: 0 <= i < |members| && Occurs(w, members[i].value)
       case _ => false
  }

  /** Well formed, or spoiled only by a high surrogate at the very end. */
  predicate NearlyScalar(s: Text) {
    Scalar(s) || (s != [] && 0xD800 <= s[|s| - 1] <= 0xDBFF && Scalar(s[..|s| - 1]))
  }

  /** `__proto__` is no key. */
  predicate PlainKey(key: Text) {
    NearlyScalar(key) && key != [95, 95, 112, 114, 111, 116, 111, 95, 95]
  }

  /** What a value must be by itself: a safe integer, a string and keys JSON can carry, nothing alien. */
  predicate Writable(v: Json) {
    match v
    case Num(n) => n.Int? && -9007199254740991 <= n.value <= 9007199254740991
    case Str(s) => NearlyScalar(s)
    case Obj(members) => forall i :: 0 <= i < |members| ==> PlainKey(members[i].key)
    case Alien => false
    case _ => true
  }

  ghost predicate AllWritable(v: Json) {
    forall w :: Occurs(w, v) ==> Writable(w)
  }

  /** A value is encoded exactly if everything in it is writable. */
  lemma {:induction false} EncodesExactly(v: Json)
    ensures Encode(v).Some? <==> AllWritable(v)
    decreases v
  {
    match v
    case Arr(items) =>
      ItemsEncode(items);
      forall i | 0 <= i < |items| ensures Encode(items[i]).Some? <==> AllWritable(items[i]) { EncodesExactly(items[i]); }
      ItemsWritable(items);
    case Obj(members) =>
      MembersEncode(members);
      forall i | 0 <= i < |members| ensures Encode(members[i].value).Some? <==> AllWritable(members[i].value) { EncodesExactly(members[i].value); }
      forall i | 0 <= i < |members| ensures KeyOk(members[i].key) <==> PlainKey(members[i].key) { AcceptedExactly(members[i].key); }
      MembersWritable(members);
    case Str(s) => AcceptedExactly(s); assert Occurs(v, v);
    case _ => assert Occurs(v, v);
  }

  lemma ItemsWritable(items: seq<Json>)
    ensures AllWritable(Arr(items)) <==> forall i :: 0 <= i < |items| ==> AllWritable(items[i])
  {
    var v := Arr(items);
    if AllWritable(v) {
      forall i, w | 0 <= i < |items| && Occurs(w, items[i]) ensures Writable(w) { assert Occurs(w, v); }
    }
  }

  lemma MembersWritable(members: seq<Keyed<Json>>)
    ensures AllWritable(Obj(members)) <==>
              && (forall i :: 0 <= i < |members| ==> PlainKey(members[i].key))
              && forall i :: 0 <= i < |members| ==> AllWritable(members[i].value)
  {
    hide PlainKey;
    var v := Obj(members);
    assert Occurs(v, v);
    if AllWritable(v) {
      forall i, w | 0 <= i < |members| && Occurs(w, members[i].value) ensures Writable(w) { assert Occurs(w, v); }
    }
  }

  lemma {:induction false} ItemsEncode(items: seq<Json>)
    ensures EncodeItems(items).Some? <==> forall i :: 0 <= i < |items| ==> Encode(items[i]).Some?
  {
    hide Encode;
    if items != [] {
      ItemsEncode(items[1..]);
      assert forall i :: 0 < i < |items| ==> items[i] == items[1..][i - 1];
    }
  }

  lemma {:induction false} MembersEncode(members: seq<Keyed<Json>>)
    ensures EncodeMembers(members).Some? <==> forall i :: 0 <= i < |members| ==> KeyOk(members[i].key) && Encode(members[i].value).Some?
  {
    hide Encode, KeyOk;
    if members != [] {
      MembersEncode(members[1..]);
      assert forall i :: 0 < i < |members| ==> members[i] == members[1..][i - 1];
    }
  }
}
