/**
  The iterative validator: an explicit stack of frames, with early exits at the first limit crossed.
  It accepts exactly the values the recursive encoder accepts within all limits, and what it counts
  on the way is exact.
 */
module JsonWalker {
  import opened Base
  import opened Text
  import opened Json
  import opened KeyOrder

  datatype Metrics = Metrics(nodes: nat, maxDepth: nat, canonicalBytes: nat)

  datatype Frame = Visit(value: Json, depth: nat) | Leave(value: Json)

  // ----- The size of the encoding, part by part -----

  function KeyCost(key: Text): nat {
    |Utf8(Quote(key))| + 1
  }

  function Commas(n: nat): nat {
    if n == 0 then 0 else n - 1
  }

  /** Bytes a value adds by itself, without its children. */
  function OwnCost(v: Json): nat {
    match v
    case Null => 4
    case Bool(b) => if b then 4 else 5
    case Num(n) => if n.Int? then |Utf8(Decimal(n.value))| else 0
    case Str(s) => |Utf8(Quote(s))|
    case Arr(items) => 2 + Commas(|items|)
    case Obj(members) => 2 + Commas(|members|)
    case Alien => 0
  }

  /** What a value is checked for by itself. */
  predicate OwnOk(v: Json, l: Limits) {
    match v
    case Num(n) => Safe(n)
    case Str(s) => Accepted(s) && |Utf8(s)| <= l.maxStringBytes
    case Arr(items) => |items| <= l.maxArrayLength
    case Obj(members) => |members| <= l.maxObjectKeys
    case Alien => false
    case _ => true
  }

  predicate KeyWithin(key: Text, l: Limits) {
    KeyOk(key) && |Utf8(key)| <= l.maxStringBytes
  }

  // ----- A tally of everything counted -----

  datatype Tally = Tally(nodes: nat, depth: nat, bytes: nat, ok: bool)

  const NOTHING := Tally(0, 0, 0, true)

  function Both(a: Tally, b: Tally): Tally {
    Tally(a.nodes + b.nodes, Max(a.depth, b.depth), a.bytes + b.bytes, a.ok && b.ok)
  }

  /** The tally of something that sits `d` levels deeper. */
  function Deeper(t: Tally, d: nat): Tally {
    t.(depth := if t.depth == 0 then 0 else t.depth + d)
  }

  function Count(v: Json, l: Limits): (t: Tally)
    ensures t.nodes > 0 && t.depth > 0
    decreases v
  {
    var own := Tally(1, 1, OwnCost(v), OwnOk(v, l));
    match v
    case Arr(items) => Both(own, Deeper(CountItems(items, l), 1))
    case Obj(members) => Both(own, Deeper(CountMembers(members, l), 1))
    case _ => own
  }

  function CountItems(items: seq<Json>, l: Limits): Tally
    decreases items
  {
    if items == [] then NOTHING else Both(Count(items[0], l), CountItems(items[1..], l))
  }

  function CountKey(key: Text, l: Limits): Tally {
    Tally(0, 0, KeyCost(key), KeyWithin(key, l))
  }

  function CountMembers(members: seq<Keyed<Json>>, l: Limits): Tally
    decreases members
  {
    if members == [] then NOTHING
    else Both(Both(CountKey(members[0].key, l), Count(members[0].value, l)), CountMembers(members[1..], l))
  }

  lemma BothSwap(a: Tally, b: Tally, c: Tally)
    ensures Both(a, Both(b, c)) == Both(b, Both(a, c))
    ensures Both(Both(a, b), c) == Both(a, Both(b, c))
    ensures Both(a, b) == Both(b, a)
  {
  }

  lemma {:induction false} CountInsert(m: Keyed<Json>, s: seq<Keyed<Json>>, l: Limits)
    ensures CountMembers(InsertKey(m, s), l) == CountMembers([m] + s, l)
  {
    assert ([m] + s)[1..] == s;
    if s != [] && Less(s[0].key, m.key) {
      CountInsert(m, s[1..], l);
      assert ([m] + s[1..])[1..] == s[1..];
      var rest := [s[0]] + InsertKey(m, s[1..]);
      assert rest[1..] == InsertKey(m, s[1..]);
      BothSwap(Both(CountKey(m.key, l), Count(m.value, l)), Both(CountKey(s[0].key, l), Count(s[0].value, l)), CountMembers(s[1..], l));
    }
  }

  /** Sorting the members changes no count. */
  lemma {:induction false} CountSorted(s: seq<Keyed<Json>>, l: Limits)
    ensures CountMembers(SortKeys(s), l) == CountMembers(s, l)
  {
    if s != [] {
      CountSorted(s[1..], l);
      CountInsert(s[0], SortKeys(s[1..]), l);
      assert ([s[0]] + SortKeys(s[1..]))[1..] == SortKeys(s[1..]);
    }
  }

  // ----- The tally is the recursive counts, the encoder's verdict and the part limits -----

  lemma {:induction false} CountMeans(v: Json, l: Limits)
    ensures Count(v, l).nodes == Nodes(v) && Count(v, l).depth == Depth(v)
    ensures Count(v, l).ok <==> Encode(v).Some? && PartsWithin(v, l)
    decreases v
  {
    match v
    case Arr(items) => CountItemsMeans(items, l);
    case Obj(members) => CountMembersMeans(members, l);
    case _ => {}
  }

  lemma {:induction false} CountItemsMeans(items: seq<Json>, l: Limits)
    ensures CountItems(items, l).nodes == ItemNodes(items) && CountItems(items, l).depth == ItemDepth(items)
    ensures CountItems(items, l).ok <==> EncodeItems(items).Some? && ItemsWithin(items, l)
    decreases items
  {
    hide Count, Nodes, Depth, Encode, PartsWithin;
    if items != [] {
      CountMeans(items[0], l);
      CountItemsMeans(items[1..], l);
    }
  }

  lemma {:induction false} CountMembersMeans(members: seq<Keyed<Json>>, l: Limits)
    ensures CountMembers(members, l).nodes == MemberNodes(members) && CountMembers(members, l).depth == MemberDepth(members)
    ensures CountMembers(members, l).ok <==> EncodeMembers(members).Some? && MembersWithin(members, l)
    decreases members
  {
    hide Count, Nodes, Depth, Encode, PartsWithin, KeyOk, KeyCost, Utf8;
    if members != [] {
      CountMeans(members[0].value, l);
      CountMembersMeans(members[1..], l);
    }
  }

  // ----- The tally's bytes are the encoding's bytes -----

  lemma EscapeUnitScalar(u: Unit)
    ensures Scalar(EscapeUnit(u))
  {
    var e := EscapeUnit(u);
    if |e| == 2 {
      assert !PairAt(e) && e[1..] == [e[1]] && !PairAt(e[1..]) && e[1..][1..] == [];
    } else if |e| == 6 {
      AsciiScalar(e);
    }
  }

  lemma {:induction false} AsciiScalar(s: Text)
    requires forall i :: 0 <= i < |s| ==> s[i] < 0x80
    ensures Scalar(s) && |Utf8(s)| == |s|
  {
    if s != [] { AsciiScalar(s[1..]); }
  }

  lemma {:induction false} EscapeScalar(s: Text)
    ensures Scalar(Escape(s))
  {
    hide EscapeUnit;
    if s == [] {
    } else if PairAt(s) {
      EscapeScalar(s[2..]);
      var t := [s[0], s[1]] + Escape(s[2..]);
      assert PairAt(t) && t[2..] == Escape(s[2..]);
    } else {
      EscapeUnitScalar(s[0]);
      EscapeScalar(s[1..]);
      ScalarConcat(EscapeUnit(s[0]), Escape(s[1..]));
    }
  }

  lemma QuoteScalar(s: Text)
    ensures Scalar(Quote(s))
  {
    EscapeScalar(s);
    AsciiScalar([34]);
    hide Escape;
    ScalarConcat([34], Escape(s));
    ScalarConcat([34] + Escape(s), [34]);
  }

  lemma {:induction false} DigitsAscii(n: nat)
    ensures forall i :: 0 <= i < |Digits(n)| ==> 48 <= Digits(n)[i] < 58
  {
    if n >= 10 { DigitsAscii(n / 10); }
  }

  lemma DecimalScalar(i: int)
    ensures Scalar(Decimal(i)) && |Utf8(Decimal(i))| == |Decimal(i)|
  {
    DigitsAscii(if i < 0 then -i else i);
    AsciiScalar(Decimal(i));
  }

  function PartBytes(parts: seq<Text>): nat {
    if parts == [] then 0 else |Utf8(parts[0])| + PartBytes(parts[1..])
  }

  predicate AllScalar(parts: seq<Text>) {
    parts == [] || (Scalar(parts[0]) && AllScalar(parts[1..]))
  }

  lemma {:induction false} JoinBytes(parts: seq<Text>)
    requires AllScalar(parts)
    ensures Scalar(Join(parts)) && |Utf8(Join(parts))| == PartBytes(parts) + Commas(|parts|)
  {
    hide Utf8;
    if parts == [] {
      AsciiScalar([]);
    } else if |parts| == 1 {
      assert parts[1..] == [];
    } else {
      JoinBytes(parts[1..]);
      AsciiScalar([44]);
      hide Scalar;
      ScalarConcat(parts[0], [44]);
      ScalarConcat(parts[0] + [44], Join(parts[1..]));
      Utf8Concat(parts[0], [44]);
      Utf8Concat(parts[0] + [44], Join(parts[1..]));
    }
  }

  lemma WrapBytes(open: Unit, body: Text, close: Unit)
    requires open < 0x80 && close < 0x80 && Scalar(body)
    ensures Scalar([open] + body + [close]) && |Utf8([open] + body + [close])| == 2 + |Utf8(body)|
  {
    AsciiScalar([open]);
    AsciiScalar([close]);
    hide Scalar, Utf8;
    ScalarConcat([open], body);
    ScalarConcat([open] + body, [close]);
    Utf8Concat([open], body);
    Utf8Concat([open] + body, [close]);
  }

  lemma MemberTextBytes(m: Keyed<Text>)
    requires Scalar(m.value)
    ensures Scalar(MemberText(m)) && |Utf8(MemberText(m))| == KeyCost(m.key) + |Utf8(m.value)|
  {
    QuoteScalar(m.key);
    AsciiScalar([58]);
    hide Scalar, Utf8, Quote;
    ScalarConcat(Quote(m.key), [58]);
    ScalarConcat(Quote(m.key) + [58], m.value);
    Utf8Concat(Quote(m.key), [58]);
    Utf8Concat(Quote(m.key) + [58], m.value);
  }

  predicate ValuesScalar(ms: seq<Keyed<Text>>) {
    ms == [] || (Scalar(ms[0].value) && ValuesScalar(ms[1..]))
  }

  function MemberBytes(ms: seq<Keyed<Text>>): nat {
    if ms == [] then 0 else KeyCost(ms[0].key) + |Utf8(ms[0].value)| + MemberBytes(ms[1..])
  }

  lemma {:induction false} MemberTextsBytes(ms: seq<Keyed<Text>>)
    requires ValuesScalar(ms)
    ensures AllScalar(MemberTexts(ms)) && PartBytes(MemberTexts(ms)) == MemberBytes(ms)
  {
    hide MemberText, KeyCost, Utf8, Scalar;
    if ms != [] {
      MemberTextBytes(ms[0]);
      MemberTextsBytes(ms[1..]);
      assert MemberTexts(ms)[1..] == MemberTexts(ms[1..]);
    }
  }

  lemma {:induction false} InsertedBytes(m: Keyed<Text>, s: seq<Keyed<Text>>)
    requires Scalar(m.value) && ValuesScalar(s)
    ensures ValuesScalar(InsertKey(m, s))
    ensures MemberBytes(InsertKey(m, s)) == KeyCost(m.key) + |Utf8(m.value)| + MemberBytes(s)
  {
    hide KeyCost, Utf8, Scalar;
    assert ([m] + s)[1..] == s;
    if s != [] && Less(s[0].key, m.key) {
      InsertedBytes(m, s[1..]);
      assert ([s[0]] + InsertKey(m, s[1..]))[1..] == InsertKey(m, s[1..]);
    }
  }

  lemma {:induction false} SortedBytes(s: seq<Keyed<Text>>)
    requires ValuesScalar(s)
    ensures ValuesScalar(SortKeys(s)) && MemberBytes(SortKeys(s)) == MemberBytes(s)
  {
    hide KeyCost, Utf8, Scalar;
    if s != [] {
      SortedBytes(s[1..]);
      InsertedBytes(s[0], SortKeys(s[1..]));
    }
  }

  /** The running byte count is the UTF-8 length of the encoding. */
  lemma {:induction false} BytesExact(v: Json, l: Limits)
    requires Encode(v).Some?
    ensures Scalar(Encode(v).value) && |Utf8(Encode(v).value)| == Count(v, l).bytes
    decreases v
  {
    match v
    case Null => AsciiScalar(Encode(v).value);
    case Bool(b) => AsciiScalar(Encode(v).value);
    case Num(n) => DecimalScalar(n.value);
    case Str(s) => QuoteScalar(s);
    case Arr(items) =>
      ItemBytesExact(items, l);
      hide Scalar, Utf8;
      JoinBytes(EncodeItems(items).value);
      WrapBytes(91, Join(EncodeItems(items).value), 93);
    case Obj(members) =>
      MemberBytesExact(members, l);
      hide Scalar, Utf8, KeyCost;
      var parts := EncodeMembers(members).value;
      SortedBytes(parts);
      MemberTextsBytes(SortKeys(parts));
      JoinBytes(MemberTexts(SortKeys(parts)));
      WrapBytes(123, Join(MemberTexts(SortKeys(parts))), 125);
  }

  lemma {:induction false} ItemBytesExact(items: seq<Json>, l: Limits)
    requires EncodeItems(items).Some?
    ensures AllScalar(EncodeItems(items).value) && PartBytes(EncodeItems(items).value) == CountItems(items, l).bytes
    decreases items
  {
    if items != [] {
      BytesExact(items[0], l);
      ItemBytesExact(items[1..], l);
      hide Scalar, Utf8, Encode;
      assert EncodeItems(items).value[1..] == EncodeItems(items[1..]).value;
    }
  }

  lemma {:induction false} MemberBytesExact(members: seq<Keyed<Json>>, l: Limits)
    requires EncodeMembers(members).Some?
    ensures ValuesScalar(EncodeMembers(members).value) && MemberBytes(EncodeMembers(members).value) == CountMembers(members, l).bytes
    decreases members
  {
    if members != [] {
      BytesExact(members[0].value, l);
      MemberBytesExact(members[1..], l);
      hide Scalar, Utf8, Encode, KeyCost, KeyWithin;
      assert EncodeMembers(members).value[1..] == EncodeMembers(members[1..]).value;
    }
  }

  /** The limits hold exactly when the tally says so. */
  lemma TallyDecides(v: Json, l: Limits)
    ensures Within(v, l) <==>
              var t := Count(v, l);
              t.ok && t.nodes <= l.maxNodes && t.depth <= l.maxDepth && t.bytes <= l.maxCanonicalBytes
    ensures Encode(v).Some? ==> |Utf8(Encode(v).value)| == Count(v, l).bytes
  {
    CountMeans(v, l);
    if Encode(v).Some? { BytesExact(v, l); }
  }

  // ----- The stack -----

  function FrameTally(f: Frame, l: Limits): Tally {
    match f
    case Visit(v, d) => if d == 0 then NOTHING else Deeper(Count(v, l), d - 1)
    case Leave(_) => NOTHING
  }

  /** What is still to be counted; the top of the stack is its last element. */
  function StackTally(frames: seq<Frame>, l: Limits): Tally {
    if frames == [] then NOTHING
    else Both(StackTally(frames[..|frames| - 1], l), FrameTally(frames[|frames| - 1], l))
  }

  lemma Pushed(frames: seq<Frame>, f: Frame, l: Limits)
    ensures StackTally(frames + [f], l) == Both(StackTally(frames, l), FrameTally(f, l))
  {
    assert (frames + [f])[..|frames|] == frames;
  }

  /** Work left: a visit may still push its children and its own `Leave`. */
  function Work(frames: seq<Frame>): nat {
    if frames == [] then 0
    else
      Work(frames[..|frames| - 1])
      + (match frames[|frames| - 1] case Visit(v, _) => 2 * Nodes(v) case Leave(_) => 1)
  }

  lemma PushedWork(frames: seq<Frame>, f: Frame)
    ensures Work(frames + [f]) == Work(frames) + (match f case Visit(v, _) => 2 * Nodes(v) case Leave(_) => 1)
  {
    assert (frames + [f])[..|frames|] == frames;
  }

  /** A container being visited encloses everything above its `Leave`. */
  predicate Nested(frames: seq<Frame>) {
    forall j, k :: 0 <= j < k < |frames| && frames[j].Leave? ==> Nodes(frames[k].value) < Nodes(frames[j].value)
  }

  predicate Tracked(frames: seq<Frame>, active: set<Json>) {
    forall c :: c in active ==> exists j :: 0 <= j < |frames| && frames[j] == Leave(c)
  }

  /** The value of a visit on top of the stack is not one of the containers around it. */
  lemma NoCycle(frames: seq<Frame>, active: set<Json>)
    requires frames != [] && Nested(frames) && Tracked(frames, active) && frames[|frames| - 1].Visit?
    ensures frames[|frames| - 1].value !in active
  {
  }

  /** The distinct visits and leaves of a stack, the active containers being exactly the leaves. */
  predicate LeavesActive(frames: seq<Frame>, active: set<Json>) {
    && (forall j :: 0 <= j < |frames| && frames[j].Leave? ==> frames[j].value in active)
    && Tracked(frames, active)
  }

  lemma PoppedLeave(frames: seq<Frame>, active: set<Json>)
    requires frames != [] && Nested(frames) && LeavesActive(frames, active) && frames[|frames| - 1].Leave?
    ensures var rest := frames[..|frames| - 1];
            Nested(rest) && LeavesActive(rest, active - {frames[|frames| - 1].value})
  {
    var rest, c := frames[..|frames| - 1], frames[|frames| - 1].value;
    forall j | 0 <= j < |rest| && rest[j].Leave? ensures rest[j].value != c {
      assert Nodes(frames[|frames| - 1].value) < Nodes(frames[j].value);
    }
    forall x | x in active - {c} ensures exists j :: 0 <= j < |rest| && rest[j] == Leave(x) {
      var j :| 0 <= j < |frames| && frames[j] == Leave(x);
      assert rest[j] == Leave(x);
    }
  }

  lemma PoppedVisit(frames: seq<Frame>, active: set<Json>)
    requires frames != [] && Nested(frames) && LeavesActive(frames, active) && frames[|frames| - 1].Visit?
    ensures Nested(frames[..|frames| - 1]) && LeavesActive(frames[..|frames| - 1], active)
  {
    var rest := frames[..|frames| - 1];
    forall x | x in active ensures exists j :: 0 <= j < |rest| && rest[j] == Leave(x) {
      var j :| 0 <= j < |frames| && frames[j] == Leave(x);
      assert rest[j] == Leave(x);
    }
  }

  /** Everything already on the stack encloses the popped value, so its own `Leave` may go on top. */
  predicate Around(frames: seq<Frame>, v: Json) {
    forall j :: 0 <= j < |frames| && frames[j].Leave? ==> Nodes(v) < Nodes(frames[j].value)
  }

  lemma PushedLeave(frames: seq<Frame>, active: set<Json>, v: Json)
    requires Nested(frames) && LeavesActive(frames, active) && Around(frames, v)
    ensures Nested(frames + [Leave(v)]) && LeavesActive(frames + [Leave(v)], active + {v})
  {
    var s := frames + [Leave(v)];
    forall x | x in active + {v} ensures exists j :: 0 <= j < |s| && s[j] == Leave(x) {
      if x == v {
        assert s[|frames|] == Leave(x);
      } else {
        var j :| 0 <= j < |frames| && frames[j] == Leave(x);
        assert s[j] == Leave(x);
      }
    }
  }

  lemma PushedVisit(frames: seq<Frame>, active: set<Json>, v: Json, d: nat)
    requires Nested(frames) && LeavesActive(frames, active) && Around(frames, v)
    ensures Nested(frames + [Visit(v, d)]) && LeavesActive(frames + [Visit(v, d)], active)
  {
    var s := frames + [Visit(v, d)];
    forall x | x in active ensures exists j :: 0 <= j < |s| && s[j] == Leave(x) {
      var j :| 0 <= j < |frames| && frames[j] == Leave(x);
      assert s[j] == Leave(x);
    }
  }

  lemma {:induction false} ItemSmaller(items: seq<Json>, i: nat)
    requires i < |items|
    ensures Nodes(items[i]) <= ItemNodes(items)
  {
    if i > 0 { ItemSmaller(items[1..], i - 1); }
  }

  lemma {:induction false} MemberSmaller(members: seq<Keyed<Json>>, i: nat)
    requires i < |members|
    ensures Nodes(members[i].value) <= MemberNodes(members)
  {
    if i > 0 { MemberSmaller(members[1..], i - 1); }
  }

  // ----- Opening a container -----

  /** A plain object's members, checked and in key order. */
  method ObjectDataEntries(members: seq<Keyed<Json>>, l: Limits) returns (r: Option<seq<Keyed<Json>>>)
    ensures r.Some? <==> |members| <= l.maxObjectKeys && forall i :: 0 <= i < |members| ==> KeyWithin(members[i].key, l)
    ensures r.Some? ==> r.value == SortKeys(members)
    ensures r.Some? ==> multiset(r.value) == multiset(members) && KeysInOrder(r.value)
  {
    hide KeysInOrder, SortKeys;
    SortInOrder(members);
    if |members| > l.maxObjectKeys { return None; }
    for i := 0 to |members|
      invariant forall j :: 0 <= j < i ==> KeyWithin(members[j].key, l)
    {
      var accepted := AssertUnicodeScalarString(members[i].key);
      if !accepted || members[i].key == PROTO || |Utf8(members[i].key)| > l.maxStringBytes { return None; }
    }
    r := Some(SortKeys(members));
  }

  lemma {:induction false} KeysDecide(members: seq<Keyed<Json>>, l: Limits)
    ensures CountMembers(members, l).ok ==> forall i :: 0 <= i < |members| ==> KeyWithin(members[i].key, l)
  {
    hide Count, KeyWithin;
    if members != [] {
      KeysDecide(members[1..], l);
      if CountMembers(members, l).ok {
        forall i | 0 <= i < |members| ensures KeyWithin(members[i].key, l) {
          if i > 0 { assert members[i] == members[1..][i - 1]; }
        }
      }
    }
  }

  /** The stack after a container's children have been pushed onto `base`. */
  predicate Extended(base: seq<Frame>, out: seq<Frame>) {
    && base <= out
    && forall j :: |base| <= j < |out| ==> out[j].Visit? && out[j].depth > 0
  }

  lemma ExtendedMore(base: seq<Frame>, out: seq<Frame>, v: Json, d: nat)
    requires Extended(base, out)
    ensures Extended(base, out + [Visit(v, d + 1)])
  {
  }

  lemma ExtendedSelf(base: seq<Frame>)
    ensures Extended(base, base)
  {
  }

  lemma AroundExtended(base: seq<Frame>, out: seq<Frame>, v: Json)
    requires Extended(base, out) && Around(base, v)
    ensures Around(out, v)
  {
    forall j | 0 <= j < |out| && out[j].Leave? ensures Nodes(v) < Nodes(out[j].value) {
      assert j < |base| && out[j] == base[j];
    }
  }

  lemma ItemAdded(start: Tally, stack: Tally, items: seq<Json>, i: nat, d: nat, l: Limits)
    requires i < |items| && stack == Both(start, Deeper(CountItems(items[i + 1..], l), d))
    ensures Both(stack, FrameTally(Visit(items[i], d + 1), l)) == Both(start, Deeper(CountItems(items[i..], l), d))
    ensures ItemNodes(items[i..]) == Nodes(items[i]) + ItemNodes(items[i + 1..])
  {
    hide Count, Nodes;
    assert items[i..][1..] == items[i + 1..];
  }

  /** Push the values of an array so that the first is visited first. */
  method PushItems(base: seq<Frame>, ghost active: set<Json>, items: seq<Json>, d: nat, ghost l: Limits)
    returns (out: seq<Frame>)
    requires Nested(base) && LeavesActive(base, active)
    requires forall i :: 0 <= i < |items| ==> Around(base, items[i])
    ensures Extended(base, out) && Nested(out) && LeavesActive(out, active)
    ensures StackTally(out, l) == Both(StackTally(base, l), Deeper(CountItems(items, l), d))
    ensures Work(out) == Work(base) + 2 * ItemNodes(items)
  {
    out := base;
    var index := |items|;
    assert items[index..] == [] && items[0..] == items;
    NothingLeft(StackTally(base, l), d);
    ExtendedSelf(base);
    hide Extended, Count, CountItems, Nodes, ItemNodes, Nested, LeavesActive, StackTally, FrameTally, Work, Around, Both, Deeper;
    NoItems(l);
    while index > 0
      invariant 0 <= index <= |items|
      invariant Extended(base, out) && Nested(out) && LeavesActive(out, active)
      invariant StackTally(out, l) == Both(StackTally(base, l), Deeper(CountItems(items[index..], l), d))
      invariant Work(out) == Work(base) + 2 * ItemNodes(items[index..])
    {
      index := index - 1;
      var f := Visit(items[index], d + 1);
      AroundExtended(base, out, items[index]);
      ExtendedMore(base, out, items[index], d);
      PushedVisit(out, active, items[index], d + 1);
      Pushed(out, f, l);
      PushedWork(out, f);
      ItemAdded(StackTally(base, l), StackTally(out, l), items, index, d, l);
      out := out + [f];
    }
  }

  lemma NoItems(l: Limits)
    ensures CountItems([], l) == NOTHING && ItemNodes([]) == 0
    ensures CountMembers([], l) == NOTHING && MemberNodes([]) == 0
  {
  }

  lemma NothingLeft(t: Tally, d: nat)
    ensures Both(t, Deeper(NOTHING, d)) == t
  {
  }

  function Bytes(n: nat): Tally {
    Tally(0, 0, n, true)
  }

  /** Push the values of an object, adding the bytes of each key, until the byte limit is crossed. */
  method PushMembers(base: seq<Frame>, ghost active: set<Json>, members: seq<Keyed<Json>>, d: nat, l: Limits, bytes: nat)
    returns (r: Option<(seq<Frame>, nat)>)
    requires Nested(base) && LeavesActive(base, active)
    requires forall i :: 0 <= i < |members| ==> Around(base, members[i].value) && KeyWithin(members[i].key, l)
    ensures r.None? ==> bytes + CountMembers(members, l).bytes > l.maxCanonicalBytes
    ensures r.Some? ==> Extended(base, r.value.0) && Nested(r.value.0) && LeavesActive(r.value.0, active)
    ensures r.Some? ==> Both(Bytes(r.value.1), StackTally(r.value.0, l))
                          == Both(Both(Bytes(bytes), StackTally(base, l)), Deeper(CountMembers(members, l), d))
    ensures r.Some? ==> Work(r.value.0) == Work(base) + 2 * MemberNodes(members)
    ensures r.Some? && bytes <= l.maxCanonicalBytes ==> r.value.1 <= l.maxCanonicalBytes
  {
    hide *;
    var out := base;
    var total: nat := bytes;
    var index := |members|;
    ghost var start := Both(Bytes(bytes), StackTally(base, l));
    assert members[index..] == [] && members[0..] == members;
    NothingLeft(start, d);
    NoItems(l);
    ExtendedSelf(base);
    while index > 0
      invariant 0 <= index <= |members|
      invariant Extended(base, out) && Nested(out) && LeavesActive(out, active)
      invariant Both(Bytes(total), StackTally(out, l)) == Both(start, Deeper(CountMembers(members[index..], l), d))
      invariant Work(out) == Work(base) + 2 * MemberNodes(members[index..])
      invariant total <= bytes + CountMembers(members[index..], l).bytes
      invariant bytes <= l.maxCanonicalBytes ==> total <= l.maxCanonicalBytes
    {
      index := index - 1;
      var m := members[index];
      KeyCostIs(m.key);
      MoreBytes(members, index, l);
      ghost var before := total;
      total := total + |Utf8(Quote(m.key))| + 1;
      if total > l.maxCanonicalBytes { return None; }
      var f := Visit(m.value, d + 1);
      AroundExtended(base, out, m.value);
      ExtendedMore(base, out, m.value, d);
      PushedVisit(out, active, m.value, d + 1);
      Pushed(out, f, l);
      PushedWork(out, f);
      MemberAdded(start, before, StackTally(out, l), members, index, d, l);
      out := out + [f];
    }
    r := Some((out, total));
  }

  lemma KeyCostIs(key: Text)
    ensures KeyCost(key) == |Utf8(Quote(key))| + 1
  {
  }

  lemma {:induction false} MoreBytes(members: seq<Keyed<Json>>, i: nat, l: Limits)
    requires i < |members|
    ensures CountMembers(members[i..], l).bytes
              == KeyCost(members[i].key) + Count(members[i].value, l).bytes + CountMembers(members[i + 1..], l).bytes
    ensures CountMembers(members[i..], l).bytes <= CountMembers(members, l).bytes
    decreases i
  {
    hide Count, KeyCost, KeyWithin;
    assert members[i..][1..] == members[i + 1..];
    if i > 0 {
      MoreBytes(members, i - 1, l);
      assert members[i - 1 + 1..] == members[i..];
    } else {
      assert members[0..] == members;
    }
  }

  lemma MemberAdded(
      start: Tally, total: nat, stack: Tally, members: seq<Keyed<Json>>, i: nat, d: nat, l: Limits)
    requires i < |members| && KeyWithin(members[i].key, l)
    requires Both(Bytes(total), stack) == Both(start, Deeper(CountMembers(members[i + 1..], l), d))
    ensures Both(Bytes(total + KeyCost(members[i].key)), Both(stack, FrameTally(Visit(members[i].value, d + 1), l)))
              == Both(start, Deeper(CountMembers(members[i..], l), d))
    ensures MemberNodes(members[i..]) == Nodes(members[i].value) + MemberNodes(members[i + 1..])
  {
    hide Count, KeyCost, KeyWithin, Nodes;
    assert members[i..][1..] == members[i + 1..];
  }

  // ----- The walk -----

  predicate Grounded(frames: seq<Frame>) {
    forall j :: 0 <= j < |frames| && frames[j].Visit? ==> frames[j].depth > 0
  }

  function Counted(nodes: nat, depth: nat, bytes: nat): Tally {
    Tally(nodes, depth, bytes, true)
  }

  /** What the loop keeps: counted so far and still on the stack is everything; no cycle is in sight. */
  predicate Walking(v: Json, l: Limits, frames: seq<Frame>, active: set<Json>, counted: Tally) {
    && Both(counted, StackTally(frames, l)) == Count(v, l)
    && Grounded(frames) && Nested(frames) && LeavesActive(frames, active)
  }

  /** The counts are still within the limits. */
  predicate InBudget(t: Tally, l: Limits) {
    t.ok && t.nodes <= l.maxNodes && t.depth <= l.maxDepth && t.bytes <= l.maxCanonicalBytes
  }

  lemma WalkStarts(v: Json, l: Limits)
    ensures Walking(v, l, [Visit(v, 1)], {}, Counted(0, 0, 0)) && InBudget(Counted(0, 0, 0), l)
  {
    hide *;
    VisitAlone(v);
    CountVisit(v, l);
    WalkingMade(v, l, [Visit(v, 1)], {}, Counted(0, 0, 0));
    NothingSpent(l);
  }

  lemma VisitAlone(v: Json)
    ensures Grounded([Visit(v, 1)]) && Nested([Visit(v, 1)]) && LeavesActive([Visit(v, 1)], {})
  {
    hide Nodes;
  }

  lemma CountVisit(v: Json, l: Limits)
    ensures Both(Counted(0, 0, 0), StackTally([Visit(v, 1)], l)) == Count(v, l)
  {
    hide Count;
    assert [Visit(v, 1)][..0] == [];
    assert StackTally([Visit(v, 1)], l) == Both(NOTHING, Deeper(Count(v, l), 0));
  }

  lemma NothingSpent(l: Limits)
    ensures InBudget(Counted(0, 0, 0), l)
  {
  }

  lemma WalkingMade(v: Json, l: Limits, frames: seq<Frame>, active: set<Json>, counted: Tally)
    requires Both(counted, StackTally(frames, l)) == Count(v, l)
    requires Grounded(frames) && Nested(frames) && LeavesActive(frames, active)
    ensures Walking(v, l, frames, active, counted)
  {
    hide Count, StackTally, Grounded, Nested, LeavesActive, Both;
  }

  lemma WalkEnds(v: Json, l: Limits, active: set<Json>, counted: Tally)
    requires Walking(v, l, [], active, counted) && InBudget(counted, l)
    ensures Within(v, l) && counted == Tally(Nodes(v), Depth(v), |Utf8(Encode(v).value)|, true)
  {
    TallyDecides(v, l);
    CountMeans(v, l);
  }

  lemma LeaveStep(v: Json, l: Limits, frames: seq<Frame>, active: set<Json>, counted: Tally)
    requires Walking(v, l, frames, active, counted) && frames != [] && frames[|frames| - 1].Leave?
    ensures var rest := frames[..|frames| - 1];
            Walking(v, l, rest, active - {frames[|frames| - 1].value}, counted) && Work(rest) < Work(frames)
  {
    PoppedLeave(frames, active);
    hide Count, Nodes, Nested, LeavesActive;
  }

  /** The visited value's own share, at its depth. */
  function Own(u: Json, d: nat, l: Limits): Tally {
    Tally(1, d, OwnCost(u), OwnOk(u, l))
  }

  function Kids(u: Json, l: Limits): Tally {
    match u
    case Arr(items) => CountItems(items, l)
    case Obj(members) => CountMembers(members, l)
    case _ => NOTHING
  }

  lemma VisitSplits(u: Json, d: nat, l: Limits)
    requires d > 0
    ensures FrameTally(Visit(u, d), l) == Both(Own(u, d, l), Deeper(Kids(u, l), d))
  {
    hide OwnCost, OwnOk, CountItems, CountMembers;
  }

  /** A popped visit: what is left of the whole, and why a failed check refuses the whole value. */
  lemma VisitStep(v: Json, l: Limits, frames: seq<Frame>, active: set<Json>, counted: Tally)
    requires Walking(v, l, frames, active, counted) && frames != [] && frames[|frames| - 1].Visit?
    ensures var u, d := frames[|frames| - 1].value, frames[|frames| - 1].depth;
            var rest := frames[..|frames| - 1];
            && u !in active && d > 0
            && Both(Both(counted, Own(u, d, l)), Both(StackTally(rest, l), Deeper(Kids(u, l), d))) == Count(v, l)
            && Grounded(rest) && Nested(rest) && LeavesActive(rest, active) && Around(rest, u)
            && Work(frames) == Work(rest) + 2 * Nodes(u)
  {
    NoCycle(frames, active);
    PoppedVisit(frames, active);
    hide Count, Nodes, LeavesActive, Own, Kids, Deeper;
    var f := frames[|frames| - 1];
    VisitSplits(f.value, f.depth, l);
    BothSwap(StackTally(frames[..|frames| - 1], l), Own(f.value, f.depth, l), Deeper(Kids(f.value, l), f.depth));
  }

  lemma Refused(v: Json, l: Limits, part: Tally, rest: Tally)
    requires Both(part, rest) == Count(v, l) && !InBudget(part, l)
    ensures !Within(v, l)
  {
    TallyDecides(v, l);
    hide Count, Within;
  }

  lemma OwnRefused(v: Json, l: Limits, counted: Tally, own: Tally, stack: Tally)
    requires Both(Both(counted, own), stack) == Count(v, l) && !InBudget(Both(counted, own), l)
    ensures !Within(v, l)
  {
    hide Count, Within, InBudget;
    Refused(v, l, Both(counted, own), stack);
  }

  lemma LeafStep(v: Json, l: Limits, rest: seq<Frame>, active: set<Json>, counted: Tally, u: Json, d: nat)
    requires Both(Both(counted, Own(u, d, l)), Both(StackTally(rest, l), Deeper(Kids(u, l), d))) == Count(v, l)
    requires Grounded(rest) && Nested(rest) && LeavesActive(rest, active) && !u.Arr? && !u.Obj?
    ensures Walking(v, l, rest, active, Both(counted, Own(u, d, l)))
  {
    hide Count, Own;
    NothingLeft(StackTally(rest, l), d);
  }

  lemma OpenStep(rest: seq<Frame>, active: set<Json>, u: Json, l: Limits)
    requires Grounded(rest) && Nested(rest) && LeavesActive(rest, active) && Around(rest, u)
    ensures var base := rest + [Leave(u)];
            && Grounded(base) && Nested(base) && LeavesActive(base, active + {u})
            && StackTally(base, l) == StackTally(rest, l) && Work(base) == Work(rest) + 1
            && forall c: Json :: Nodes(c) < Nodes(u) ==> Around(base, c)
  {
    PushedLeave(rest, active, u);
    Pushed(rest, Leave(u), l);
    PushedWork(rest, Leave(u));
    var base := rest + [Leave(u)];
    forall c: Json | Nodes(c) < Nodes(u) ensures Around(base, c) {
      forall j | 0 <= j < |base| && base[j].Leave? ensures Nodes(c) < Nodes(base[j].value) {
        if j < |rest| { assert base[j] == rest[j]; }
      }
    }
    NothingLeft(StackTally(rest, l), 0);
    hide Nodes, Nested, LeavesActive, Work;
  }

  lemma GroundedExtended(base: seq<Frame>, out: seq<Frame>)
    requires Grounded(base) && Extended(base, out)
    ensures Grounded(out)
  {
    forall j | 0 <= j < |out| && out[j].Visit? ensures out[j].depth > 0 {
      if j < |base| { assert out[j] == base[j]; }
    }
  }

  lemma ItemsFit(items: seq<Json>)
    ensures forall i :: 0 <= i < |items| ==> Nodes(items[i]) < Nodes(Arr(items))
  {
    forall i | 0 <= i < |items| ensures Nodes(items[i]) < Nodes(Arr(items)) {
      ItemSmaller(items, i);
    }
  }

  lemma ObjectNodes(members: seq<Keyed<Json>>)
    ensures Nodes(Obj(members)) == 1 + MemberNodes(members)
  {
    hide Depth;
  }

  lemma MembersFit(members: seq<Keyed<Json>>, l: Limits)
    ensures MemberNodes(SortKeys(members)) == MemberNodes(members)
    ensures forall i :: 0 <= i < |members| ==> Nodes(SortKeys(members)[i].value) < Nodes(Obj(members))
  {
    hide *;
    CountSorted(members, l);
    CountMembersMeans(members, l);
    CountMembersMeans(SortKeys(members), l);
    ObjectNodes(members);
    forall i | 0 <= i < |members| ensures Nodes(SortKeys(members)[i].value) < Nodes(Obj(members)) {
      MemberSmaller(SortKeys(members), i);
    }
  }

  lemma {:induction false} SortedKeysWithin(members: seq<Keyed<Json>>, l: Limits)
    requires forall i :: 0 <= i < |members| ==> KeyWithin(members[i].key, l)
    ensures forall i :: 0 <= i < |members| ==> KeyWithin(SortKeys(members)[i].key, l)
  {
    hide KeyWithin;
    if members != [] {
      SortedKeysWithin(members[1..], l);
      InsertedWithin(members[0], SortKeys(members[1..]), l);
    }
  }

  lemma {:induction false} InsertedWithin(m: Keyed<Json>, s: seq<Keyed<Json>>, l: Limits)
    requires KeyWithin(m.key, l) && forall i :: 0 <= i < |s| ==> KeyWithin(s[i].key, l)
    ensures forall i :: 0 <= i <= |s| ==> KeyWithin(InsertKey(m, s)[i].key, l)
  {
    hide KeyWithin;
    if s != [] && Less(s[0].key, m.key) {
      InsertedWithin(m, s[1..], l);
      forall i | 0 <= i <= |s| ensures KeyWithin(InsertKey(m, s)[i].key, l) {
        if i > 0 { assert InsertKey(m, s)[i] == InsertKey(m, s[1..])[i - 1]; }
      }
    }
  }

  predicate LimitsOk(l: Limits) {
    && l.maxDepth > 0 && l.maxNodes > 0 && l.maxArrayLength > 0
    && l.maxObjectKeys > 0 && l.maxStringBytes > 0 && l.maxCanonicalBytes > 0
  }

  /** What the checks on a visited value amount to. */
  lemma OwnBudget(counted: Tally, u: Json, d: nat, l: Limits)
    requires InBudget(counted, l)
    ensures Both(counted, Own(u, d, l))
              == Tally(counted.nodes + 1, Max(counted.depth, d), counted.bytes + OwnCost(u), OwnOk(u, l))
    ensures InBudget(Both(counted, Own(u, d, l)), l) <==>
              && counted.nodes + 1 <= l.maxNodes && d <= l.maxDepth
              && counted.bytes + OwnCost(u) <= l.maxCanonicalBytes && OwnOk(u, l)
  {
    hide OwnCost, OwnOk;
  }

  lemma KidsRefused(v: Json, l: Limits, part: Tally, stack: Tally, kids: Tally, d: nat)
    requires Both(part, Both(stack, Deeper(kids, d))) == Count(v, l)
    requires !kids.ok || part.bytes + kids.bytes > l.maxCanonicalBytes
    ensures !Within(v, l)
  {
    TallyDecides(v, l);
    hide Count, Within;
  }

  lemma WorkLeft(rest: seq<Frame>, u: Json, kids: nat, out: seq<Frame>)
    requires Work(out) == Work(rest) + 1 + 2 * kids && Nodes(u) == 1 + kids
    ensures Work(out) < Work(rest) + 2 * Nodes(u)
  {
  }

  lemma ArrayOpened(
      v: Json, l: Limits, rest: seq<Frame>, base: seq<Frame>, out: seq<Frame>, active: set<Json>, part: Tally, u: Json, d: nat)
    requires u.Arr? && Both(part, Both(StackTally(rest, l), Deeper(Kids(u, l), d))) == Count(v, l)
    requires StackTally(base, l) == StackTally(rest, l) && Grounded(base)
    requires Extended(base, out) && Nested(out) && LeavesActive(out, active)
    requires StackTally(out, l) == Both(StackTally(base, l), Deeper(CountItems(u.items, l), d))
    ensures Walking(v, l, out, active, part)
  {
    hide Count, CountItems, StackTally, Both, Deeper, Nested, LeavesActive;
    GroundedExtended(base, out);
  }

  /** The bytes charged for an object's keys while pushing add up with what is pushed. */
  lemma TalliesMeet(counted: Tally, own: Tally, left: Tally, kids: Tally, pushed: Tally, bytes: nat)
    requires counted.ok && own.ok && own.nodes == 1
    requires Both(Bytes(bytes), pushed) == Both(Both(Bytes(counted.bytes + own.bytes), left), kids)
    ensures Max(counted.depth, own.depth) >= 0
    ensures Both(Counted(counted.nodes + 1, Max(counted.depth, own.depth), bytes), pushed) == Both(Both(counted, own), Both(left, kids))
  {
  }

  lemma ObjectOwn(u: Json, d: nat, l: Limits)
    requires u.Obj?
    ensures Own(u, d, l) == Tally(1, d, OwnCost(u), OwnOk(u, l)) && Kids(u, l) == CountMembers(u.members, l)
  {
  }

  lemma ObjectOpened(
      v: Json, l: Limits, rest: seq<Frame>, base: seq<Frame>, out: seq<Frame>, active: set<Json>,
      counted: Tally, u: Json, d: nat, bytes: nat)
    requires u.Obj? && Both(Both(counted, Own(u, d, l)), Both(StackTally(rest, l), Deeper(Kids(u, l), d))) == Count(v, l)
    requires StackTally(base, l) == StackTally(rest, l) && Grounded(base) && OwnOk(u, l)
    requires Extended(base, out) && Nested(out) && LeavesActive(out, active) && counted.ok
    requires Both(Bytes(bytes), StackTally(out, l))
               == Both(Both(Bytes(counted.bytes + OwnCost(u)), StackTally(base, l)), Deeper(CountMembers(SortKeys(u.members), l), d))
    ensures Walking(v, l, out, active, Counted(counted.nodes + 1, Max(counted.depth, d), bytes))
  {
    hide *;
    CountSorted(u.members, l);
    GroundedExtended(base, out);
    ObjectOwn(u, d, l);
    TalliesMeet(counted, Own(u, d, l), StackTally(base, l), Deeper(Kids(u, l), d), StackTally(out, l), bytes);
    WalkingMade(v, l, out, active, Counted(counted.nodes + 1, Max(counted.depth, d), bytes));
  }

  lemma LeafKind(u: Json, l: Limits)
    ensures u.Null? ==> OwnCost(u) == 4 && OwnOk(u, l)
    ensures u.Bool? ==> OwnCost(u) == (if u.flag then 4 else 5) && OwnOk(u, l)
    ensures u.Num? ==> (OwnOk(u, l) <==> Safe(u.number)) && (u.number.Int? ==> OwnCost(u) == |Utf8(Decimal(u.number.value))|)
    ensures u.Str? ==> (OwnOk(u, l) <==> Accepted(u.text) && |Utf8(u.text)| <= l.maxStringBytes)
                       && OwnCost(u) == |Utf8(Quote(u.text))|
    ensures u.Alien? ==> !OwnOk(u, l)
    ensures u.Arr? ==> (OwnOk(u, l) <==> |u.items| <= l.maxArrayLength) && OwnCost(u) == 2 + Commas(|u.items|)
    ensures u.Obj? ==> (OwnOk(u, l) <==> |u.members| <= l.maxObjectKeys) && OwnCost(u) == 2 + Commas(|u.members|)
    ensures u.Arr? ==> Kids(u, l) == CountItems(u.items, l)
    ensures u.Obj? ==> Kids(u, l) == CountMembers(u.members, l)
  {
    hide Utf8, Quote, Decimal, Count, CountItems, CountMembers;
  }

  lemma NumberSafe(n: Number)
    ensures Safe(n) ==> n.Int?
  {
  }

  /** Own cost and verdict of a value that has no children, or `None` where the switch throws. */
  method LeafBytes(u: Json, l: Limits) returns (r: Option<nat>)
    requires !u.Arr? && !u.Obj?
    ensures r.Some? <==> OwnOk(u, l)
    ensures r.Some? ==> r.value == OwnCost(u)
  {
    hide *;
    LeafKind(u, l);
    match u {
      case Null => r := Some(4);
      case Bool(b) => r := Some(if b then 4 else 5);
      case Num(n) =>
        NumberSafe(n);
        r := if Safe(n) then Some(|Utf8(Decimal(n.value))|) else None;
      case Str(s) =>
        var accepted := AssertUnicodeScalarString(s);
        r := if accepted && |Utf8(s)| <= l.maxStringBytes then Some(|Utf8(Quote(s))|) else None;
      case Alien => r := None;
    }
  }

  /**
    The walk over a value, with a stack instead of recursion. It succeeds exactly when the recursive
    encoder succeeds and all six limits hold, and then reports the exact counts.
   */
  method AssertJsonWithinLimits(v: Json, l: Limits) returns (r: Option<Metrics>)
    ensures r.Some? <==> LimitsOk(l) && Within(v, l)
    ensures r.Some? ==> r.value == Metrics(Nodes(v), Depth(v), |Utf8(Encode(v).value)|)
  {
    hide *;
    if !LimitsOk(l) { return None; }
    var frames: seq<Frame> := [Visit(v, 1)];
    var active: set<Json> := {};
    var nodes: nat, observedDepth: nat, bytes: nat := 0, 0, 0;
    WalkStarts(v, l);
    while frames != []
      invariant Walking(v, l, frames, active, Counted(nodes, observedDepth, bytes))
      invariant InBudget(Counted(nodes, observedDepth, bytes), l)
      decreases Work(frames)
    {
      var frame := frames[|frames| - 1];
      ghost var counted := Counted(nodes, observedDepth, bytes);
      var rest := frames[..|frames| - 1];
      if frame.Leave? {
        LeaveStep(v, l, frames, active, counted);
        frames, active := rest, active - {frame.value};
      } else {
        VisitStep(v, l, frames, active, counted);
        var u, d := frame.value, frame.depth;
        ghost var part, stack := Both(counted, Own(u, d, l)), Both(StackTally(rest, l), Deeper(Kids(u, l), d));
        CountedIs(nodes, observedDepth, bytes);
        OwnBudget(counted, u, d, l);
        LeafKind(u, l);
        if !InBudget(part, l) { OwnRefused(v, l, counted, Own(u, d, l), stack); }
        nodes := nodes + 1;
        if nodes > l.maxNodes { return None; }
        if d > l.maxDepth { return None; }
        observedDepth := MaxNat(observedDepth, d);
        if u.Arr? {
          if u in active { assert false; }
          if |u.items| > l.maxArrayLength { return None; }
          bytes := bytes + 2 + Commas(|u.items|);
          if bytes > l.maxCanonicalBytes { return None; }
          OpenStep(rest, active, u, l);
          ItemsFit(u.items);
          ArrayNodes(u);
          var out := PushItems(rest + [Leave(u)], active + {u}, u.items, d, l);
          WorkLeft(rest, u, ItemNodes(u.items), out);
          ArrayOpened(v, l, rest, rest + [Leave(u)], out, active + {u}, part, u, d);
          CountedIs(nodes, observedDepth, bytes);
          frames, active := out, active + {u};
        } else if u.Obj? {
          if u in active { assert false; }
          KeysDecide(u.members, l);
          var entries := ObjectDataEntries(u.members, l);
          if entries.None? {
            if |u.members| <= l.maxObjectKeys { KidsRefused(v, l, part, StackTally(rest, l), Kids(u, l), d); }
            return None;
          }
          bytes := bytes + 2 + Commas(|u.members|);
          if bytes > l.maxCanonicalBytes { return None; }
          OpenStep(rest, active, u, l);
          MembersFit(u.members, l);
          SortedKeysWithin(u.members, l);
          CountSorted(u.members, l);
          ObjectNodes(u.members);
          var pushed := PushMembers(rest + [Leave(u)], active + {u}, entries.value, d, l, bytes);
          if pushed.None? {
            KidsRefused(v, l, part, StackTally(rest, l), Kids(u, l), d);
            return None;
          }
          WorkLeft(rest, u, MemberNodes(u.members), pushed.value.0);
          ObjectOpened(v, l, rest, rest + [Leave(u)], pushed.value.0, active + {u}, counted, u, d, pushed.value.1);
          BudgetKept(nodes, observedDepth, bytes, pushed.value.1, part, l);
          bytes := pushed.value.1;
          frames, active := pushed.value.0, active + {u};
        } else {
          var own := LeafBytes(u, l);
          if own.None? { return None; }
          bytes := bytes + own.value;
          if bytes > l.maxCanonicalBytes { return None; }
          LeafStep(v, l, rest, active, counted, u, d);
          CountedIs(nodes, observedDepth, bytes);
          frames := rest;
        }
      }
    }
    WalkEnds(v, l, active, Counted(nodes, observedDepth, bytes));
    CountedIs(nodes, observedDepth, bytes);
    r := Some(Metrics(nodes, observedDepth, bytes));
  }

  function MaxNat(a: nat, b: nat): (r: nat)
    ensures r == Max(a, b)
  {
    if a < b then b else a
  }

  lemma CountedIs(nodes: nat, depth: nat, bytes: nat)
    ensures Counted(nodes, depth, bytes) == Tally(nodes, depth, bytes, true)
  {
  }

  lemma ArrayNodes(u: Json)
    requires u.Arr?
    ensures Nodes(u) == 1 + ItemNodes(u.items)
  {
    hide Depth;
  }

  lemma BudgetKept(nodes: nat, depth: nat, before: nat, bytes: nat, part: Tally, l: Limits)
    requires InBudget(part, l) && part == Tally(nodes, depth, before, true) && bytes <= l.maxCanonicalBytes
    ensures InBudget(Counted(nodes, depth, bytes), l)
  {
  }
}
