/** Canonical JSON: the values, the recursive encoder and what its output measures. */
module Json {
  import opened Base
  import opened Text

  const PROTO: Text := [95, 95, 112, 114, 111, 116, 111, 95, 95]

  /** A JavaScript number: an integer, negative zero, or anything else (fractions, infinities, NaN). */
  datatype Number = Int(value: int) | NegativeZero | NotInteger

  datatype Keyed<+T> = Keyed(key: Text, value: T)

  /** A finite value; `Alien` is a value of a type JSON does not have. Object members are in own-key order. */
  datatype Json =
    | Null
    | Bool(flag: bool)
    | Num(number: Number)
    | Str(text: Text)
    | Arr(items: seq<Json>)
    | Obj(members: seq<Keyed<Json>>)
    | Alien

  // ----- Strings and numbers as JSON.stringify writes them -----

  function Hex(d: nat): Unit
    requires d < 16
  {
    if d < 10 then 48 + d else 87 + d
  }

  function UnicodeEscape(u: Unit): Text {
    [92, 117, Hex(u / 4096), Hex(u / 256 % 16), Hex(u / 16 % 16), Hex(u % 16)]
  }

  /** One code unit that is not the start of a surrogate pair. */
  function EscapeUnit(u: Unit): Text {
    if u == 34 then [92, 34]
    else if u == 92 then [92, 92]
    else if u == 8 then [92, 98]
    else if u == 12 then [92, 102]
    else if u == 10 then [92, 110]
    else if u == 13 then [92, 114]
    else if u == 9 then [92, 116]
    else if u < 32 || IsHigh(u) || IsLow(u) then UnicodeEscape(u)
    else [u]
  }

  function Escape(s: Text): Text {
    if s == [] then []
    else if PairAt(s) then [s[0], s[1]] + Escape(s[2..])
    else EscapeUnit(s[0]) + Escape(s[1..])
  }

  function Quote(s: Text): Text {
    [34] + Escape(s) + [34]
  }

  function Digits(n: nat): Text {
    if n < 10 then [48 + n] else Digits(n / 10) + [48 + n % 10]
  }

  function Decimal(i: int): Text {
    if i < 0 then [45] + Digits(-i) else Digits(i)
  }

  predicate Safe(n: Number) {
    n.Int? && -MAX_SAFE <= n.value <= MAX_SAFE
  }

  // ----- Key order -----

  function InsertKey<T>(m: Keyed<T>, s: seq<Keyed<T>>): (r: seq<Keyed<T>>)
    ensures |r| == |s| + 1
  {
    if s == [] || !Less(s[0].key, m.key) then [m] + s else [s[0]] + InsertKey(m, s[1..])
  }

  function SortKeys<T>(s: seq<Keyed<T>>): (r: seq<Keyed<T>>)
    ensures |r| == |s|
  {
    if s == [] then [] else InsertKey(s[0], SortKeys(s[1..]))
  }

  // ----- The recursive encoder -----

  function Join(parts: seq<Text>): Text {
    if parts == [] then []
    else if |parts| == 1 then parts[0]
    else parts[0] + [44] + Join(parts[1..])
  }

  function MemberText(m: Keyed<Text>): Text {
    Quote(m.key) + [58] + m.value
  }

  function MemberTexts(ms: seq<Keyed<Text>>): (r: seq<Text>)
    ensures |r| == |ms|
  {
    if ms == [] then [] else [MemberText(ms[0])] + MemberTexts(ms[1..])
  }

  predicate KeyOk(key: Text) {
    Accepted(key) && key != PROTO
  }

  /** The encoding, or `None` where the encoder throws. */
  function Encode(v: Json): Option<Text>
    decreases v
  {
    match v
    case Null => Some([110, 117, 108, 108])
    case Bool(b) => Some(if b then [116, 114, 117, 101] else [102, 97, 108, 115, 101])
    case Num(n) => if Safe(n) then Some(Decimal(n.value)) else None
    case Str(s) => if Accepted(s) then Some(Quote(s)) else None
    case Arr(items) =>
      var parts := EncodeItems(items);
      if parts.None? then None else Some([91] + Join(parts.value) + [93])
    case Obj(members) =>
      var parts := EncodeMembers(members);
      if parts.None? then None else Some([123] + Join(MemberTexts(SortKeys(parts.value))) + [125])
    case Alien => None
  }

  function EncodeItems(items: seq<Json>): (r: Option<seq<Text>>)
    ensures r.Some? ==> |r.value| == |items|
    decreases items
  {
    if items == [] then Some([])
    else
      var first := Encode(items[0]);
      var rest := EncodeItems(items[1..]);
      if first.None? || rest.None? then None else Some([first.value] + rest.value)
  }

  function EncodeMembers(members: seq<Keyed<Json>>): (r: Option<seq<Keyed<Text>>>)
    ensures r.Some? ==> |r.value| == |members|
    decreases members
  {
    if members == [] then Some([])
    else
      var first := Encode(members[0].value);
      var rest := EncodeMembers(members[1..]);
      if !KeyOk(members[0].key) || first.None? || rest.None? then None
      else Some([Keyed(members[0].key, first.value)] + rest.value)
  }

  // ----- What the limits count -----

  datatype Limits = Limits(
    maxDepth: nat, maxNodes: nat, maxArrayLength: nat, maxObjectKeys: nat, maxStringBytes: nat, maxCanonicalBytes: nat)

  function Nodes(v: Json): (n: nat)
    ensures n > 0
    decreases v
  {
    match v
    case Arr(items) => 1 + ItemNodes(items)
    case Obj(members) => 1 + MemberNodes(members)
    case _ => 1
  }

  function ItemNodes(items: seq<Json>): nat
    decreases items
  {
    if items == [] then 0 else Nodes(items[0]) + ItemNodes(items[1..])
  }

  function MemberNodes(members: seq<Keyed<Json>>): nat
    decreases members
  {
    if members == [] then 0 else Nodes(members[0].value) + MemberNodes(members[1..])
  }

  /** The root counts as depth one. */
  function Depth(v: Json): (n: nat)
    ensures n > 0
    decreases v
  {
    match v
    case Arr(items) => 1 + ItemDepth(items)
    case Obj(members) => 1 + MemberDepth(members)
    case _ => 1
  }

  function ItemDepth(items: seq<Json>): nat
    decreases items
  {
    if items == [] then 0 else Max(Depth(items[0]), ItemDepth(items[1..]))
  }

  function MemberDepth(members: seq<Keyed<Json>>): nat
    decreases members
  {
    if members == [] then 0 else Max(Depth(members[0].value), MemberDepth(members[1..]))
  }

  /** Every array, object, key and string is within its own limit. */
  predicate PartsWithin(v: Json, l: Limits)
    decreases v
  {
    match v
    case Str(s) => |Utf8(s)| <= l.maxStringBytes
    case Arr(items) => |items| <= l.maxArrayLength && ItemsWithin(items, l)
    case Obj(members) => |members| <= l.maxObjectKeys && MembersWithin(members, l)
    case _ => true
  }

  predicate ItemsWithin(items: seq<Json>, l: Limits)
    decreases items
  {
    items == [] || (PartsWithin(items[0], l) && ItemsWithin(items[1..], l))
  }

  predicate MembersWithin(members: seq<Keyed<Json>>, l: Limits)
    decreases members
  {
    members == []
    || (&& |Utf8(members[0].key)| <= l.maxStringBytes && PartsWithin(members[0].value, l)
        && MembersWithin(members[1..], l))
  }

  /** The six limits, read off the value and its encoding. */
  predicate Within(v: Json, l: Limits) {
    && Encode(v).Some?
    && Nodes(v) <= l.maxNodes
    && Depth(v) <= l.maxDepth
    && PartsWithin(v, l)
    && |Utf8(Encode(v).value)| <= l.maxCanonicalBytes
  }
}
