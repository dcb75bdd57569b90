/**
  Reading canonical JSON back. The reader covers JSON text without white space whose numbers are
  integers, which is all the encoder writes; reading an encoding gives the value with its keys sorted,
  so two values have the same encoding exactly when they differ only in key order.
 */
module JsonRoundTrip {
  import opened Base
  import opened Text
  import opened Json

  datatype Read<+T> = Fail | Got(value: T, rest: Text)

  // ----- Strings -----

  function HexValue(u: Unit): Option<nat> {
    if 48 <= u < 58 then Some(u - 48)
    else if 97 <= u < 103 then Some(u - 87)
    else if 65 <= u < 71 then Some(u - 55)
    else None
  }

  function ReadUnicode(s: Text): (r: Read<Unit>)
    ensures r.Got? ==> |s| >= 4 && r.rest == s[4..]
  {
    if |s| < 4 then Fail
    else
      var a, b, c, d := HexValue(s[0]), HexValue(s[1]), HexValue(s[2]), HexValue(s[3]);
      if a.None? || b.None? || c.None? || d.None? then Fail
      else Got(4096 * a.value + 256 * b.value + 16 * c.value + d.value, s[4..])
  }

  /** One escape sequence, after the backslash. */
  function ReadEscape(s: Text): (r: Read<Unit>)
    ensures r.Got? ==> |r.rest| < |s|
  {
    if s == [] then Fail
    else if s[0] == 34 || s[0] == 92 || s[0] == 47 then Got(s[0], s[1..])
    else if s[0] == 98 then Got(8, s[1..])
    else if s[0] == 102 then Got(12, s[1..])
    else if s[0] == 110 then Got(10, s[1..])
    else if s[0] == 114 then Got(13, s[1..])
    else if s[0] == 116 then Got(9, s[1..])
    else if s[0] == 117 then ReadUnicode(s[1..])
    else Fail
  }

  /** The characters of a string up to and with its closing quotation mark. */
  function ReadChars(s: Text): (r: Read<Text>)
    ensures r.Got? ==> |r.rest| < |s|
    decreases |s|
  {
    if s == [] || s[0] < 32 then Fail
    else if s[0] == 34 then Got([], s[1..])
    else if s[0] == 92 then
      var unit := ReadEscape(s[1..]);
      if unit.Fail? then Fail
      else
        var more := ReadChars(unit.rest);
        if more.Fail? then Fail else Got([unit.value] + more.value, more.rest)
    else
      var more := ReadChars(s[1..]);
      if more.Fail? then Fail else Got([s[0]] + more.value, more.rest)
  }

  function ReadString(s: Text): (r: Read<Text>)
    ensures r.Got? ==> |r.rest| < |s|
  {
    if s == [] || s[0] != 34 then Fail else ReadChars(s[1..])
  }

  // ----- Numbers -----

  predicate IsDigit(u: Unit) {
    48 <= u < 58
  }

  function DigitCount(s: Text): (n: nat)
    ensures n <= |s| && forall i :: 0 <= i < n ==> IsDigit(s[i])
  {
    if s == [] || !IsDigit(s[0]) then 0 else 1 + DigitCount(s[1..])
  }

  function DigitValue(u: Unit): nat
    requires IsDigit(u)
  {
    u - 48
  }

  function DigitsValue(s: Text): nat
    requires forall i :: 0 <= i < |s| ==> IsDigit(s[i])
  {
    if s == [] then 0 else 10 * DigitsValue(s[..|s| - 1]) + DigitValue(s[|s| - 1])
  }

  function ReadDigits(s: Text): (r: Read<nat>)
    ensures r.Got? ==> |r.rest| < |s|
  {
    var n := DigitCount(s);
    if n == 0 then Fail else Got(DigitsValue(s[..n]), s[n..])
  }

  function Negated(n: nat): Number {
    if n == 0 then NegativeZero else Int(0 - n)
  }

  function ReadNumber(s: Text): (r: Read<Json>)
    ensures r.Got? ==> |r.rest| < |s|
  {
    if s != [] && s[0] == 45 then
      var digits := ReadDigits(s[1..]);
      if digits.Fail? then Fail else Got(Num(Negated(digits.value)), digits.rest)
    else
      var digits := ReadDigits(s);
      if digits.Fail? then Fail else Got(Num(Int(digits.value)), digits.rest)
  }

  // ----- Values -----

  function ReadWord(s: Text, word: Text, v: Json): (r: Read<Json>)
    ensures r.Got? ==> |r.rest| == |s| - |word|
  {
    if word <= s then Got(v, s[|word|..]) else Fail
  }

  function ReadValue(s: Text): (r: Read<Json>)
    ensures r.Got? ==> |r.rest| < |s|
    decreases |s|, 0
  {
    if s == [] then Fail
    else if s[0] == 110 then ReadWord(s, [110, 117, 108, 108], Null)
    else if s[0] == 116 then ReadWord(s, [116, 114, 117, 101], Bool(true))
    else if s[0] == 102 then ReadWord(s, [102, 97, 108, 115, 101], Bool(false))
    else if s[0] == 34 then
      var text := ReadString(s);
      if text.Fail? then Fail else Got(Str(text.value), text.rest)
    else if s[0] == 91 then
      if |s| > 1 && s[1] == 93 then Got(Arr([]), s[2..])
      else
        var items := ReadItems(s[1..]);
        if items.Fail? then Fail else Got(Arr(items.value), items.rest)
    else if s[0] == 123 then
      if |s| > 1 && s[1] == 125 then Got(Obj([]), s[2..])
      else
        var members := ReadMembers(s[1..]);
        if members.Fail? then Fail else Got(Obj(members.value), members.rest)
    else ReadNumber(s)
  }

  /** One or more items and the closing bracket. */
  function ReadItems(s: Text): (r: Read<seq<Json>>)
    ensures r.Got? ==> |r.rest| < |s|
    decreases |s|, 1
  {
    var first := ReadValue(s);
    if first.Fail? || first.rest == [] then Fail
    else if first.rest[0] == 93 then Got([first.value], first.rest[1..])
    else if first.rest[0] != 44 then Fail
    else
      var more := ReadItems(first.rest[1..]);
      if more.Fail? then Fail else Got([first.value] + more.value, more.rest)
  }

  /** One or more members and the closing brace. */
  function ReadMembers(s: Text): (r: Read<seq<Keyed<Json>>>)
    ensures r.Got? ==> |r.rest| < |s|
    decreases |s|, 1
  {
    var key := ReadString(s);
    if key.Fail? || key.rest == [] || key.rest[0] != 58 then Fail
    else
      var value := ReadValue(key.rest[1..]);
      if value.Fail? || value.rest == [] then Fail
      else if value.rest[0] == 125 then Got([Keyed(key.value, value.value)], value.rest[1..])
      else if value.rest[0] != 44 then Fail
      else
        var more := ReadMembers(value.rest[1..]);
        if more.Fail? then Fail else Got([Keyed(key.value, value.value)] + more.value, more.rest)
  }

  /** The whole text, with nothing after the value. */
  function Parse(s: Text): Option<Json> {
    var r := ReadValue(s);
    if r.Got? && r.rest == [] then Some(r.value) else None
  }

  // ----- The value a canonical text stands for -----

  /** The same value with the members of every object in key order. */
  function Sorted(v: Json): Json
    decreases v
  {
    match v
    case Arr(items) => Arr(SortedItems(items))
    case Obj(members) => Obj(SortKeys(SortedMembers(members)))
    case _ => v
  }

  function SortedItems(items: seq<Json>): (r: seq<Json>)
    ensures |r| == |items|
    decreases items
  {
    if items == [] then [] else [Sorted(items[0])] + SortedItems(items[1..])
  }

  function SortedMembers(members: seq<Keyed<Json>>): (r: seq<Keyed<Json>>)
    ensures |r| == |members|
    decreases members
  {
    if members == [] then [] else [Keyed(members[0].key, Sorted(members[0].value))] + SortedMembers(members[1..])
  }

  // ----- Reading a quoted string -----

  lemma ReadPlain(u: Unit, s: Text)
    requires u >= 32 && u != 34 && u != 92 && ReadChars(s).Got?
    ensures ReadChars([u] + s) == Got([u] + ReadChars(s).value, ReadChars(s).rest)
  {
    var t := [u] + s;
    assert t[0] == u && t[1..] == s;
  }

  lemma ReadShort(c: Unit, u: Unit, s: Text)
    requires ReadChars(s).Got?
    requires (c == 34 && u == 34) || (c == 92 && u == 92) || (c == 98 && u == 8) || (c == 102 && u == 12)
             || (c == 110 && u == 10) || (c == 114 && u == 13) || (c == 116 && u == 9)
    ensures ReadChars([92, c] + s) == Got([u] + ReadChars(s).value, ReadChars(s).rest)
  {
    var t := [92, c] + s;
    assert t[0] == 92 && t[1..] == [c] + s;
    assert t[1..][0] == c && t[1..][1..] == s;
  }

  lemma HexRound(d: nat)
    requires d < 16
    ensures HexValue(Hex(d)) == Some(d)
  {
  }

  lemma HexParts(u: Unit)
    ensures u == 4096 * (u / 4096) + 256 * (u / 256 % 16) + 16 * (u / 16 % 16) + u % 16
    ensures u / 4096 < 16
  {
    assert u / 16 / 16 == u / 256 && u / 256 / 16 == u / 4096;
  }

  lemma ReadLong(u: Unit, s: Text)
    requires ReadChars(s).Got?
    ensures ReadChars(UnicodeEscape(u) + s) == Got([u] + ReadChars(s).value, ReadChars(s).rest)
  {
    var e := UnicodeEscape(u);
    var t := e + s;
    HexParts(u);
    HexRound(u / 4096);
    HexRound(u / 256 % 16);
    HexRound(u / 16 % 16);
    HexRound(u % 16);
    var h := t[2..];
    assert t[0] == 92 && t[1] == 117 && t[1..][0] == 117 && t[1..][1..] == h;
    assert h[0] == e[2] && h[1] == e[3] && h[2] == e[4] && h[3] == e[5] && h[4..] == s;
    assert ReadUnicode(h) == Got(u, s);
    assert ReadEscape(t[1..]) == Got(u, s);
  }

  lemma ReadUnit(u: Unit, s: Text)
    requires ReadChars(s).Got?
    ensures ReadChars(EscapeUnit(u) + s) == Got([u] + ReadChars(s).value, ReadChars(s).rest)
  {
    hide ReadChars, UnicodeEscape;
    if u == 34 || u == 92 || u == 8 || u == 12 || u == 10 || u == 13 || u == 9 {
      ReadShort(EscapeUnit(u)[1], u, s);
    } else if u < 32 || IsHigh(u) || IsLow(u) {
      ReadLong(u, s);
    } else {
      ReadPlain(u, s);
    }
  }

  lemma EscapeEmpty(rest: Text)
    ensures Escape([]) + [34] + rest == [34] + rest && ReadChars([34] + rest) == Got([], rest)
  {
    var t := [34] + rest;
    assert t[0] == 34 && t[1..] == rest;
  }

  lemma EscapePair(s: Text, rest: Text)
    requires PairAt(s)
    ensures Escape(s) + [34] + rest == [s[0]] + ([s[1]] + (Escape(s[2..]) + [34] + rest))
  {
    hide EscapeUnit;
    assert Escape(s) == [s[0], s[1]] + Escape(s[2..]);
  }

  lemma EscapeSingle(s: Text, rest: Text)
    requires s != [] && !PairAt(s)
    ensures Escape(s) + [34] + rest == EscapeUnit(s[0]) + (Escape(s[1..]) + [34] + rest)
  {
    hide EscapeUnit;
    assert Escape(s) == EscapeUnit(s[0]) + Escape(s[1..]);
  }

  /** Reading back what was quoted, whatever follows. */
  lemma {:induction false} ReadEscaped(s: Text, rest: Text)
    ensures ReadChars(Escape(s) + [34] + rest) == Got(s, rest)
  {
    hide Escape, EscapeUnit, ReadChars;
    if s == [] {
      EscapeEmpty(rest);
    } else if PairAt(s) {
      ReadEscaped(s[2..], rest);
      EscapePair(s, rest);
      ReadPlain(s[1], Escape(s[2..]) + [34] + rest);
      ReadPlain(s[0], [s[1]] + (Escape(s[2..]) + [34] + rest));
      assert [s[0]] + ([s[1]] + s[2..]) == s;
    } else {
      ReadEscaped(s[1..], rest);
      EscapeSingle(s, rest);
      ReadUnit(s[0], Escape(s[1..]) + [34] + rest);
      assert [s[0]] + s[1..] == s;
    }
  }

  lemma ReadQuoted(s: Text, rest: Text)
    ensures ReadString(Quote(s) + rest) == Got(s, rest)
  {
    ReadEscaped(s, rest);
    hide ReadChars, Escape;
    var t := Quote(s) + rest;
    assert t[0] == 34 && t[1..] == Escape(s) + [34] + rest;
  }

  // ----- Reading a number -----

  /** What may follow a value: nothing that would lengthen a number. */
  predicate Ends(rest: Text) {
    rest == [] || !IsDigit(rest[0])
  }

  lemma {:induction false} DigitsRead(n: nat)
    ensures |Digits(n)| > 0 && (forall i :: 0 <= i < |Digits(n)| ==> IsDigit(Digits(n)[i])) && DigitsValue(Digits(n)) == n
  {
    if n >= 10 {
      DigitsRead(n / 10);
      assert Digits(n)[..|Digits(n)| - 1] == Digits(n / 10);
    }
  }

  lemma {:induction false} CountDigits(s: Text, rest: Text)
    requires (forall i :: 0 <= i < |s| ==> IsDigit(s[i])) && Ends(rest)
    ensures DigitCount(s + rest) == |s|
  {
    if s == [] {
      assert s + rest == rest;
    } else {
      CountDigits(s[1..], rest);
      assert (s + rest)[1..] == s[1..] + rest && (s + rest)[0] == s[0];
    }
  }

  lemma DigitsBack(n: nat, rest: Text)
    requires Ends(rest)
    ensures ReadDigits(Digits(n) + rest) == Got(n, rest)
  {
    DigitsRead(n);
    CountDigits(Digits(n), rest);
    hide Digits, DigitsValue, DigitCount;
    var t := Digits(n) + rest;
    assert t[..|Digits(n)|] == Digits(n) && t[|Digits(n)|..] == rest;
  }

  lemma NegativeBack(n: nat, rest: Text)
    requires n > 0 && ReadDigits(Digits(n) + rest) == Got(n, rest)
    ensures ReadNumber([45] + Digits(n) + rest) == Got(Num(Int(0 - n)), rest)
  {
    hide Digits, ReadDigits;
    var t := [45] + Digits(n) + rest;
    assert t[0] == 45 && t[1..] == Digits(n) + rest;
  }

  lemma PositiveBack(n: nat, rest: Text)
    requires Digits(n) != [] && IsDigit(Digits(n)[0]) && ReadDigits(Digits(n) + rest) == Got(n, rest)
    ensures ReadNumber(Digits(n) + rest) == Got(Num(Int(n)), rest)
  {
    hide Digits, ReadDigits;
    assert (Digits(n) + rest)[0] == Digits(n)[0];
  }

  lemma DecimalIs(i: int)
    ensures Decimal(i) == if i < 0 then [45] + Digits(0 - i) else Digits(i)
  {
    hide Digits;
  }

  lemma DecimalBack(i: int, rest: Text)
    requires Ends(rest)
    ensures ReadNumber(Decimal(i) + rest) == Got(Num(Int(i)), rest)
    ensures Decimal(i) != [] && (IsDigit(Decimal(i)[0]) || Decimal(i)[0] == 45)
  {
    hide *;
    DecimalIs(i);
    DigitsRead(if i < 0 then 0 - i else i);
    DigitsBack(if i < 0 then 0 - i else i, rest);
    if i < 0 { NegativeBack(0 - i, rest); } else { PositiveBack(i, rest); }
  }

  // ----- Reading a value -----

  /** The text reads as the value, whatever follows it. */
  ghost predicate Reads(t: Text, v: Json) {
    forall rest :: Ends(rest) ==> ReadValue(t + rest) == Got(v, rest)
  }

  /** A text cannot be taken for the end of an empty container. */
  predicate Starts(t: Text) {
    t != [] && t[0] != 93 && t[0] != 125
  }

  lemma WordReads(word: Text, v: Json)
    requires (word == [110, 117, 108, 108] && v == Null) || (word == [116, 114, 117, 101] && v == Bool(true))
             || (word == [102, 97, 108, 115, 101] && v == Bool(false))
    ensures Reads(word, v)
  {
    hide ReadItems, ReadMembers, ReadNumber, ReadString;
    forall rest | Ends(rest) ensures ReadValue(word + rest) == Got(v, rest) {
      var t := word + rest;
      assert word <= t && t[|word|..] == rest && t[0] == word[0];
    }
  }

  lemma NumberReads(i: int)
    ensures Reads(Decimal(i), Num(Int(i))) && Starts(Decimal(i))
  {
    hide Decimal;
    DecimalBack(i, []);
    forall rest | Ends(rest) ensures ReadValue(Decimal(i) + rest) == Got(Num(Int(i)), rest) {
      DecimalBack(i, rest);
      hide ReadItems, ReadMembers, ReadNumber, ReadString, ReadWord, Decimal;
      var t := Decimal(i) + rest;
      assert t[0] == Decimal(i)[0];
    }
  }

  lemma StringReads(s: Text)
    ensures Reads(Quote(s), Str(s))
  {
    forall rest | Ends(rest) ensures ReadValue(Quote(s) + rest) == Got(Str(s), rest) {
      ReadQuoted(s, rest);
      hide ReadItems, ReadMembers, ReadNumber, ReadString, ReadWord, Escape;
      assert (Quote(s) + rest)[0] == 34;
    }
  }

  ghost predicate ItemsRead(ts: seq<Text>, vs: seq<Json>) {
    |ts| == |vs| && forall i :: 0 <= i < |ts| ==> Reads(ts[i], vs[i]) && Starts(ts[i])
  }

  lemma Regroup(a: Text, b: Text, c: Text, rest: Text)
    ensures (a + b + c) + rest == a + (b + (c + rest))
  {
    hide *;
  }

  lemma JoinMore(ts: seq<Text>, rest: Text)
    requires |ts| > 1
    ensures Join(ts) + rest == ts[0] + ([44] + (Join(ts[1..]) + rest))
  {
    Regroup(ts[0], [44], Join(ts[1..]), rest);
  }

  lemma JoinOne(ts: seq<Text>)
    requires |ts| == 1
    ensures Join(ts) == ts[0]
  {
  }

  /** The first text reads back before any of the marks that can follow it. */
  lemma HeadReads(ts: seq<Text>, vs: seq<Json>, after: Text)
    requires ItemsRead(ts, vs) && ts != [] && Ends(after)
    ensures |ts| == |vs| && ReadValue(ts[0] + after) == Got(vs[0], after)
  {
    hide ReadValue;
    assert Reads(ts[0], vs[0]);
  }

  lemma MarkEnds(mark: int, rest: Text)
    requires mark == 44 || mark == 93
    ensures Ends([mark] + rest) && ([mark] + rest)[0] == mark && ([mark] + rest)[1..] == rest
  {
  }

  lemma ItemsReadTail(ts: seq<Text>, vs: seq<Json>)
    requires ItemsRead(ts, vs) && ts != []
    ensures |ts| == |vs| && ItemsRead(ts[1..], vs[1..])
  {
    hide Reads, Starts;
    forall i | 0 <= i < |ts| - 1 ensures Reads(ts[1..][i], vs[1..][i]) && Starts(ts[1..][i]) {
      assert Reads(ts[i + 1], vs[i + 1]);
    }
  }

  /** What the reader of items does once it has its first value. */
  lemma ReadItemsStep(s: Text, v: Json, after: Text)
    requires ReadValue(s) == Got(v, after) && after != []
    ensures after[0] == 93 ==> ReadItems(s) == Got([v], after[1..])
    ensures after[0] == 44 && ReadItems(after[1..]).Got? ==>
              ReadItems(s) == Got([v] + ReadItems(after[1..]).value, ReadItems(after[1..]).rest)
  {
    hide ReadValue;
  }

  lemma {:induction false} ItemsBack(ts: seq<Text>, vs: seq<Json>, rest: Text)
    requires ItemsRead(ts, vs) && ts != []
    ensures ReadItems(Join(ts) + ([93] + rest)) == Got(vs, rest)
    decreases |ts|
  {
    hide *;
    var close := [93] + rest;
    MarkEnds(93, rest);
    if |ts| == 1 {
      HeadReads(ts, vs, close);
      JoinOne(ts);
      ReadItemsStep(ts[0] + close, vs[0], close);
      assert vs == [vs[0]];
    } else {
      ItemsReadTail(ts, vs);
      ItemsBack(ts[1..], vs[1..], rest);
      JoinMore(ts, close);
      var after := [44] + (Join(ts[1..]) + close);
      MarkEnds(44, Join(ts[1..]) + close);
      HeadReads(ts, vs, after);
      ReadItemsStep(ts[0] + after, vs[0], after);
      assert vs == [vs[0]] + vs[1..];
    }
  }

  ghost predicate MembersRead(ts: seq<Keyed<Text>>, vs: seq<Keyed<Json>>) {
    |ts| == |vs| && forall i :: 0 <= i < |ts| ==> ts[i].key == vs[i].key && Reads(ts[i].value, vs[i].value)
  }

  lemma MembersReadTail(ts: seq<Keyed<Text>>, vs: seq<Keyed<Json>>)
    requires MembersRead(ts, vs) && ts != []
    ensures MembersRead(ts[1..], vs[1..])
  {
    hide Reads;
    forall i | 0 <= i < |ts| - 1 ensures ts[1..][i].key == vs[1..][i].key && Reads(ts[1..][i].value, vs[1..][i].value) {
      assert Reads(ts[i + 1].value, vs[i + 1].value);
    }
  }

  lemma ReadMembersStep(s: Text, key: Text, colon: Text, v: Json, after: Text)
    requires ReadString(s) == Got(key, colon) && colon != [] && colon[0] == 58
    requires ReadValue(colon[1..]) == Got(v, after) && after != []
    ensures after[0] == 125 ==> ReadMembers(s) == Got([Keyed(key, v)], after[1..])
    ensures after[0] == 44 && ReadMembers(after[1..]).Got? ==>
              ReadMembers(s) == Got([Keyed(key, v)] + ReadMembers(after[1..]).value, ReadMembers(after[1..]).rest)
  {
    hide ReadValue, ReadString;
  }

  lemma MemberBack(m: Keyed<Text>, v: Json, after: Text)
    requires Reads(m.value, v) && Ends(after)
    ensures var colon := [58] + (m.value + after);
            && ReadString(MemberText(m) + after) == Got(m.key, colon)
            && colon[0] == 58 && ReadValue(colon[1..]) == Got(v, after)
  {
    var colon := [58] + (m.value + after);
    ReadQuoted(m.key, colon);
    hide ReadString, Quote, ReadValue;
    assert MemberText(m) + after == Quote(m.key) + colon;
    assert colon[1..] == m.value + after;
  }

  lemma {:induction false} MembersBack(ts: seq<Keyed<Text>>, vs: seq<Keyed<Json>>, rest: Text)
    requires MembersRead(ts, vs) && ts != []
    ensures ReadMembers(Join(MemberTexts(ts)) + ([125] + rest)) == Got(vs, rest)
    decreases |ts|
  {
    hide ReadMembers, ReadValue, ReadString, MemberText, Reads;
    var close := [125] + rest;
    assert close[0] == 125 && close[1..] == rest;
    var texts := MemberTexts(ts);
    assert texts[0] == MemberText(ts[0]) && texts[1..] == MemberTexts(ts[1..]);
    assert vs[0] == Keyed(ts[0].key, vs[0].value);
    if |ts| == 1 {
      MemberBack(ts[0], vs[0].value, close);
      ReadMembersStep(texts[0] + close, ts[0].key, [58] + (ts[0].value + close), vs[0].value, close);
      assert vs == [vs[0]];
    } else {
      MembersReadTail(ts, vs);
      MembersBack(ts[1..], vs[1..], rest);
      JoinMore(texts, close);
      var after := [44] + (Join(texts[1..]) + close);
      assert after[0] == 44 && after[1..] == Join(texts[1..]) + close;
      MemberBack(ts[0], vs[0].value, after);
      ReadMembersStep(texts[0] + after, ts[0].key, [58] + (ts[0].value + after), vs[0].value, after);
      assert vs == [vs[0]] + vs[1..];
    }
  }

  // ----- Sorting commutes with encoding -----

  lemma {:induction false} InsertedRead(t: Keyed<Text>, ts: seq<Keyed<Text>>, v: Keyed<Json>, vs: seq<Keyed<Json>>)
    requires MembersRead(ts, vs) && t.key == v.key && Reads(t.value, v.value)
    ensures MembersRead(InsertKey(t, ts), InsertKey(v, vs))
  {
    hide Reads, Less;
    if ts != [] && Less(ts[0].key, t.key) {
      MembersReadTail(ts, vs);
      InsertedRead(t, ts[1..], v, vs[1..]);
      var a, b := InsertKey(t, ts[1..]), InsertKey(v, vs[1..]);
      forall i | 0 <= i < |ts| + 1
        ensures InsertKey(t, ts)[i].key == InsertKey(v, vs)[i].key && Reads(InsertKey(t, ts)[i].value, InsertKey(v, vs)[i].value) {
        if i > 0 { assert InsertKey(t, ts)[i] == a[i - 1] && InsertKey(v, vs)[i] == b[i - 1]; }
      }
    } else {
      assert InsertKey(t, ts) == [t] + ts;
      assert vs != [] ==> vs[0].key == ts[0].key;
      assert InsertKey(v, vs) == [v] + vs;
    }
  }

  lemma {:induction false} SortedRead(ts: seq<Keyed<Text>>, vs: seq<Keyed<Json>>)
    requires MembersRead(ts, vs)
    ensures MembersRead(SortKeys(ts), SortKeys(vs))
  {
    hide Reads;
    if ts != [] {
      MembersReadTail(ts, vs);
      SortedRead(ts[1..], vs[1..]);
      assert Reads(ts[0].value, vs[0].value);
      InsertedRead(ts[0], SortKeys(ts[1..]), vs[0], SortKeys(vs[1..]));
    }
  }

  lemma EmptyReads(open: Unit, close: Unit, v: Json)
    requires (open == 91 && close == 93 && v == Arr([])) || (open == 123 && close == 125 && v == Obj([]))
    ensures Reads([open] + [] + [close], v)
  {
    hide ReadItems, ReadMembers, ReadNumber, ReadString, ReadWord;
    forall rest | Ends(rest) ensures ReadValue([open] + [] + [close] + rest) == Got(v, rest) {
      var t := [open] + [] + [close] + rest;
      assert t[0] == open && t[1] == close && t[2..] == rest;
    }
  }

  lemma ArrayReads(ts: seq<Text>, vs: seq<Json>)
    requires ItemsRead(ts, vs)
    ensures Reads([91] + Join(ts) + [93], Arr(vs))
  {
    if ts == [] {
      EmptyReads(91, 93, Arr(vs));
    } else {
      forall rest | Ends(rest) ensures ReadValue([91] + Join(ts) + [93] + rest) == Got(Arr(vs), rest) {
        ItemsBack(ts, vs, rest);
        assert Starts(ts[0]);
        ArrayReadsStep(Join(ts), vs, rest, ts);
      }
    }
  }

  lemma ArrayReadsStep(body: Text, vs: seq<Json>, rest: Text, ts: seq<Text>)
    requires ts != [] && body == Join(ts) && Starts(ts[0]) && ReadItems(body + ([93] + rest)) == Got(vs, rest)
    ensures ReadValue([91] + body + [93] + rest) == Got(Arr(vs), rest)
  {
    hide ReadItems, ReadMembers, ReadNumber, ReadString, ReadWord;
    var t := [91] + body + [93] + rest;
    assert t[1..] == body + ([93] + rest);
    assert body[0] == ts[0][0] && t[1] == body[0];
  }

  lemma ObjectReads(ts: seq<Keyed<Text>>, vs: seq<Keyed<Json>>)
    requires MembersRead(ts, vs)
    ensures Reads([123] + Join(MemberTexts(ts)) + [125], Obj(vs))
  {
    if ts == [] {
      EmptyReads(123, 125, Obj(vs));
    } else {
      forall rest | Ends(rest) ensures ReadValue([123] + Join(MemberTexts(ts)) + [125] + rest) == Got(Obj(vs), rest) {
        MembersBack(ts, vs, rest);
        ObjectReadsStep(MemberTexts(ts), ts, vs, rest);
      }
    }
  }

  lemma ObjectReadsStep(texts: seq<Text>, ts: seq<Keyed<Text>>, vs: seq<Keyed<Json>>, rest: Text)
    requires ts != [] && texts == MemberTexts(ts) && ReadMembers(Join(texts) + ([125] + rest)) == Got(vs, rest)
    ensures ReadValue([123] + Join(texts) + [125] + rest) == Got(Obj(vs), rest)
  {
    hide ReadItems, ReadMembers, ReadNumber, ReadString, ReadWord, Escape;
    var body := Join(texts);
    var t := [123] + body + [125] + rest;
    assert t[1..] == body + ([125] + rest);
    assert texts[0] == MemberText(ts[0]) && texts[0][0] == 34;
    assert body[0] == texts[0][0] && t[1] == body[0];
  }

  // ----- The round trip -----

  lemma {:induction false} EncodingReads(v: Json)
    requires Encode(v).Some?
    ensures Reads(Encode(v).value, Sorted(v)) && Starts(Encode(v).value)
    decreases v
  {
    match v
    case Null => WordReads(Encode(v).value, v);
    case Bool(_) => WordReads(Encode(v).value, v);
    case Num(n) => NumberReads(n.value);
    case Str(s) => StringReads(s);
    case Arr(items) =>
      ItemEncodingsRead(items);
      hide Reads;
      ArrayReads(EncodeItems(items).value, SortedItems(items));
    case Obj(members) =>
      MemberEncodingsRead(members);
      hide Reads;
      SortedRead(EncodeMembers(members).value, SortedMembers(members));
      ObjectReads(SortKeys(EncodeMembers(members).value), SortKeys(SortedMembers(members)));
  }

  lemma {:induction false} ItemEncodingsRead(items: seq<Json>)
    requires EncodeItems(items).Some?
    ensures ItemsRead(EncodeItems(items).value, SortedItems(items))
    decreases items
  {
    hide Reads, Starts;
    if items != [] {
      EncodingReads(items[0]);
      ItemEncodingsRead(items[1..]);
      ItemsReadCons(Encode(items[0]).value, EncodeItems(items[1..]).value, Sorted(items[0]), SortedItems(items[1..]));
    }
  }

  lemma ItemsReadCons(t: Text, ts: seq<Text>, v: Json, vs: seq<Json>)
    requires Reads(t, v) && Starts(t) && ItemsRead(ts, vs)
    ensures ItemsRead([t] + ts, [v] + vs)
  {
    hide Reads, Starts;
  }

  lemma {:induction false} MemberEncodingsRead(members: seq<Keyed<Json>>)
    requires EncodeMembers(members).Some?
    ensures MembersRead(EncodeMembers(members).value, SortedMembers(members))
    decreases members
  {
    hide Reads, KeyOk;
    if members != [] {
      EncodingReads(members[0].value);
      MemberEncodingsRead(members[1..]);
    }
  }

  /** Parsing the canonical text of a value gives the value back, its keys sorted. */
  lemma RoundTrip(v: Json)
    requires Encode(v).Some?
    ensures Parse(Encode(v).value) == Some(Sorted(v))
  {
    EncodingReads(v);
    hide Encode, Sorted, ReadValue;
    assert Encode(v).value + [] == Encode(v).value;
  }
}
