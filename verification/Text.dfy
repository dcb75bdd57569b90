/** JavaScript strings as sequences of UTF-16 code units, and their UTF-8 bytes. */
module Text {
  type Unit = u: nat | u < 0x10000
  type Byte = b: nat | b < 0x100
  type Text = seq<Unit>
  type Bytes = seq<Byte>

  predicate IsHigh(u: Unit) {
    0xD800 <= u <= 0xDBFF
  }

  predicate IsLow(u: Unit) {
    0xDC00 <= u <= 0xDFFF
  }

  predicate PairAt(s: Text) {
    |s| >= 2 && IsHigh(s[0]) && IsLow(s[1])
  }

  /** No surrogate stands alone. */
  predicate Scalar(s: Text) {
    if s == [] then true
    else if PairAt(s) then Scalar(s[2..])
    else !IsHigh(s[0]) && !IsLow(s[0]) && Scalar(s[1..])
  }

  /**
    What the check accepts. Past the end of a string `charCodeAt` is not a number, and neither
    comparison with it is true, so a high surrogate that ends the string is let through.
   */
  predicate Accepted(s: Text) {
    if s == [] then true
    else if IsHigh(s[0]) then |s| == 1 || (IsLow(s[1]) && Accepted(s[2..]))
    else !IsLow(s[0]) && Accepted(s[1..])
  }

  method AssertUnicodeScalarString(s: Text) returns (ok: bool)
    ensures ok == Accepted(s)
  {
    var index := 0;
    while index < |s|
      invariant 0 <= index <= |s| + 1
      invariant Accepted(s) == (index >= |s| || Accepted(s[index..]))
    {
      var codeUnit := s[index];
      if IsHigh(codeUnit) {
        if index + 1 < |s| && !IsLow(s[index + 1]) { return false; }
        assert index + 1 < |s| ==> s[index..][2..] == s[index + 2..];
        index := index + 1;
      } else if IsLow(codeUnit) {
        return false;
      } else {
        assert s[index..][1..] == s[index + 1..];
      }
      index := index + 1;
    }
    ok := true;
  }

  /** The check accepts exactly the well-formed strings and those spoiled only by a final high surrogate. */
  lemma {:induction false} AcceptedExactly(s: Text)
    ensures Accepted(s) <==> Scalar(s) || (s != [] && IsHigh(s[|s| - 1]) && Scalar(s[..|s| - 1]))
  {
    if s == [] || |s| == 1 {
    } else if PairAt(s) {
      AcceptedExactly(s[2..]);
      if |s| > 2 {
        assert s[2..][..|s| - 3] == s[..|s| - 1][2..];
        assert s[2..][|s| - 3] == s[|s| - 1];
      }
    } else if !IsHigh(s[0]) {
      AcceptedExactly(s[1..]);
      assert s[1..][..|s| - 2] == s[..|s| - 1][1..];
      assert s[1..][|s| - 2] == s[|s| - 1];
    }
  }

  /** A string the check lets through although its last code unit is an unpaired surrogate. */
  lemma TrailingSurrogateAccepted()
    ensures Accepted([0xD800]) && !Scalar([0xD800])
  {
  }

  lemma {:induction false} ScalarConcat(a: Text, b: Text)
    requires Scalar(a) && Scalar(b)
    ensures Scalar(a + b)
  {
    if a == [] {
      assert a + b == b;
    } else if PairAt(a) {
      ScalarConcat(a[2..], b);
      assert (a + b)[2..] == a[2..] + b;
    } else {
      ScalarConcat(a[1..], b);
      assert (a + b)[1..] == a[1..] + b;
    }
  }

  // ----- UTF-8 -----

  /** The bytes of one character that fits one code unit. */
  function Narrow(u: Unit): Bytes {
    if u < 0x80 then [u]
    else if u < 0x800 then [0xC0 + u / 64, 0x80 + u % 64]
    else [0xE0 + u / 4096, 0x80 + u / 64 % 64, 0x80 + u % 64]
  }

  /** The bytes of a surrogate pair. */
  function Wide(h: Unit, l: Unit): Bytes
    requires IsHigh(h) && IsLow(l)
  {
    var c := 0x10000 + (h - 0xD800) * 1024 + (l - 0xDC00);
    [0xF0 + c / 262144, 0x80 + c / 4096 % 64, 0x80 + c / 64 % 64, 0x80 + c % 64]
  }

  const REPLACEMENT: Bytes := [0xEF, 0xBF, 0xBD]

  /** `Buffer.from(s, "utf8")`: an unpaired surrogate becomes the replacement character. */
  function Utf8(s: Text): Bytes {
    if s == [] then []
    else if PairAt(s) then Wide(s[0], s[1]) + Utf8(s[2..])
    else if IsHigh(s[0]) || IsLow(s[0]) then REPLACEMENT + Utf8(s[1..])
    else Narrow(s[0]) + Utf8(s[1..])
  }

  lemma Utf8Pair(h: Unit, l: Unit, s: Text)
    requires IsHigh(h) && IsLow(l)
    ensures Utf8([h, l] + s) == Wide(h, l) + Utf8(s)
  {
    hide Wide, IsHigh, IsLow;
    var t := [h, l] + s;
    assert t[0] == h && t[1] == l && t[2..] == s;
  }

  lemma Utf8Unit(u: Unit, s: Text)
    requires !IsHigh(u) && !IsLow(u)
    ensures Utf8([u] + s) == Narrow(u) + Utf8(s)
  {
    hide Narrow, IsHigh, IsLow;
    var t := [u] + s;
    assert t[0] == u && t[1..] == s;
  }

  lemma Associative(a: Bytes, b: Bytes, c: Bytes)
    ensures a + b + c == a + (b + c)
  {
  }

  lemma {:induction false} Utf8Concat(a: Text, b: Text)
    requires Scalar(a)
    ensures Utf8(a + b) == Utf8(a) + Utf8(b)
  {
    hide Wide, Narrow, IsHigh, IsLow, Utf8;
    if a == [] {
      assert a + b == b;
      Utf8Empty();
    } else if PairAt(a) {
      Utf8Concat(a[2..], b);
      assert a + b == [a[0], a[1]] + (a[2..] + b) && a == [a[0], a[1]] + a[2..];
      Utf8Pair(a[0], a[1], a[2..] + b);
      Utf8Pair(a[0], a[1], a[2..]);
      Associative(Wide(a[0], a[1]), Utf8(a[2..]), Utf8(b));
    } else {
      Utf8Concat(a[1..], b);
      assert a + b == [a[0]] + (a[1..] + b) && a == [a[0]] + a[1..];
      Utf8Unit(a[0], a[1..] + b);
      Utf8Unit(a[0], a[1..]);
      Associative(Narrow(a[0]), Utf8(a[1..]), Utf8(b));
    }
  }

  lemma Utf8Empty()
    ensures forall b :: [] + Utf8(b) == Utf8(b)
    ensures Utf8([]) == []
  {
  }

  lemma NarrowInjective(u: Unit, v: Unit, x: Bytes, y: Bytes)
    requires Narrow(u) + x == Narrow(v) + y
    ensures u == v && x == y
  {
    var p, q := Narrow(u) + x, Narrow(v) + y;
    assert p[0] == Narrow(u)[0] && q[0] == Narrow(v)[0];
    assert |Narrow(u)| == |Narrow(v)|;
    assert forall i :: 0 <= i < |Narrow(u)| ==> p[i] == Narrow(u)[i] && q[i] == Narrow(v)[i];
    assert x == p[|Narrow(u)|..] && y == q[|Narrow(v)|..];
    Split(u);
    Split(v);
  }

  lemma Split(u: nat)
    ensures u == 64 * (u / 64) + u % 64
    ensures u == 4096 * (u / 4096) + 64 * (u / 64 % 64) + u % 64
  {
    assert u / 64 / 64 == u / 4096;
  }

  lemma WideInjective(h: Unit, l: Unit, i: Unit, m: Unit, x: Bytes, y: Bytes)
    requires IsHigh(h) && IsLow(l) && IsHigh(i) && IsLow(m)
    requires Wide(h, l) + x == Wide(i, m) + y
    ensures h == i && l == m && x == y
  {
    var p, q := Wide(h, l) + x, Wide(i, m) + y;
    assert forall k :: 0 <= k < 4 ==> p[k] == Wide(h, l)[k] && q[k] == Wide(i, m)[k];
    assert x == p[4..] && y == q[4..];
    var c, d := 0x10000 + (h - 0xD800) * 1024 + (l - 0xDC00), 0x10000 + (i - 0xD800) * 1024 + (m - 0xDC00);
    SplitWide(c);
    SplitWide(d);
    assert c == d;
  }

  lemma SplitWide(c: nat)
    ensures c == 262144 * (c / 262144) + 4096 * (c / 4096 % 64) + 64 * (c / 64 % 64) + c % 64
  {
    assert c / 64 / 64 == c / 4096 && c / 4096 / 64 == c / 262144;
  }

  lemma LeadByte(u: Unit)
    ensures Narrow(u)[0] < 0xF0
  {
  }

  /** Well-formed strings with the same bytes are the same string. */
  lemma {:induction false} Utf8Injective(a: Text, b: Text)
    requires Scalar(a) && Scalar(b) && Utf8(a) == Utf8(b)
    ensures a == b
  {
    if a == [] || b == [] {
    } else if PairAt(a) && PairAt(b) {
      WideInjective(a[0], a[1], b[0], b[1], Utf8(a[2..]), Utf8(b[2..]));
      Utf8Injective(a[2..], b[2..]);
      assert a == [a[0], a[1]] + a[2..] && b == [b[0], b[1]] + b[2..];
    } else if PairAt(a) {
      assert Utf8(a)[0] >= 0xF0;
      assert Utf8(b)[0] == Narrow(b[0])[0];
      LeadByte(b[0]);
    } else if PairAt(b) {
      assert Utf8(b)[0] >= 0xF0;
      assert Utf8(a)[0] == Narrow(a[0])[0];
      LeadByte(a[0]);
    } else {
      NarrowInjective(a[0], b[0], Utf8(a[1..]), Utf8(b[1..]));
      Utf8Injective(a[1..], b[1..]);
      assert a == [a[0]] + a[1..] && b == [b[0]] + b[1..];
    }
  }

  /** Outside well-formed strings the bytes do not determine the string. */
  lemma ReplacementCollides()
    ensures Utf8([0xD800]) == Utf8([0xFFFD]) && [0xD800] != [0xFFFD]
  {
    assert Utf8([0xD800]) == REPLACEMENT + Utf8([]);
    assert Utf8([0xFFFD]) == Narrow(0xFFFD) + Utf8([]);
  }

  // ----- Reading the bytes back, by section 3 of RFC 3629 -----

  datatype Point = NoPoint | Point(value: nat, rest: Bytes)

  predicate Tail(b: Byte) {
    0x80 <= b < 0xC0
  }

  /** What a byte carries beside its mark. */
  function Payload(b: nat, mark: nat): nat
    requires mark <= b
  {
    b - mark
  }

  /** The character beyond the first plane that a surrogate pair stands for. */
  function Astral(h: nat, l: nat): nat
    requires 0xD800 <= h && 0xDC00 <= l
  {
    0x10000 + (h - 0xD800) * 1024 + (l - 0xDC00)
  }

  /** The first character of a byte string. */
  function ReadPoint(b: Bytes): (r: Point)
    ensures r.Point? ==> |r.rest| < |b|
  {
    if b == [] then NoPoint
    else if b[0] < 0x80 then Point(b[0], b[1..])
    else if 0xC0 <= b[0] < 0xE0 && |b| >= 2 && Tail(b[1]) then Point(Payload(b[0], 0xC0) * 64 + Payload(b[1], 0x80), b[2..])
    else if 0xE0 <= b[0] < 0xF0 && |b| >= 3 && Tail(b[1]) && Tail(b[2]) then
      Point((Payload(b[0], 0xE0) * 64 + Payload(b[1], 0x80)) * 64 + Payload(b[2], 0x80), b[3..])
    else if 0xF0 <= b[0] < 0xF8 && |b| >= 4 && Tail(b[1]) && Tail(b[2]) && Tail(b[3]) then
      Point(((Payload(b[0], 0xF0) * 64 + Payload(b[1], 0x80)) * 64 + Payload(b[2], 0x80)) * 64 + Payload(b[3], 0x80), b[4..])
    else NoPoint
  }

  function ReadPoints(b: Bytes): seq<nat>
    decreases |b|
  {
    var first := ReadPoint(b);
    if first.NoPoint? then [] else [first.value] + ReadPoints(first.rest)
  }

  /** The characters of a string: a pair stands for one beyond the first plane, a surrogate alone for the replacement character. */
  function Points(s: Text): seq<nat> {
    if s == [] then []
    else if PairAt(s) then [Astral(s[0], s[1])] + Points(s[2..])
    else [if 0xD800 <= s[0] <= 0xDFFF then 0xFFFD else s[0] as nat] + Points(s[1..])
  }

  lemma NarrowRead(u: Unit, x: Bytes)
    ensures ReadPoint(Narrow(u) + x) == Point(u, x)
  {
    var b := Narrow(u) + x;
    Split(u);
    assert forall i :: 0 <= i < |Narrow(u)| ==> b[i] == Narrow(u)[i];
    assert b[|Narrow(u)|..] == x;
  }

  lemma WideRead(h: Unit, l: Unit, x: Bytes)
    requires IsHigh(h) && IsLow(l)
    ensures ReadPoint(Wide(h, l) + x) == Point(Astral(h, l), x)
  {
    var b, c := Wide(h, l) + x, 0x10000 + (h - 0xD800) * 1024 + (l - 0xDC00);
    SplitWide(c);
    assert forall i :: 0 <= i < 4 ==> b[i] == Wide(h, l)[i];
    assert b[4..] == x;
  }

  lemma ReplacementRead(x: Bytes)
    ensures ReadPoint(REPLACEMENT + x) == Point(0xFFFD, x)
  {
    var b := REPLACEMENT + x;
    assert b[0] == 0xEF && b[1] == 0xBF && b[2] == 0xBD && b[3..] == x;
  }

  lemma PointsFirst(b: Bytes, value: nat, rest: Bytes)
    requires ReadPoint(b) == Point(value, rest)
    ensures ReadPoints(b) == [value] + ReadPoints(rest)
  {
  }

  /** The bytes are UTF-8: read back they are the characters of the string, in order. */
  lemma {:induction false} Utf8ReadBack(s: Text)
    ensures ReadPoints(Utf8(s)) == Points(s)
  {
    hide Narrow, Wide, ReadPoint, ReadPoints;
    if s == [] {
      NothingRead();
    } else if PairAt(s) {
      Utf8ReadBack(s[2..]);
      WideRead(s[0], s[1], Utf8(s[2..]));
      PointsFirst(Utf8(s), Astral(s[0], s[1]), Utf8(s[2..]));
    } else if IsHigh(s[0]) || IsLow(s[0]) {
      Utf8ReadBack(s[1..]);
      ReplacementRead(Utf8(s[1..]));
      PointsFirst(Utf8(s), 0xFFFD, Utf8(s[1..]));
    } else {
      Utf8ReadBack(s[1..]);
      NarrowRead(s[0], Utf8(s[1..]));
      PointsFirst(Utf8(s), s[0], Utf8(s[1..]));
    }
  }

  lemma NothingRead()
    ensures ReadPoints([]) == []
  {
  }
}
