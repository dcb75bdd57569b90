/**
  Domain-separated hashing: every part is preceded by its length in eight bytes, so the bytes fed to
  SHA-256 determine the parts, and through canonical JSON the value up to key order.
 */
module Hashing {
  import opened Base
  import opened Text
  import opened Json
  import opened JsonRoundTrip
  import opened JsonCanonical
  import JsonWalker

  function BigEndian(n: nat, k: nat): (r: Bytes)
    ensures |r| == k
  {
    if k == 0 then [] else BigEndian(n / 256, k - 1) + [n % 256]
  }

  function Power256(k: nat): nat {
    if k == 0 then 1 else 256 * Power256(k - 1)
  }

  lemma {:induction false} BigEndianInjective(n: nat, m: nat, k: nat)
    requires n < Power256(k) && m < Power256(k) && BigEndian(n, k) == BigEndian(m, k)
    ensures n == m
  {
    if k > 0 {
      var a, b := BigEndian(n / 256, k - 1), BigEndian(m / 256, k - 1);
      assert BigEndian(n, k)[..k - 1] == a && BigEndian(m, k)[..k - 1] == b;
      assert BigEndian(n, k)[k - 1] == n % 256 && BigEndian(m, k)[k - 1] == m % 256;
      BigEndianInjective(n / 256, m / 256, k - 1);
    }
  }

  /** The number a list of bytes writes, the most significant byte first. */
  function BytesValue(s: Bytes): nat {
    if s == [] then 0 else 256 * BytesValue(s[..|s| - 1]) + s[|s| - 1]
  }

  lemma {:induction false} BigEndianMeans(n: nat, k: nat)
    requires n < Power256(k)
    ensures BytesValue(BigEndian(n, k)) == n
  {
    if k > 0 {
      var front := BigEndian(n / 256, k - 1);
      BigEndianMeans(n / 256, k - 1);
      assert BigEndian(n, k)[..k - 1] == front;
    }
  }

  /** One part under its length. */
  function Framed(part: Bytes): Bytes {
    BigEndian(|part|, 8) + part
  }

  /** The bytes hashed for a list of parts. */
  function HashInput(parts: seq<Bytes>): Bytes {
    if parts == [] then [] else Framed(parts[0]) + HashInput(parts[1..])
  }

  /** The length of a part fits its eight bytes, as the length of any buffer does. */
  predicate Fits(parts: seq<Bytes>) {
    forall i :: 0 <= i < |parts| ==> |parts[i]| < Power256(8)
  }

  lemma FramedSplits(p: Bytes, x: Bytes, q: Bytes, y: Bytes)
    requires |p| < Power256(8) && |q| < Power256(8) && Framed(p) + x == Framed(q) + y
    ensures p == q && x == y
  {
    hide BigEndian, Power256;
    var s, t := Framed(p) + x, Framed(q) + y;
    assert s[..8] == BigEndian(|p|, 8) && t[..8] == BigEndian(|q|, 8);
    BigEndianInjective(|p|, |q|, 8);
    assert s[8..8 + |p|] == p && t[8..8 + |q|] == q;
    assert s[8 + |p|..] == x && t[8 + |q|..] == y;
  }

  /** A framed part: its length in eight bytes, most significant first, and then its bytes. */
  lemma FramedMeans(part: Bytes)
    requires |part| < Power256(8)
    ensures var f := Framed(part); |f| == 8 + |part| && BytesValue(f[..8]) == |part| && f[8..] == part
  {
    hide BigEndian, Power256, BytesValue;
    BigEndianMeans(|part|, 8);
    assert Framed(part)[..8] == BigEndian(|part|, 8);
  }

  /** The bytes hashed determine the parts, and how many there were. */
  lemma {:induction false} FramingInjective(a: seq<Bytes>, b: seq<Bytes>)
    requires Fits(a) && Fits(b) && HashInput(a) == HashInput(b)
    ensures a == b
  {
    hide Power256, BigEndian;
    if a == [] || b == [] {
      assert a == [] || |HashInput(a)| >= 8;
      assert b == [] || |HashInput(b)| >= 8;
    } else {
      FramedSplits(a[0], HashInput(a[1..]), b[0], HashInput(b[1..]));
      FramingInjective(a[1..], b[1..]);
      assert a == [a[0]] + a[1..] && b == [b[0]] + b[1..];
    }
  }

  lemma {:induction false} InputAppended(parts: seq<Bytes>, part: Bytes)
    ensures HashInput(parts + [part]) == HashInput(parts) + Framed(part)
  {
    hide Framed;
    if parts == [] {
      assert [] + [part] == [part] && [part][1..] == [];
    } else {
      assert (parts + [part])[1..] == parts[1..] + [part];
      InputAppended(parts[1..], part);
    }
  }

  /** The loop that feeds the hash, part after part. */
  method HashParts(domain: Text, parts: seq<Bytes>) returns (fed: Bytes)
    ensures fed == HashInput([Utf8(domain)] + parts)
  {
    var all := [Utf8(domain)] + parts;
    fed := [];
    var i := 0;
    while i < |all|
      invariant 0 <= i <= |all| && fed == HashInput(all[..i])
    {
      fed := fed + BigEndian(|all[i]|, 8);
      fed := fed + all[i];
      InputAppended(all[..i], all[i]);
      assert all[..i + 1] == all[..i] + [all[i]];
      i := i + 1;
    }
    assert all[..i] == all;
  }

  /** What `canonicalHash` feeds the hash for a domain and a value. */
  function CanonicalInput(domain: Text, v: Json): Option<Bytes> {
    if Encode(v).None? then None else Some(HashInput([Utf8(domain), Utf8(Encode(v).value)]))
  }

  lemma TwoParts(a: Bytes, b: Bytes)
    ensures HashInput([a, b]) == Framed(a) + Framed(b)
  {
    InputAppended([], a);
    InputAppended([a], b);
    assert [] + [a] == [a] && [a] + [b] == [a, b];
  }

  method CanonicalHash(domain: Text, v: Json) returns (fed: Option<Bytes>)
    ensures fed == CanonicalInput(domain, v)
  {
    var text := Encode(v);
    if text.None? { return None; }
    assert [Utf8(domain)] + [Utf8(text.value)] == [Utf8(domain), Utf8(text.value)];
    var bytes := HashParts(domain, [Utf8(text.value)]);
    fed := Some(bytes);
  }

  lemma CanonicalInputIs(domain: Text, v: Json)
    ensures CanonicalInput(domain, v)
              == if Encode(v).None? then None else Some(Framed(Utf8(domain)) + Framed(Utf8(Encode(v).value)))
  {
    if Encode(v).Some? { TwoParts(Utf8(domain), Utf8(Encode(v).value)); }
    hide Encode, Framed, Utf8, HashInput;
  }

  /** The journal's own framing feeds the hash the same bytes. */
  method FramedHash(domain: Text, preimage: Json) returns (fed: Option<Bytes>)
    ensures fed == CanonicalInput(domain, preimage)
  {
    hide *;
    CanonicalInputIs(domain, preimage);
    var text := Encode(preimage);
    if text.None? { return None; }
    var bytes: Bytes := Framed(Utf8(domain));
    bytes := bytes + Framed(Utf8(text.value));
    fed := Some(bytes);
  }

  ghost predicate Injective(sha: Bytes -> nat) {
    forall x: Bytes, y: Bytes :: sha(x) == sha(y) ==> x == y
  }

  /** The bytes of the domain and of the canonical text fit their length prefixes. */
  predicate Hashable(domain: Text, v: Json) {
    Scalar(domain) && Encode(v).Some? && |Utf8(domain)| < Power256(8) && |Utf8(Encode(v).value)| < Power256(8)
  }

  lemma EncodingScalar(v: Json)
    requires Encode(v).Some?
    ensures Scalar(Encode(v).value)
  {
    JsonWalker.BytesExact(v, Limits(1, 1, 1, 1, 1, 1));
  }

  /** A canonical hash names exactly one domain and one value up to key order. */
  lemma HashDetermines(sha: Bytes -> nat, d: Text, v: Json, e: Text, w: Json)
    requires Injective(sha) && Hashable(d, v) && Hashable(e, w) && WellKeyed(v) && WellKeyed(w)
    ensures sha(CanonicalInput(d, v).value) == sha(CanonicalInput(e, w).value) <==> d == e && Alike(v, w)
  {
    hide Encode, Scalar, Utf8, Power256, Alike, WellKeyed, HashInput;
    var a, b := [Utf8(d), Utf8(Encode(v).value)], [Utf8(e), Utf8(Encode(w).value)];
    CanonicalUpToOrder(v, w);
    if sha(HashInput(a)) == sha(HashInput(b)) {
      assert Fits(a) && Fits(b);
      FramingInjective(a, b);
      assert a[0] == b[0] && a[1] == b[1];
      EncodingScalar(v);
      EncodingScalar(w);
      Utf8Injective(d, e);
      Utf8Injective(Encode(v).value, Encode(w).value);
    }
  }

  /** A domain with an unpaired surrogate is not told apart from one with the replacement character. */
  lemma UnpairedDomainCollides(v: Json)
    ensures CanonicalInput([0xD800], v) == CanonicalInput([0xFFFD], v)
  {
    ReplacementCollides();
  }
}
