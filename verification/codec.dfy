/**
 The serialized form of an array of byte strings (lazyslice): a two-byte prefix
 holding a length class and the number of elements, then each element preceded by
 its length in as many bytes as the class says.
 */
module Codec {
  import opened Bytes

  const MAX_ARRAY_LEN: nat := 0x3FFF

  /** Length class 0, 1, 2, 3: the element length takes 0, 1, 2 or 4 bytes. */
  type LenClass = c: int | 0 <= c < 4

  function Width(c: LenClass): (w: nat) {
    if c == 3 then 4 else c
  }

  function ClassOf(len: nat): LenClass {
    if len > MAX_UINT16 then 3
    else if len > MAX_UINT8 then 2
    else if len > 0 then 1
    else 0
  }

  /** The smallest class in which every element length fits. */
  function MaxClass(xs: seq<Bytes>): LenClass {
    if xs == [] then 0
    else
      var c := ClassOf(|xs[0]|);
      var d := MaxClass(xs[1..]);
      if c < d then d else c
  }

  predicate Encodable(xs: seq<Bytes>) {
    |xs| <= MAX_ARRAY_LEN && forall i :: 0 <= i < |xs| ==> |xs[i]| <= MAX_UINT32
  }

  predicate Fits(xs: seq<Bytes>, w: nat) {
    forall i :: 0 <= i < |xs| ==> |xs[i]| < Pow256(w)
  }

  function Body(xs: seq<Bytes>, w: nat): Bytes {
    if xs == [] then [] else BigEndian(|xs[0]|, w) + xs[0] + Body(xs[1..], w)
  }

  function Prefix(c: LenClass, n: nat): Bytes
    requires n <= MAX_ARRAY_LEN
  {
    BigEndian(c * 0x4000 + n, 2)
  }

  /** Serialization; None is the error of the original (too many or too long elements). */
  function Encode(xs: seq<Bytes>): Option<Bytes> {
    if Encodable(xs) then
      var c := MaxClass(xs);
      Some(Prefix(c, |xs|) + Body(xs, Width(c)))
    else None
  }

  /** At most 16383 elements of at most 2^32-1 bytes. */
  lemma EncodesMeansEncodable(xs: seq<Bytes>)
    ensures Encode(xs).Some? <==> Encodable(xs)
    ensures Encodable(xs) <==> |xs| <= 16383 && forall i :: 0 <= i < |xs| ==> |xs[i]| <= 0xFFFF_FFFF
  {
  }

  /** Splits `b` into exactly `n` elements; None if it is too short or bytes are left over. */
  function Decode(b: Bytes, w: nat, n: nat): (r: Option<seq<Bytes>>)
    ensures r.Some? ==> |r.value| == n
  {
    if n == 0 then
      if b == [] then Some([]) else None
    else if |b| < w then None
    else
      var sz := FromBigEndian(b[..w]);
      if |b| < w + sz then None
      else
        match Decode(b[w + sz..], w, n - 1)
        case None => None
        case Some(tail) => Some([b[w..w + sz]] + tail)
  }

  function PrefixClass(b: Bytes): LenClass
    requires |b| >= 2
  {
    FromBigEndianRoundTrip(b[..2]);
    Pow256Values();
    FromBigEndian(b[..2]) / 0x4000
  }

  function PrefixCount(b: Bytes): (n: nat)
    requires |b| >= 2
    ensures n <= MAX_ARRAY_LEN
  {
    FromBigEndian(b[..2]) % 0x4000
  }

  /** Deserialization; None is an error or a panic of the original. */
  function Parse(b: Bytes, max: nat): (r: Option<seq<Bytes>>)
    ensures r.Some? ==> |r.value| <= max && |r.value| <= MAX_ARRAY_LEN
  {
    if |b| < 2 || PrefixCount(b) > max then None
    else Decode(b[2..], Width(PrefixClass(b)), PrefixCount(b))
  }

  // ------------------------------------------------------------------ classes and lengths

  lemma ClassFits(len: nat, c: LenClass)
    requires len <= MAX_UINT32
    ensures ClassOf(len) <= c <==> len < Pow256(Width(c))
  {
    Pow256Values();
  }

  /** A class is large enough exactly when it is at least the computed one. */
  lemma {:induction false} MaxClassIsLeast(xs: seq<Bytes>, c: LenClass)
    requires forall i :: 0 <= i < |xs| ==> |xs[i]| <= MAX_UINT32
    ensures MaxClass(xs) <= c <==> Fits(xs, Width(c))
  {
    if xs == [] {
    } else {
      MaxClassIsLeast(xs[1..], c);
      ClassFits(|xs[0]|, c);
      assert Fits(xs, Width(c)) <==> |xs[0]| < Pow256(Width(c)) && Fits(xs[1..], Width(c)) by {
        assert forall i :: 0 < i < |xs| ==> xs[i] == xs[1..][i - 1];
      }
    }
  }

  function TotalLength(xs: seq<Bytes>): nat {
    if xs == [] then 0 else |xs[0]| + TotalLength(xs[1..])
  }

  lemma {:induction false} BodyLength(xs: seq<Bytes>, w: nat)
    ensures |Body(xs, w)| == |xs| * w + TotalLength(xs)
  {
    if xs == [] {
    } else {
      BodyLength(xs[1..], w);
      assert |xs| * w == w + (|xs| - 1) * w;
    }
  }

  // ------------------------------------------------------------------ the inverse pair

  lemma DecodeCons(x: Bytes, rest: Bytes, w: nat, n: nat)
    requires |x| < Pow256(w)
    ensures Decode(BigEndian(|x|, w) + x + rest, w, n + 1) ==
      match Decode(rest, w, n) case None => None case Some(tail) => Some([x] + tail)
  {
    var b := BigEndian(|x|, w) + x + rest;
    BigEndianRoundTrip(|x|, w);
    assert b[..w] == BigEndian(|x|, w);
    assert b[w..w + |x|] == x && b[w + |x|..] == rest;
  }

  lemma {:induction false} DecodeBody(xs: seq<Bytes>, w: nat)
    requires Fits(xs, w)
    ensures Decode(Body(xs, w), w, |xs|) == Some(xs)
  {
    if xs == [] {
    } else {
      var tail := xs[1..];
      assert xs == [xs[0]] + tail;
      assert Body(xs, w) == BigEndian(|xs[0]|, w) + xs[0] + Body(tail, w);
      hide Body, Decode, BigEndian, Pow256;
      assert forall i :: 0 <= i < |tail| ==> tail[i] == xs[i + 1];
      DecodeBody(tail, w);
      DecodeCons(xs[0], Body(tail, w), w, |tail|);
    }
  }

  lemma SplitElement(b: Bytes, w: nat)
    requires |b| >= w && |b| >= w + FromBigEndian(b[..w])
    ensures var x := b[w..w + FromBigEndian(b[..w])];
      |x| < Pow256(w) && b == BigEndian(|x|, w) + x + b[w + |x|..]
  {
    FromBigEndianRoundTrip(b[..w]);
  }

  lemma BodyCons(x: Bytes, tail: seq<Bytes>, w: nat)
    requires |x| < Pow256(w) && Fits(tail, w)
    ensures Fits([x] + tail, w)
    ensures Body([x] + tail, w) == BigEndian(|x|, w) + x + Body(tail, w)
  {
    assert ([x] + tail)[1..] == tail;
  }

  lemma {:induction false} DecodeOnlyBody(b: Bytes, w: nat, n: nat)
    requires Decode(b, w, n).Some?
    ensures var xs := Decode(b, w, n).value;
      |xs| == n && Fits(xs, w) && Body(xs, w) == b
  {
    if n == 0 {
    } else {
      var x := b[w..w + FromBigEndian(b[..w])];
      var rest := b[w + FromBigEndian(b[..w])..];
      var tail := Decode(rest, w, n - 1).value;
      assert Decode(b, w, n) == Some([x] + tail);
      hide Decode, Body, Fits, Pow256;
      DecodeOnlyBody(rest, w, n - 1);
      SplitElement(b, w);
      BodyCons(x, tail, w);
    }
  }

  lemma PrefixFields(c: LenClass, n: nat, b: Bytes)
    requires n <= MAX_ARRAY_LEN
    requires |b| >= 2
    ensures b[..2] == Prefix(c, n) <==> PrefixClass(b) == c && PrefixCount(b) == n
  {
    Pow256Values();
    BigEndianRoundTrip(c * 0x4000 + n, 2);
    FromBigEndianRoundTrip(b[..2]);
  }

  /** Exactly which byte strings parse to `xs`: a prefix of some class in which `xs` fits, and its body. */
  lemma {:induction false} ParseInverse(b: Bytes, max: nat, xs: seq<Bytes>)
    ensures Parse(b, max) == Some(xs) <==>
      |b| >= 2 && |xs| <= max && |xs| <= MAX_ARRAY_LEN
      && Fits(xs, Width(PrefixClass(b)))
      && b == Prefix(PrefixClass(b), |xs|) + Body(xs, Width(PrefixClass(b)))
  {
    if |b| >= 2 {
      var c := PrefixClass(b);
      if Parse(b, max) == Some(xs) {
        DecodeOnlyBody(b[2..], Width(c), PrefixCount(b));
        PrefixFields(c, |xs|, b);
        assert b == b[..2] + b[2..];
      }
      if |xs| <= max && |xs| <= MAX_ARRAY_LEN && Fits(xs, Width(c)) && b == Prefix(c, |xs|) + Body(xs, Width(c)) {
        assert b[..2] == Prefix(c, |xs|) && b[2..] == Body(xs, Width(c));
        PrefixFields(c, |xs|, b);
        DecodeBody(xs, Width(c));
      }
    }
  }

  /** Parsing what was serialized gives the array back. */
  lemma RoundTrip(xs: seq<Bytes>, max: nat)
    requires Encodable(xs)
    ensures Parse(Encode(xs).value, max) == if |xs| <= max then Some(xs) else None
  {
    var c := MaxClass(xs);
    var b := Encode(xs).value;
    assert b[..2] == Prefix(c, |xs|);
    PrefixFields(c, |xs|, b);
    MaxClassIsLeast(xs, c);
    ParseInverse(b, max, xs);
  }

  lemma ParsedFits(b: Bytes, max: nat)
    requires Parse(b, max).Some?
    ensures var xs := Parse(b, max).value;
      Encodable(xs) && |xs| <= max && |xs| == PrefixCount(b)
      && MaxClass(xs) <= PrefixClass(b)
      && b == Prefix(PrefixClass(b), |xs|) + Body(xs, Width(PrefixClass(b)))
  {
    var xs, c := Parse(b, max).value, PrefixClass(b);
    ParseInverse(b, max, xs);
    Pow256Values();
    MaxClassIsLeast(xs, c);
    DecodeOnlyBody(b[2..], Width(c), PrefixCount(b));
  }

  lemma PrefixInjective(c: LenClass, d: LenClass, n: nat)
    requires n <= MAX_ARRAY_LEN
    ensures Prefix(c, n) == Prefix(d, n) <==> c == d
  {
    Pow256Values();
    BigEndianRoundTrip(c * 0x4000 + n, 2);
    BigEndianRoundTrip(d * 0x4000 + n, 2);
  }

  lemma NarrowerIsShorter(xs: seq<Bytes>, v: nat, w: nat)
    requires v <= w
    ensures |Body(xs, v)| <= |Body(xs, w)|
  {
    BodyLength(xs, v);
    BodyLength(xs, w);
    assert |xs| * (w - v) >= 0;
  }

  /**
   Re-serializing an accepted byte string succeeds, never makes it longer, and
   reproduces it exactly when its length class was already the smallest one.
   */
  lemma Minimality(b: Bytes, max: nat)
    requires Parse(b, max).Some?
    ensures var xs := Parse(b, max).value;
      && Encodable(xs)
      && |Encode(xs).value| <= |b|
      && (Encode(xs) == Some(b) <==> PrefixClass(b) == MaxClass(xs))
  {
    var xs, c := Parse(b, max).value, PrefixClass(b);
    ParsedFits(b, max);
    var m := MaxClass(xs);
    NarrowerIsShorter(xs, Width(m), Width(c));
    PrefixInjective(m, c, |xs|);
    assert Encode(xs).value[..2] == Prefix(m, |xs|);
    assert b[..2] == Prefix(c, |xs|);
  }

  /** A larger element limit never changes a successful parse. */
  lemma ParseMonotone(b: Bytes, max: nat, max': nat)
    requires Parse(b, max).Some? && max <= max'
    ensures Parse(b, max') == Parse(b, max)
  {
  }

  // ------------------------------------------------------------------ the bytes themselves

  /** Where element `i` begins, with its length in front of it. */
  function OffsetOf(xs: seq<Bytes>, w: nat, i: nat): nat
    requires i <= |xs|
  {
    if i == 0 then 2 else OffsetOf(xs, w, i - 1) + w + |xs[i - 1]|
  }

  /** The prefix: two bits of length class, which stands for lengths of 0, 1, 2 or 4 bytes, and fourteen of count. */
  lemma PrefixBytes(b: Bytes)
    requires |b| >= 2
    ensures PrefixClass(b) == b[0] / 64 && PrefixCount(b) == (b[0] as nat) % 64 * 256 + b[1]
    ensures Width(PrefixClass(b)) == if b[0] / 64 == 3 then 4 else b[0] / 64
  {
    assert b[..2][..1] == [b[0]] && [b[0]][..0] == [];
    assert FromBigEndian(b[..2]) == 256 * FromBigEndian([b[0]]) + b[1];
    assert FromBigEndian([b[0]]) == 256 * FromBigEndian([b[0]][..0]) + b[0];
  }

  lemma {:induction false} BodyFrom(xs: seq<Bytes>, w: nat, i: nat)
    requires i <= |xs|
    ensures 2 <= OffsetOf(xs, w, i) <= 2 + |Body(xs, w)|
    ensures Body(xs, w)[OffsetOf(xs, w, i) - 2..] == Body(xs[i..], w)
  {
    if i == 0 {
      assert xs[0..] == xs;
    } else {
      BodyFrom(xs, w, i - 1);
      BodyNext(xs, i - 1, w);
      hide Body, BigEndian;
      var from, len := OffsetOf(xs, w, i - 1) - 2, BigEndian(|xs[i - 1]|, w);
      var rest := Body(xs[i..], w);
      assert Body(xs, w)[from..] == len + xs[i - 1] + rest;
      assert |Body(xs, w)| - from == w + |xs[i - 1]| + |rest|;
      assert Body(xs, w)[from + w + |xs[i - 1]|..] == Body(xs, w)[from..][w + |xs[i - 1]|..];
    }
  }

  /** The bytes from where element `i` begins: its length, its data, and the rest. */
  lemma {:induction false} ElementBytes(b: Bytes, max: nat, i: nat)
    requires Parse(b, max).Some? && i < |Parse(b, max).value|
    ensures |b| >= 2
    ensures var xs, w := Parse(b, max).value, Width(PrefixClass(b));
      && |xs| == PrefixCount(b) && |b| == OffsetOf(xs, w, |xs|)
      && OffsetOf(xs, w, i) <= |b|
      && b[OffsetOf(xs, w, i)..] == BigEndian(|xs[i]|, w) + xs[i] + Body(xs[i + 1..], w)
      && FromBigEndian(BigEndian(|xs[i]|, w)) == |xs[i]|
  {
    var xs, w := Parse(b, max).value, Width(PrefixClass(b));
    ParsedFits(b, max);
    ParseInverse(b, max, xs);
    BodyFrom(xs, w, i);
    BodyFrom(xs, w, |xs|);
    BodyNext(xs, i, w);
    BigEndianRoundTrip(|xs[i]|, w);
    assert |Body(xs[|xs|..], w)| == 0;
    hide Parse, Body, BigEndian, Prefix, Pow256;
    var at := OffsetOf(xs, w, i);
    assert b[at..] == Body(xs, w)[at - 2..];
  }

  /**
   The format, byte by byte: after the prefix comes for each element its length, big-endian
   in the width of the prefix, and then its data, and nothing else.
   */
  lemma {:induction false} Format(b: Bytes, max: nat, i: nat)
    requires Parse(b, max).Some? && i < |Parse(b, max).value|
    ensures |b| >= 2
    ensures var xs, w := Parse(b, max).value, Width(PrefixClass(b));
      && |xs| == PrefixCount(b) && |b| == OffsetOf(xs, w, |xs|)
      && var at := OffsetOf(xs, w, i);
      && at + w + |xs[i]| <= |b|
      && FromBigEndian(b[at..at + w]) == |xs[i]| && b[at + w..at + w + |xs[i]|] == xs[i]
  {
    hide *;
    ElementBytes(b, max, i);
    var xs, w := Parse(b, max).value, Width(PrefixClass(b));
    CutElement(b, OffsetOf(xs, w, i), BigEndian(|xs[i]|, w), xs[i], Body(xs[i + 1..], w));
  }

  lemma CutElement(b: Bytes, at: nat, len: Bytes, x: Bytes, rest: Bytes)
    requires at <= |b| && b[at..] == len + x + rest
    ensures at + |len| + |x| <= |b|
    ensures b[at..at + |len|] == len && b[at + |len|..at + |len| + |x|] == x
  {
    assert b[at..at + |len|] == b[at..][..|len|];
    assert b[at + |len|..at + |len| + |x|] == b[at..][|len|..|len| + |x|];
  }

  /** The class that is written: the first of 0, 255, 65535 and 2^32-1 that no length exceeds. */
  lemma EncodedClass(xs: seq<Bytes>)
    requires Encode(xs).Some?
    ensures |Encode(xs).value| >= 2
    ensures var c := Encode(xs).value[0] / 64;
      && (c == 0 <==> forall i :: 0 <= i < |xs| ==> xs[i] == [])
      && (c <= 1 <==> forall i :: 0 <= i < |xs| ==> |xs[i]| <= 0xFF)
      && (c <= 2 <==> forall i :: 0 <= i < |xs| ==> |xs[i]| <= 0xFFFF)
  {
    var b := Encode(xs).value;
    assert b[..2] == Prefix(MaxClass(xs), |xs|);
    PrefixFields(MaxClass(xs), |xs|, b);
    PrefixBytes(b);
    Pow256Values();
    MaxClassIsLeast(xs, 0);
    MaxClassIsLeast(xs, 1);
    MaxClassIsLeast(xs, 2);
    hide Body, Prefix, Pow256, MaxClass;
    assert forall i :: 0 <= i < |xs| ==> (|xs[i]| < Pow256(0) <==> xs[i] == []);
  }

  lemma SameStart(b: Bytes, b': Bytes, rest: Bytes, rest': Bytes, k: nat)
    requires b + rest == b' + rest' && k <= |b| && k <= |b'|
    ensures b[..k] == b'[..k] && b[k..] + rest == b'[k..] + rest'
    ensures b == b[..k] + b[k..] && b' == b'[..k] + b'[k..]
  {
    assert b[..k] == (b + rest)[..k] && b'[..k] == (b' + rest')[..k];
    assert b[k..] + rest == (b + rest)[k..] && b'[k..] + rest' == (b' + rest')[k..];
  }

  lemma {:induction false} DecodePrefixFree(b: Bytes, b': Bytes, rest: Bytes, rest': Bytes, w: nat, n: nat)
    requires Decode(b, w, n).Some? && Decode(b', w, n).Some? && b + rest == b' + rest'
    ensures b == b'
  {
    if n == 0 {
    } else {
      var k := w + FromBigEndian(b[..w]);
      SameStart(b, b', rest, rest', w);
      SameStart(b, b', rest, rest', k);
      hide Decode, FromBigEndian;
      DecodeTail(b, w, n);
      DecodeTail(b', w, n);
      DecodePrefixFree(b[k..], b'[k..], rest, rest', w, n - 1);
    }
  }

  lemma DecodeTail(b: Bytes, w: nat, n: nat)
    requires n > 0 && Decode(b, w, n).Some?
    ensures w + FromBigEndian(b[..w]) <= |b| && Decode(b[w + FromBigEndian(b[..w])..], w, n - 1).Some?
  {
  }

  /** A serialized array tells where it ends: no two different ones are beginnings of the same bytes. */
  lemma PrefixFree(b: Bytes, b': Bytes, rest: Bytes, rest': Bytes, max: nat)
    requires Parse(b, max).Some? && Parse(b', max).Some? && b + rest == b' + rest'
    ensures b == b' && rest == rest'
  {
    SameStart(b, b', rest, rest', 2);
    DecodePrefixFree(b[2..], b'[2..], rest, rest', Width(PrefixClass(b)), PrefixCount(b));
    assert rest == (b + rest)[|b|..] && rest' == (b' + rest')[|b'|..];
  }

  // ------------------------------------------------------------------ the loops of the original

  /** The length class and element count of the prefix, computed by one pass over the elements. */
  method CalcLenPrefix(data: seq<Bytes>) returns (r: Option<(LenClass, nat)>)
    ensures r == if Encodable(data) then Some((MaxClass(data), |data|)) else None
  {
    if |data| > MAX_ARRAY_LEN { return None; }
    if |data| == 0 { return Some((0, 0)); }
    var dl: LenClass := 0;
    for i := 0 to |data|
      invariant forall k :: 0 <= k < i ==> |data[k]| <= MAX_UINT32
      invariant MaxClass(data) == var rest := MaxClass(data[i..]); if dl < rest then rest else dl
    {
      if |data[i]| > MAX_UINT32 { return None; }
      var t := ClassOf(|data[i]|);
      assert data[i..][1..] == data[i + 1..];
      if dl < t { dl := t; }
    }
    return Some((dl, |data|));
  }

  method WriteData(data: seq<Bytes>, w: nat) returns (out: Bytes)
    requires w == 0 ==> Fits(data, w)
    ensures out == Body(data, w)
  {
    out := [];
    if w == 0 {
      BodyLength(data, 0);
      AllEmpty(data);
      return;
    }
    hide BigEndian, Fits;
    for i := 0 to |data|
      invariant out + Body(data[i..], w) == Body(data, w)
    {
      BodyNext(data, i, w);
      hide Body;
      ghost var before := out;
      out := out + BigEndian(|data[i]|, w);
      out := out + data[i];
      assert before + (BigEndian(|data[i]|, w) + data[i] + Body(data[i + 1..], w)) == out + Body(data[i + 1..], w);
    }
  }

  lemma BodyNext(data: seq<Bytes>, i: nat, w: nat)
    requires i < |data|
    ensures Body(data[i..], w) == BigEndian(|data[i]|, w) + data[i] + Body(data[i + 1..], w)
  {
    assert data[i..][1..] == data[i + 1..];
  }

  lemma {:induction false} AllEmpty(xs: seq<Bytes>)
    requires Fits(xs, 0)
    ensures TotalLength(xs) == 0
  {
    if xs == [] {
    } else {
      assert |xs[0]| < Pow256(0);
      assert Fits(xs[1..], 0) by {
        assert forall i :: 0 <= i < |xs[1..]| ==> xs[1..][i] == xs[i + 1];
      }
      AllEmpty(xs[1..]);
    }
  }

  method EncodeArray(data: seq<Bytes>) returns (r: Option<Bytes>)
    ensures r == Encode(data)
  {
    var prefix := CalcLenPrefix(data);
    if prefix.None? { return None; }
    var (c, n) := prefix.value;
    MaxClassIsLeast(data, c);
    var body := WriteData(data, Width(c));
    return Some(Prefix(c, n) + body);
  }

  /** Cuts one element off the front of the buffer. */
  function DecodeElement(buf: Bytes, w: nat): (r: Option<(Bytes, Bytes)>)
  {
    if |buf| < w then None
    else
      var sz := FromBigEndian(buf[..w]);
      if |buf| < w + sz then None else Some((buf[w + sz..], buf[w..w + sz]))
  }

  lemma DecodeNone(b: Bytes, w: nat)
    ensures Decode(b, w, 0) == if b == [] then Some([]) else None
  {
  }

  lemma DecodeNext(b: Bytes, w: nat, n: nat)
    ensures var first := DecodeElement(b, w);
      Decode(b, w, n + 1) ==
        if first.None? then None
        else match Decode(first.value.0, w, n) case None => None case Some(tail) => Some([first.value.1] + tail)
  {
  }

  method DecodeData(data: Bytes, w: nat, n: nat) returns (r: Option<seq<Bytes>>)
    ensures r == Decode(data, w, n)
  {
    hide Decode, DecodeElement;
    var ret: seq<Bytes>, rest := [], data;
    assert forall tail: seq<Bytes> :: [] + tail == tail;
    for i := 0 to n
      invariant Decode(data, w, n) ==
        match Decode(rest, w, n - i) case None => None case Some(tail) => Some(ret + tail)
    {
      DecodeNext(rest, w, n - i - 1);
      var step := DecodeElement(rest, w);
      if step.None? { return None; }
      ghost var tail := Decode(step.value.0, w, n - i - 1);
      assert tail.Some? ==> ret + ([step.value.1] + tail.value) == (ret + [step.value.1]) + tail.value;
      rest, ret := step.value.0, ret + [step.value.1];
    }
    DecodeNone(rest, w);
    if |rest| != 0 { return None; }
    assert ret + [] == ret;
    return Some(ret);
  }

  method ParseArray(data: Bytes, max: nat) returns (r: Option<seq<Bytes>>)
    ensures r == Parse(data, max)
  {
    if |data| < 2 { return None; }
    if PrefixCount(data) > max { return None; }
    r := DecodeData(data[2..], Width(PrefixClass(data)), PrefixCount(data));
  }
}
