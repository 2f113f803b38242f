/**
 Byte strings, the option type used for "this call panics or errors", and
 big-endian integers.
 */
module Bytes {

  datatype Option<+T> = None | Some(value: T)

  type Byte = x: int | 0 <= x < 256

  type Bytes = seq<Byte>

  const MAX_UINT8: nat := 0xFF
  const MAX_UINT16: nat := 0xFFFF
  const MAX_UINT32: nat := 0xFFFF_FFFF
  const MAX_UINT64: nat := 0xFFFF_FFFF_FFFF_FFFF

  /** The number of values that fit in `w` bytes. */
  function Pow256(w: nat): (p: nat)
    ensures p > 0
  {
    if w == 0 then 1 else 256 * Pow256(w - 1)
  }

  lemma Pow256Values()
    ensures Pow256(0) == 1 && Pow256(1) == 256 && Pow256(2) == 0x1_0000
    ensures Pow256(4) == 0x1_0000_0000
    ensures Pow256(8) == 0x1_0000_0000_0000_0000
  {
    assert Pow256(2) == 256 * Pow256(1);
    assert Pow256(4) == 256 * Pow256(3) && Pow256(3) == 256 * Pow256(2);
    assert Pow256(6) == 256 * Pow256(5) && Pow256(5) == 256 * Pow256(4);
    assert Pow256(8) == 256 * Pow256(7) && Pow256(7) == 256 * Pow256(6);
  }

  /** Big-endian encoding of `n` in `w` bytes, keeping the low-order bytes. */
  function BigEndian(n: nat, w: nat): (b: Bytes)
    ensures |b| == w
  {
    if w == 0 then [] else BigEndian(n / 256, w - 1) + [n % 256]
  }

  function FromBigEndian(b: Bytes): nat {
    if |b| == 0 then 0 else 256 * FromBigEndian(b[..|b| - 1]) + b[|b| - 1]
  }

  lemma {:induction false} BigEndianRoundTrip(n: nat, w: nat)
    requires n < Pow256(w)
    ensures FromBigEndian(BigEndian(n, w)) == n
  {
    if w > 0 {
      BigEndianRoundTrip(n / 256, w - 1);
      assert BigEndian(n, w)[..w - 1] == BigEndian(n / 256, w - 1);
    }
  }

  lemma {:induction false} FromBigEndianRoundTrip(b: Bytes)
    ensures FromBigEndian(b) < Pow256(|b|)
    ensures BigEndian(FromBigEndian(b), |b|) == b
  {
    if |b| > 0 {
      FromBigEndianRoundTrip(b[..|b| - 1]);
    }
  }

  /** Lexicographic order, the order in which byte strings are compared. */
  predicate LexLess(a: Bytes, b: Bytes)
    requires |a| == |b|
  {
    |a| > 0 && (a[0] < b[0] || (a[0] == b[0] && LexLess(a[1..], b[1..])))
  }

  lemma {:induction false} FromBigEndianCons(x: Byte, b: Bytes)
    ensures FromBigEndian([x] + b) == x * Pow256(|b|) + FromBigEndian(b)
  {
    var s := [x] + b;
    if |b| == 0 {
      assert s[..0] == [];
      assert FromBigEndian(s) == 256 * FromBigEndian(s[..0]) + x;
    } else {
      assert s[..|s| - 1] == [x] + b[..|b| - 1];
      FromBigEndianCons(x, b[..|b| - 1]);
      assert 256 * (x * Pow256(|b| - 1)) == x * Pow256(|b|);
    }
  }

  lemma {:induction false} HighDigitDecides(x: nat, y: nat, r: nat, s: nat, p: nat)
    requires r < p && s < p
    ensures x * p + r < y * p + s <==> x < y || (x == y && r < s)
  {
    if x < y {
      assert (x + 1) * p <= y * p;
    } else if y < x {
      assert (y + 1) * p <= x * p;
    }
  }

  /** Lexicographic order on equally long strings is the order of the integers they encode. */
  lemma {:induction false} LexLessIsNumeric(a: Bytes, b: Bytes)
    requires |a| == |b|
    ensures LexLess(a, b) <==> FromBigEndian(a) < FromBigEndian(b)
  {
    if |a| > 0 {
      assert a == [a[0]] + a[1..] && b == [b[0]] + b[1..];
      FromBigEndianCons(a[0], a[1..]);
      FromBigEndianCons(b[0], b[1..]);
      FromBigEndianRoundTrip(a[1..]);
      FromBigEndianRoundTrip(b[1..]);
      LexLessIsNumeric(a[1..], b[1..]);
      HighDigitDecides(a[0], b[0], FromBigEndian(a[1..]), FromBigEndian(b[1..]), Pow256(|a| - 1));
    }
  }

  lemma LexLessOne(x: Byte, y: Byte)
    ensures LexLess([x], [y]) <==> x < y
  {
    assert !LexLess([x][1..], [y][1..]);
  }
}
