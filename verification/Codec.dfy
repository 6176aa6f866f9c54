/**
  Fixed-size byte codes: integers, points, vectors of points, and public keys, with readers that
  undo the writers, and the reasoning about consecutive segments of a buffer.
 */
module Codec {
  import opened Wrappers
  import Arith
  import opened Pairing
  import opened Phase2

  type Bytes = seq<Byte>

  // ----- segments

  /** The segments of a buffer, one after the other. */
  ghost function Concat(segs: seq<Bytes>): Bytes {
    if segs == [] then [] else segs[0] + Concat(segs[1..])
  }

  ghost function Offset(segs: seq<Bytes>, i: nat): nat
    requires i <= |segs|
  {
    |Concat(segs[..i])|
  }

  lemma {:induction false} ConcatAppend(a: seq<Bytes>, b: seq<Bytes>)
    ensures Concat(a + b) == Concat(a) + Concat(b)
  {
    if a == [] {
      assert a + b == b;
    } else {
      assert (a + b)[1..] == a[1..] + b;
      ConcatAppend(a[1..], b);
    }
  }

  lemma OffsetStep(segs: seq<Bytes>, i: nat)
    requires i < |segs|
    ensures Offset(segs, i + 1) == Offset(segs, i) + |segs[i]|
  {
    assert segs[..i + 1] == segs[..i] + [segs[i]];
    ConcatAppend(segs[..i], [segs[i]]);
    assert Concat([segs[i]]) == segs[i];
  }

  /** A buffer around one of its segments. */
  lemma Around(segs: seq<Bytes>, i: nat)
    requires i < |segs|
    ensures Concat(segs) == Concat(segs[..i]) + segs[i] + Concat(segs[i + 1..])
  {
    hide Concat;
    ConcatAppend(segs[..i], segs[i..]);
    assert segs == segs[..i] + segs[i..];
    ConcatFrom(segs, i);
    var front, back := Concat(segs[..i]), Concat(segs[i + 1..]);
    assert front + (segs[i] + back) == front + segs[i] + back;
  }

  lemma ConcatFrom(segs: seq<Bytes>, i: nat)
    requires i < |segs|
    ensures Concat(segs[i..]) == segs[i] + Concat(segs[i + 1..])
  {
    assert segs[i..][0] == segs[i] && segs[i..][1..] == segs[i + 1..];
  }

  lemma SegmentAt(segs: seq<Bytes>, i: nat)
    requires i < |segs|
    ensures Offset(segs, i) + |segs[i]| <= |Concat(segs)|
    ensures Concat(segs)[Offset(segs, i)..Offset(segs, i) + |segs[i]|] == segs[i]
  {
    Around(segs, i);
  }

  /** Replacing a segment leaves what is around it. */
  lemma Replaced(segs: seq<Bytes>, i: nat, b: Bytes)
    requires i < |segs|
    ensures Concat(segs[i := b]) == Concat(segs[..i]) + b + Concat(segs[i + 1..])
  {
    Around(segs[i := b], i);
    assert segs[i := b][..i] == segs[..i] && segs[i := b][i + 1..] == segs[i + 1..];
  }

  /** Replacing a segment by one of the same length moves no other. */
  lemma {:induction false} OffsetKept(segs: seq<Bytes>, i: nat, b: Bytes, j: nat)
    requires i < |segs| && |b| == |segs[i]| && j <= |segs|
    ensures Offset(segs[i := b], j) == Offset(segs, j)
  {
    if j > 0 {
      OffsetKept(segs, i, b, j - 1);
      OffsetStep(segs, j - 1);
      OffsetStep(segs[i := b], j - 1);
    }
  }

  // ----- integers

  function LittleEndian(n: nat, width: nat): (b: Bytes)
    ensures |b| == width
    decreases width
  {
    if width == 0 then [] else [n % 256] + LittleEndian(n / 256, width - 1)
  }

  function FromLittleEndian(b: Bytes): nat {
    if b == [] then 0 else b[0] + 256 * FromLittleEndian(b[1..])
  }

  function BigEndian(n: nat, width: nat): (b: Bytes)
    ensures |b| == width
    decreases width
  {
    if width == 0 then [] else BigEndian(n / 256, width - 1) + [n % 256]
  }

  function FromBigEndian(b: Bytes): nat {
    if b == [] then 0 else 256 * FromBigEndian(b[..|b| - 1]) + b[|b| - 1]
  }

  /** 256 to the given power. */
  function Capacity(width: nat): nat {
    if width == 0 then 1 else 256 * Capacity(width - 1)
  }

  lemma {:induction false} LittleEndianBack(n: nat, width: nat)
    requires n < Capacity(width)
    ensures FromLittleEndian(LittleEndian(n, width)) == n
    decreases width
  {
    if width > 0 {
      LittleEndianBack(n / 256, width - 1);
      var b := LittleEndian(n, width);
      assert b[1..] == LittleEndian(n / 256, width - 1);
    }
  }

  lemma {:induction false} BigEndianBack(n: nat, width: nat)
    requires n < Capacity(width)
    ensures FromBigEndian(BigEndian(n, width)) == n
    decreases width
  {
    if width > 0 {
      BigEndianBack(n / 256, width - 1);
      var b := BigEndian(n, width);
      assert b[..|b| - 1] == BigEndian(n / 256, width - 1);
    }
  }

  /** Byte `i` of the little-endian code is digit `i` of the number to the base 256. */
  lemma {:induction false} LittleEndianDigit(n: nat, width: nat, i: nat)
    requires i < width
    ensures 0 < Capacity(i) && LittleEndian(n, width)[i] == (n / Capacity(i)) % 256
    decreases width
  {
    var b := LittleEndian(n, width);
    assert b[0] == n % 256 && b[1..] == LittleEndian(n / 256, width - 1);
    if i > 0 {
      LittleEndianDigit(n / 256, width - 1, i - 1);
      assert b[i] == b[1..][i - 1];
      Arith.DivDiv(n, 256, Capacity(i - 1));
    }
  }

  /** The big-endian code is the little-endian one backwards. */
  lemma {:induction false} BigEndianReverses(n: nat, width: nat, i: nat)
    requires i < width
    ensures BigEndian(n, width)[width - 1 - i] == LittleEndian(n, width)[i]
    decreases width
  {
    var b, l := BigEndian(n, width), LittleEndian(n, width);
    assert l[0] == n % 256 && l[1..] == LittleEndian(n / 256, width - 1);
    assert b[..width - 1] == BigEndian(n / 256, width - 1) && b[width - 1] == n % 256;
    if i > 0 {
      BigEndianReverses(n / 256, width - 1, i - 1);
      assert b[width - 1 - i] == b[..width - 1][width - 1 - i] && l[i] == l[1..][i - 1];
    }
  }

  // ----- points

  /** Which points a reader of points from outside refuses. */
  datatype Correctness = Full | OnlyNonZero | OnlyInGroup | Unchecked {
    predicate Passes(x: nat) { (Full? || OnlyNonZero?) ==> x != 0 }

    predicate AllPass(points: seq<nat>) { forall i :: 0 <= i < |points| ==> Passes(points[i]) }
  }

  /** A fixed-size code for points; some byte strings may stand for no point. */
  datatype PointCode = PointCode(size: nat, encode: nat -> Bytes, decode: Bytes -> Option<nat>) {
    ghost predicate Valid(p: nat) {
      && 0 < size
      && forall x: nat :: x < p ==> |encode(x)| == size && decode(encode(x)) == Some(x)
    }
  }

  /** Compressed codes for the parameters, uncompressed ones for the public keys. */
  datatype Format = Format(g1: PointCode, g2: PointCode, fullG1: PointCode, fullG2: PointCode) {
    ghost predicate Valid(p: nat) {
      g1.Valid(p) && g2.Valid(p) && fullG1.Valid(p) && fullG2.Valid(p)
    }

    function KeySize(): nat { 3 * fullG1.size + fullG2.size + 64 }
  }

  function EncodeAll(c: PointCode, points: seq<nat>): Bytes {
    if points == [] then [] else c.encode(points[0]) + EncodeAll(c, points[1..])
  }

  lemma {:induction false} EncodeAllSize(c: PointCode, p: nat, points: seq<nat>)
    requires c.Valid(p) && AllIn(p, points)
    ensures |EncodeAll(c, points)| == |points| * c.size
  {
    if points != [] {
      EncodeAllSize(c, p, points[1..]);
      assert |points| * c.size == c.size + (|points| - 1) * c.size;
    }
  }

  lemma {:induction false} EncodeAllAppend(c: PointCode, a: seq<nat>, b: seq<nat>)
    ensures EncodeAll(c, a + b) == EncodeAll(c, a) + EncodeAll(c, b)
  {
    if a == [] {
      assert a + b == b;
    } else {
      assert (a + b)[1..] == a[1..] + b;
      EncodeAllAppend(c, a[1..], b);
    }
  }

  // ----- public keys

  function EncodeKey(f: Format, key: PublicKey): Bytes {
    f.fullG1.encode(key.deltaAfter) + f.fullG1.encode(key.s) + f.fullG1.encode(key.sDelta) + f.fullG2.encode(key.rDelta)
    + key.transcript
  }

  function EncodeKeys(f: Format, keys: seq<PublicKey>): Bytes {
    if keys == [] then [] else EncodeKey(f, keys[0]) + EncodeKeys(f, keys[1..])
  }

  lemma EncodeKeySize(f: Format, p: nat, key: PublicKey)
    requires f.Valid(p) && KeyIn(p, key)
    ensures |EncodeKey(f, key)| == f.KeySize()
  {
  }

  lemma {:induction false} EncodeKeysSize(f: Format, p: nat, keys: seq<PublicKey>)
    requires f.Valid(p) && KeysIn(p, keys)
    ensures |EncodeKeys(f, keys)| == |keys| * f.KeySize()
  {
    if keys != [] {
      EncodeKeysSize(f, p, keys[1..]);
      EncodeKeySize(f, p, keys[0]);
      assert |keys| * f.KeySize() == f.KeySize() + (|keys| - 1) * f.KeySize();
    }
  }

  lemma {:induction false} EncodeKeysAppend(f: Format, a: seq<PublicKey>, b: seq<PublicKey>)
    ensures EncodeKeys(f, a + b) == EncodeKeys(f, a) + EncodeKeys(f, b)
  {
    if a == [] {
      assert a + b == b;
    } else {
      assert (a + b)[1..] == a[1..] + b;
      EncodeKeysAppend(f, a[1..], b);
    }
  }

  // ----- whole parameters

  /** The segments of serialized parameters, by number. */
  ghost function Segment(f: Format, m: Params, i: nat): Bytes {
    var key, vk := m.key, m.key.vk;
    if i == 0 then f.g1.encode(vk.alphaG1)
    else if i == 1 then f.g2.encode(vk.betaG2)
    else if i == 2 then f.g2.encode(vk.gammaG2)
    else if i == 3 then f.g2.encode(vk.deltaG2)
    else if i == 4 then LittleEndian(|vk.gammaAbcG1|, 8)
    else if i == 5 then EncodeAll(f.g1, vk.gammaAbcG1)
    else if i == 6 then f.g1.encode(key.betaG1)
    else if i == 7 then f.g1.encode(key.deltaG1)
    else if i == 8 then LittleEndian(|key.aQuery|, 8)
    else if i == 9 then EncodeAll(f.g1, key.aQuery)
    else if i == 10 then LittleEndian(|key.bG1Query|, 8)
    else if i == 11 then EncodeAll(f.g1, key.bG1Query)
    else if i == 12 then LittleEndian(|key.bG2Query|, 8)
    else if i == 13 then EncodeAll(f.g2, key.bG2Query)
    else if i == 14 then LittleEndian(|key.hQuery|, 8)
    else if i == 15 then EncodeAll(f.g1, key.hQuery)
    else if i == 16 then LittleEndian(|key.lQuery|, 8)
    else if i == 17 then EncodeAll(f.g1, key.lQuery)
    else if i == 18 then m.csHash
    else if i == 19 then BigEndian(|m.contributions|, 4)
    else EncodeKeys(f, m.contributions)
  }

  ghost function Segments(f: Format, m: Params): (s: seq<Bytes>)
    ensures |s| == 21
    ensures forall i :: 0 <= i < 21 ==> s[i] == Segment(f, m, i)
  {
    seq(21, i requires 0 <= i < 21 => Segment(f, m, i))
  }

  ghost function Encode(f: Format, m: Params): Bytes {
    Concat(Segments(f, m))
  }

  /** The reader of keys refuses the point at infinity. */
  predicate Readable(key: PublicKey) {
    key.deltaAfter != 0 && key.s != 0 && key.sDelta != 0 && key.rDelta != 0
  }

  predicate AllReadable(keys: seq<PublicKey>) {
    forall i :: 0 <= i < |keys| ==> Readable(keys[i])
  }

  function ReadNonzero(c: PointCode, bytes: Bytes): Option<nat> {
    var decoded := c.decode(bytes);
    if decoded == Some(0) then None else decoded
  }

  function ReadKey(f: Format, bytes: Bytes): Option<PublicKey>
    requires |bytes| == f.KeySize()
  {
    var a, b := f.fullG1.size, f.fullG2.size;
    var deltaAfter := ReadNonzero(f.fullG1, bytes[..a]);
    var s := ReadNonzero(f.fullG1, bytes[a..2 * a]);
    var sDelta := ReadNonzero(f.fullG1, bytes[2 * a..3 * a]);
    var rDelta := ReadNonzero(f.fullG2, bytes[3 * a..3 * a + b]);
    if deltaAfter.None? || s.None? || sDelta.None? || rDelta.None? then None
    else Some(PublicKey(deltaAfter.value, s.value, sDelta.value, rDelta.value, bytes[3 * a + b..]))
  }

  /** A key that was written is read back, if the reader's checks let it pass. */
  lemma KeyBack(f: Format, p: nat, key: PublicKey)
    requires f.Valid(p) && KeyIn(p, key)
    ensures |EncodeKey(f, key)| == f.KeySize()
    ensures ReadKey(f, EncodeKey(f, key)) == if Readable(key) then Some(key) else None
  {
    var a, b, bytes := f.fullG1.size, f.fullG2.size, EncodeKey(f, key);
    assert bytes[..a] == f.fullG1.encode(key.deltaAfter);
    assert bytes[a..2 * a] == f.fullG1.encode(key.s);
    assert bytes[2 * a..3 * a] == f.fullG1.encode(key.sDelta);
    assert bytes[3 * a..3 * a + b] == f.fullG2.encode(key.rDelta);
    assert bytes[3 * a + b..] == key.transcript;
  }
}
