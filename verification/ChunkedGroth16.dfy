/**
  Phase 2 on raw buffers: a contribution that works in place on serialized parameters, batch by
  batch, proved to leave exactly the serialization of what the in-memory contribution computes.
 */
module ChunkedGroth16 {
  import opened Wrappers
  import opened Arith
  import opened Field
  import opened Pairing
  import opened Phase2
  import opened Contributions
  import opened Codec

  // ----- reading and writing at a position

  method WriteAt(buffer: array<Byte>, at: nat, bytes: Bytes, ghost pre: Bytes, ghost was: Bytes, ghost post: Bytes)
    requires buffer[..] == pre + was + post && at == |pre| && |bytes| == |was|
    modifies buffer
    ensures buffer[..] == pre + bytes + post
  {
    for i := 0 to |bytes|
      invariant buffer[..] == pre + bytes[..i] + was[i..] + post
    {
      buffer[at + i] := bytes[i];
      assert bytes[..i + 1] == bytes[..i] + [bytes[i]];
      assert was[i..] == [was[i]] + was[i + 1..];
    }
    assert bytes[..|bytes|] == bytes && was[|bytes|..] == [];
  }

  /** The code of point `i` inside the code of all of them. */
  lemma PointAt(c: PointCode, p: nat, points: seq<nat>, i: nat)
    requires c.Valid(p) && AllIn(p, points) && i < |points|
    ensures 0 <= i * c.size && (i + 1) * c.size == i * c.size + c.size <= |EncodeAll(c, points)|
    ensures EncodeAll(c, points)[i * c.size..(i + 1) * c.size] == c.encode(points[i])
  {
    var before, from := points[..i], points[i..];
    assert points == before + from;
    EncodeAllAppend(c, before, from);
    EncodeAllSize(c, p, before);
    EncodeAllSize(c, p, from);
    assert from[0] == points[i];
    assert EncodeAll(c, from)[..c.size] == c.encode(points[i]);
  }

  method ReadPoints(c: PointCode, p: nat, buffer: Bytes, at: nat, n: nat,
                    ghost pre: Bytes, ghost points: seq<nat>, ghost post: Bytes)
    returns (r: seq<nat>)
    requires c.Valid(p) && AllIn(p, points) && |points| == n
    requires buffer == pre + EncodeAll(c, points) + post && at == |pre|
    ensures r == points
  {
    r := [];
    var pos := at;
    for i := 0 to n
      invariant pos == at + i * c.size && r == points[..i]
    {
      PointAt(c, p, points, i);
      assert buffer[pos..pos + c.size] == c.encode(points[i]);
      var decoded := c.decode(buffer[pos..pos + c.size]);
      r := r + [decoded.value];
      pos := pos + c.size;
    }
  }

  /** The middle part of a buffer, with the parts around it. */
  lemma Regroup(pre: Bytes, first: Bytes, middle: Bytes, last: Bytes, post: Bytes)
    ensures pre + (first + (middle + last)) + post == (pre + first) + middle + (last + post)
    ensures (pre + first) + (middle + last) + post == (pre + first) + middle + (last + post)
    ensures (pre + first) + middle + (last + post) == (pre + (first + middle)) + last + post
  {
  }

  method WritePoints(c: PointCode, p: nat, buffer: array<Byte>, at: nat, points: seq<nat>,
                     ghost pre: Bytes, ghost was: Bytes, ghost post: Bytes)
    requires c.Valid(p) && AllIn(p, points)
    requires buffer[..] == pre + was + post && at == |pre| && |was| == |points| * c.size
    modifies buffer
    ensures buffer[..] == pre + EncodeAll(c, points) + post
  {
    var pos := at;
    ghost var done: Bytes, left := [], was;
    assert EncodeAll(c, points[..0]) == [] && pre + done == pre;
    for i := 0 to |points|
      invariant done == EncodeAll(c, points[..i]) && pos == |pre + done|
      invariant |left| == (|points| - i) * c.size
      invariant buffer[..] == (pre + done) + left + post
    {
      var code := c.encode(points[i]);
      ghost var here, later := NextSlot(c.size, |points| - i, left);
      Regroup(pre, done, here, later, post);
      WriteAt(buffer, pos, code, pre + done, here, later + post);
      Regroup(pre, done, code, later, post);
      EncodeOneMore(c, points, i);
      done, left := done + code, later;
      pos := pos + c.size;
    }
    assert points[..|points|] == points;
    assert left == [];
  }

  /** The slot of the next point, off the front of what is still to be written. */
  ghost method NextSlot(size: nat, n: nat, left: Bytes) returns (here: Bytes, later: Bytes)
    requires |left| == n * size && 0 < n
    ensures left == here + later && |here| == size && |later| == (n - 1) * size
  {
    assert n * size == size + (n - 1) * size;
    here, later := left[..size], left[size..];
  }

  lemma EncodeOneMore(c: PointCode, points: seq<nat>, i: nat)
    requires i < |points|
    ensures EncodeAll(c, points[..i + 1]) == EncodeAll(c, points[..i]) + c.encode(points[i])
  {
    assert points[..i + 1] == points[..i] + [points[i]];
    EncodeAllAppend(c, points[..i], [points[i]]);
    assert EncodeAll(c, [points[i]]) == c.encode(points[i]);
  }

  // ----- multiplying a query in place

  /** Reads `n` points, multiplies them and writes them back where they were. */
  method MulQuery(c: PointCode, p: nat, buffer: array<Byte>, at: nat, k: Scalar, n: nat,
                  ghost pre: Bytes, ghost points: seq<nat>, ghost post: Bytes)
    requires c.Valid(p) && 0 < p && AllIn(p, points) && |points| == n
    requires buffer[..] == pre + EncodeAll(c, points) + post && at == |pre|
    modifies buffer
    ensures buffer[..] == pre + EncodeAll(c, Scaled(p, points, k)) + post
  {
    var query := ReadPoints(c, p, buffer[..], at, n, pre, points, post);
    query := BatchMul(p, query, k);
    EncodeAllSize(c, p, points);
    WritePoints(c, p, buffer, at, query, pre, EncodeAll(c, points), post);
  }

  /** The code of a query whose first `done` points are already multiplied. */
  ghost function Halfway(c: PointCode, p: nat, points: seq<nat>, k: Scalar, done: nat): Bytes
    requires 0 < p && done <= |points|
  {
    EncodeAll(c, Scaled(p, points[..done], k)) + EncodeAll(c, points[done..])
  }

  method MulBatch(c: PointCode, p: nat, buffer: array<Byte>, at: nat, k: Scalar, n: nat, ghost done: nat,
                  ghost pre: Bytes, ghost points: seq<nat>, ghost post: Bytes)
    requires c.Valid(p) && 0 < p && AllIn(p, points) && done + n <= |points|
    requires buffer[..] == pre + Halfway(c, p, points, k, done) + post && at == |pre| + done * c.size
    modifies buffer
    ensures buffer[..] == pre + Halfway(c, p, points, k, done + n) + post
  {
    hide EncodeAll, Halfway, AllIn;
    ghost var first, batch, last := BatchParts(c, p, points, k, done, n);
    Regroup(pre, first, EncodeAll(c, batch), last, post);
    MulQuery(c, p, buffer, at, k, n, pre + first, batch, last + post);
    Regroup(pre, first, EncodeAll(c, Scaled(p, batch, k)), last, post);
  }

  /** A query around its next batch, before and after the batch is multiplied. */
  lemma BatchParts(c: PointCode, p: nat, points: seq<nat>, k: Scalar, done: nat, n: nat)
    returns (first: Bytes, batch: seq<nat>, last: Bytes)
    requires c.Valid(p) && 0 < p && AllIn(p, points) && done + n <= |points|
    ensures |batch| == n && AllIn(p, batch) && |first| == done * c.size
    ensures Halfway(c, p, points, k, done) == first + (EncodeAll(c, batch) + last)
    ensures Halfway(c, p, points, k, done + n) == first + (EncodeAll(c, Scaled(p, batch, k)) + last)
  {
    first, batch, last := EncodeAll(c, Scaled(p, points[..done], k)), points[done..done + n], EncodeAll(c, points[done + n..]);
    EncodeAllSize(c, p, Scaled(p, points[..done], k));
    assert points[done..] == batch + points[done + n..];
    EncodeAllAppend(c, batch, points[done + n..]);
    ScaledAppend(c, p, points, k, done, n);
    hide EncodeAll, Scaled;
    var x := EncodeAll(c, Scaled(p, batch, k));
    assert (first + x) + last == first + (x + last);
  }

  lemma ScaledAppend(c: PointCode, p: nat, points: seq<nat>, k: Scalar, done: nat, n: nat)
    requires 0 < p && done + n <= |points|
    ensures EncodeAll(c, Scaled(p, points[..done + n], k)) ==
      EncodeAll(c, Scaled(p, points[..done], k)) + EncodeAll(c, Scaled(p, points[done..done + n], k))
  {
    hide Mul;
    assert Scaled(p, points[..done + n], k) == Scaled(p, points[..done], k) + Scaled(p, points[done..done + n], k);
    EncodeAllAppend(c, Scaled(p, points[..done], k), Scaled(p, points[done..done + n], k));
  }

  /** Multiplies a query of `len` points in batches, with a smaller last batch for the leftovers. */
  method MulQueries(c: PointCode, p: nat, buffer: array<Byte>, at: nat, len: nat, k: Scalar, batch: nat,
                    ghost pre: Bytes, ghost points: seq<nat>, ghost post: Bytes)
    requires c.Valid(p) && 0 < p && 0 < batch && AllIn(p, points) && |points| == len
    requires buffer[..] == pre + EncodeAll(c, points) + post && at == |pre|
    modifies buffer
    ensures buffer[..] == pre + EncodeAll(c, Scaled(p, points, k)) + post
  {
    hide EncodeAll, Halfway, AllIn;
    var iters, leftovers := len / batch, len % batch;
    assert len == iters * batch + leftovers;
    var pos := at;
    ghost var done := 0;
    HalfwayEnds(c, p, points, k);
    for i := 0 to iters
      invariant done == i * batch && pos == at + done * c.size && done <= len
      invariant buffer[..] == pre + Halfway(c, p, points, k, done) + post
    {
      BatchFits(i, iters, batch);
      MulBatch(c, p, buffer, pos, k, batch, done, pre, points, post);
      MulSum(done, batch, c.size);
      done := done + batch;
      pos := pos + batch * c.size;
    }
    if leftovers > 0 {
      MulBatch(c, p, buffer, pos, k, leftovers, done, pre, points, post);
    }
  }

  lemma HalfwayEnds(c: PointCode, p: nat, points: seq<nat>, k: Scalar)
    requires 0 < p
    ensures Halfway(c, p, points, k, 0) == EncodeAll(c, points)
    ensures Halfway(c, p, points, k, |points|) == EncodeAll(c, Scaled(p, points, k))
  {
    assert points[..0] == [] && points[0..] == points;
    assert points[..|points|] == points && points[|points|..] == [];
    assert Scaled(p, [], k) == [];
  }

  lemma MulSum(a: nat, b: nat, size: nat)
    ensures (a + b) * size == a * size + b * size
  {
  }

  lemma BatchFits(i: nat, iters: nat, batch: nat)
    requires i < iters
    ensures (i + 1) * batch == i * batch + batch <= iters * batch
  {
    MulMonotone(i + 1, iters, batch);
  }

  // ----- segments of the buffer

  method ReadSegment(buffer: Bytes, at: nat, n: nat, ghost segs: seq<Bytes>, ghost i: nat) returns (bytes: Bytes)
    requires buffer == Concat(segs) && i < |segs| && at == Offset(segs, i) && n == |segs[i]|
    ensures bytes == segs[i] && at + n == Offset(segs, i + 1)
  {
    SegmentAt(segs, i);
    OffsetStep(segs, i);
    bytes := buffer[at..at + n];
  }

  method WriteSegment(buffer: array<Byte>, at: nat, bytes: Bytes, ghost segs: seq<Bytes>, ghost i: nat)
    requires buffer[..] == Concat(segs) && i < |segs| && at == Offset(segs, i) && |bytes| == |segs[i]|
    modifies buffer
    ensures buffer[..] == Concat(segs[i := bytes])
    ensures at + |bytes| == Offset(segs, i + 1)
    ensures forall j :: 0 <= j <= |segs| ==> Offset(segs[i := bytes], j) == Offset(segs, j)
  {
    Around(segs, i);
    Replaced(segs, i, bytes);
    OffsetStep(segs, i);
    forall j | 0 <= j <= |segs| ensures Offset(segs[i := bytes], j) == Offset(segs, j) {
      OffsetKept(segs, i, bytes, j);
    }
    WriteAt(buffer, at, bytes, Concat(segs[..i]), segs[i], Concat(segs[i + 1..]));
  }

  method ReadPoint(c: PointCode, p: nat, buffer: Bytes, at: nat, ghost segs: seq<Bytes>, ghost i: nat, ghost x: nat)
    returns (r: nat)
    requires c.Valid(p) && x < p
    requires buffer == Concat(segs) && i < |segs| && at == Offset(segs, i) && segs[i] == c.encode(x)
    ensures r == x && at + c.size == Offset(segs, i + 1)
  {
    var bytes := ReadSegment(buffer, at, c.size, segs, i);
    r := c.decode(bytes).value;
  }

  method ReadLength(buffer: Bytes, at: nat, ghost segs: seq<Bytes>, ghost i: nat, ghost n: nat) returns (r: nat)
    requires n < Capacity(8)
    requires buffer == Concat(segs) && i < |segs| && at == Offset(segs, i) && segs[i] == LittleEndian(n, 8)
    ensures r == n && at + 8 == Offset(segs, i + 1)
  {
    hide Capacity, LittleEndian, FromLittleEndian;
    var bytes := ReadSegment(buffer, at, 8, segs, i);
    LittleEndianBack(n, 8);
    r := FromLittleEndian(bytes);
  }

  /** A vector as a length followed by the code of its points. */
  ghost predicate VectorAt(c: PointCode, p: nat, segs: seq<Bytes>, i: nat, points: seq<nat>) {
    && i + 1 < |segs| && |points| < Capacity(8) && AllIn(p, points)
    && segs[i] == LittleEndian(|points|, 8) && segs[i + 1] == EncodeAll(c, points)
  }

  /** Moves past a vector without reading its points. */
  method SkipVec(c: PointCode, p: nat, buffer: Bytes, at: nat, ghost segs: seq<Bytes>, ghost i: nat, ghost points: seq<nat>)
    returns (next: nat)
    requires c.Valid(p) && buffer == Concat(segs) && VectorAt(c, p, segs, i, points) && at == Offset(segs, i)
    ensures next == Offset(segs, i + 2)
  {
    hide Capacity, LittleEndian;
    var len := ReadLength(buffer, at, segs, i, |points|);
    EncodeAllSize(c, p, points);
    OffsetStep(segs, i + 1);
    next := at + 8 + len * c.size;
  }

  method ReadVec(c: PointCode, p: nat, buffer: Bytes, at: nat, ghost segs: seq<Bytes>, ghost i: nat, ghost points: seq<nat>)
    returns (r: seq<nat>, next: nat)
    requires c.Valid(p) && buffer == Concat(segs) && VectorAt(c, p, segs, i, points) && at == Offset(segs, i)
    ensures r == points && next == Offset(segs, i + 2)
  {
    hide Capacity, LittleEndian;
    var len := ReadLength(buffer, at, segs, i, |points|);
    EncodeAllSize(c, p, points);
    OffsetStep(segs, i + 1);
    Around(segs, i + 1);
    r := ReadPoints(c, p, buffer, at + 8, len, Concat(segs[..i + 1]), points, Concat(segs[i + 2..]));
    next := at + 8 + len * c.size;
  }

  /** Multiplies the points of a segment in batches. */
  method MulSegment(c: PointCode, p: nat, buffer: array<Byte>, at: nat, len: nat, k: Scalar, batch: nat,
                    ghost segs: seq<Bytes>, ghost i: nat, ghost points: seq<nat>)
    requires c.Valid(p) && 0 < p && 0 < batch && AllIn(p, points) && |points| == len
    requires buffer[..] == Concat(segs) && i < |segs| && at == Offset(segs, i) && segs[i] == EncodeAll(c, points)
    modifies buffer
    ensures buffer[..] == Concat(segs[i := EncodeAll(c, Scaled(p, points, k))])
    ensures forall j :: 0 <= j <= |segs| ==> Offset(segs[i := EncodeAll(c, Scaled(p, points, k))], j) == Offset(segs, j)
  {
    ghost var scaled := EncodeAll(c, Scaled(p, points, k));
    EncodeAllSize(c, p, points);
    EncodeAllSize(c, p, Scaled(p, points, k));
    forall j | 0 <= j <= |segs| ensures Offset(segs[i := scaled], j) == Offset(segs, j) {
      OffsetKept(segs, i, scaled, j);
    }
    Around(segs, i);
    Replaced(segs, i, scaled);
    MulQueries(c, p, buffer, at, len, k, batch, Concat(segs[..i]), points, Concat(segs[i + 1..]));
  }

  // ----- the keys of the transcript

  lemma KeyAt(f: Format, p: nat, keys: seq<PublicKey>, i: nat)
    requires f.Valid(p) && KeysIn(p, keys) && i < |keys|
    ensures 0 <= i * f.KeySize() && (i + 1) * f.KeySize() == i * f.KeySize() + f.KeySize() <= |EncodeKeys(f, keys)|
    ensures EncodeKeys(f, keys)[i * f.KeySize()..(i + 1) * f.KeySize()] == EncodeKey(f, keys[i])
  {
    var before, from := keys[..i], keys[i..];
    assert keys == before + from;
    EncodeKeysAppend(f, before, from);
    EncodeKeysSize(f, p, before);
    EncodeKeysSize(f, p, from);
    assert from[0] == keys[i];
    EncodeKeySize(f, p, keys[i]);
    hide KeyIn, EncodeKey;
    assert EncodeKeys(f, from)[..f.KeySize()] == EncodeKey(f, keys[i]);
  }

  /** Reads `n` keys; the first unreadable one stops it. */
  method ReadKeys(f: Format, p: nat, buffer: Bytes, at: nat, n: nat,
                  ghost pre: Bytes, ghost keys: seq<PublicKey>, ghost post: Bytes)
    returns (r: Option<seq<PublicKey>>)
    requires f.Valid(p) && KeysIn(p, keys) && |keys| == n
    requires buffer == pre + EncodeKeys(f, keys) + post && at == |pre|
    ensures r == if AllReadable(keys) then Some(keys) else None
  {
    hide EncodeKey, EncodeKeys, ReadKey, KeyIn, Readable;
    var size := f.KeySize();
    var read, pos := [], at;
    for i := 0 to n
      invariant pos == at + i * size && read == keys[..i] && AllReadable(keys[..i])
    {
      KeyAt(f, p, keys, i);
      KeyBack(f, p, keys[i]);
      assert buffer[pos..pos + size] == EncodeKey(f, keys[i]);
      var key := ReadKey(f, buffer[pos..pos + size]);
      if key.None? { return None; }
      read := read + [key.value];
      pos := pos + size;
    }
    assert keys[..n] == keys;
    r := Some(read);
  }

  // ----- contributing in place

  /** Parameters whose elements and lengths fit their codes. */
  ghost predicate Serializable(p: nat, m: Params) {
    && ParamsIn(p, m)
    && |m.key.vk.gammaAbcG1| < Capacity(8)
    && |m.key.aQuery| < Capacity(8) && |m.key.bG1Query| < Capacity(8) && |m.key.bG2Query| < Capacity(8)
    && |m.key.hQuery| < Capacity(8) && |m.key.lQuery| < Capacity(8)
    && |m.contributions| < Capacity(4)
  }

  /** The segments start with those of the parameters. */
  ghost predicate Holds(f: Format, p: nat, m: Params, segs: seq<Bytes>) {
    && f.Valid(p) && Serializable(p, m)
    && |segs| == 23 && forall i :: 0 <= i < 21 ==> segs[i] == Segment(f, m, i)
  }

  lemma HeaderSegments(f: Format, p: nat, m: Params, segs: seq<Bytes>)
    requires Holds(f, p, m, segs)
    ensures f.Valid(p)
    ensures m.key.vk.alphaG1 < p && m.key.vk.betaG2 < p && m.key.vk.gammaG2 < p && m.key.vk.deltaG2 < p
    ensures m.key.betaG1 < p && m.key.deltaG1 < p
    ensures segs[0] == f.g1.encode(m.key.vk.alphaG1) && segs[1] == f.g2.encode(m.key.vk.betaG2)
    ensures segs[2] == f.g2.encode(m.key.vk.gammaG2) && segs[3] == f.g2.encode(m.key.vk.deltaG2)
    ensures VectorAt(f.g1, p, segs, 4, m.key.vk.gammaAbcG1)
    ensures segs[6] == f.g1.encode(m.key.betaG1) && segs[7] == f.g1.encode(m.key.deltaG1)
  {
    hide Capacity, LittleEndian, AllIn, EncodeAll;
  }

  lemma QuerySegments(f: Format, p: nat, m: Params, segs: seq<Bytes>)
    requires Holds(f, p, m, segs)
    ensures f.Valid(p)
    ensures VectorAt(f.g1, p, segs, 8, m.key.aQuery) && VectorAt(f.g1, p, segs, 10, m.key.bG1Query)
    ensures VectorAt(f.g2, p, segs, 12, m.key.bG2Query)
    ensures VectorAt(f.g1, p, segs, 14, m.key.hQuery) && VectorAt(f.g1, p, segs, 16, m.key.lQuery)
  {
    hide Capacity, LittleEndian, AllIn, EncodeAll;
  }

  lemma TranscriptSegments(f: Format, p: nat, m: Params, segs: seq<Bytes>)
    requires Holds(f, p, m, segs)
    ensures segs[18] == m.csHash && segs[19] == BigEndian(|m.contributions|, 4) && segs[20] == EncodeKeys(f, m.contributions)
  {
    hide AllIn, BigEndian, EncodeKeys;
  }

  method ReadVk(f: Format, p: nat, buffer: Bytes, ghost m: Params, ghost segs: seq<Bytes>)
    returns (vk: VerifyingKey, next: nat)
    requires Holds(f, p, m, segs) && buffer == Concat(segs)
    ensures vk == m.key.vk && next == Offset(segs, 6)
  {
    hide Capacity, LittleEndian;
    HeaderSegments(f, p, m, segs);
    assert Offset(segs, 0) == 0;
    hide Holds, Concat, Offset, VectorAt;
    var alpha := ReadPoint(f.g1, p, buffer, 0, segs, 0, m.key.vk.alphaG1);
    var at := f.g1.size;
    var beta := ReadPoint(f.g2, p, buffer, at, segs, 1, m.key.vk.betaG2);
    at := at + f.g2.size;
    var gamma := ReadPoint(f.g2, p, buffer, at, segs, 2, m.key.vk.gammaG2);
    at := at + f.g2.size;
    var delta := ReadPoint(f.g2, p, buffer, at, segs, 3, m.key.vk.deltaG2);
    at := at + f.g2.size;
    var gammaAbc;
    gammaAbc, next := ReadVec(f.g1, p, buffer, at, segs, 4, m.key.vk.gammaAbcG1);
    vk := VerifyingKey(alpha, beta, gamma, delta, gammaAbc);
  }

  method ReadHeader(f: Format, p: nat, buffer: Bytes, ghost m: Params, ghost segs: seq<Bytes>)
    returns (vk: VerifyingKey, deltaG1: G1, next: nat)
    requires Holds(f, p, m, segs) && buffer == Concat(segs)
    ensures vk == m.key.vk && deltaG1 == m.key.deltaG1 && next == Offset(segs, 8)
  {
    HeaderSegments(f, p, m, segs);
    hide Concat, Offset, VectorAt;
    var at;
    vk, at := ReadVk(f, p, buffer, m, segs);
    hide Holds;
    OffsetStep(segs, 6);
    at := at + f.g1.size;
    deltaG1 := ReadPoint(f.g1, p, buffer, at, segs, 7, m.key.deltaG1);
    next := at + f.g1.size;
  }

  method SkipFixed(f: Format, p: nat, buffer: Bytes, at: nat, ghost m: Params, ghost segs: seq<Bytes>) returns (next: nat)
    requires Holds(f, p, m, segs) && buffer == Concat(segs) && at == Offset(segs, 8)
    ensures next == Offset(segs, 14)
  {
    hide Capacity, LittleEndian;
    QuerySegments(f, p, m, segs);
    hide Holds, Concat, Offset, VectorAt;
    next := SkipVec(f.g1, p, buffer, at, segs, 8, m.key.aQuery);
    next := SkipVec(f.g1, p, buffer, next, segs, 10, m.key.bG1Query);
    next := SkipVec(f.g2, p, buffer, next, segs, 12, m.key.bG2Query);
  }

  method ReadTranscript(f: Format, p: nat, buffer: Bytes, at: nat, ghost m: Params, ghost segs: seq<Bytes>)
    returns (csHash: Hash, keys: Option<seq<PublicKey>>)
    requires Holds(f, p, m, segs) && buffer == Concat(segs) && at == Offset(segs, 18)
    ensures csHash == m.csHash && keys == if AllReadable(m.contributions) then Some(m.contributions) else None
  {
    hide Capacity, BigEndian;
    TranscriptSegments(f, p, m, segs);
    csHash := ReadSegment(buffer, at, 64, segs, 18);
    var count := ReadSegment(buffer, at + 64, 4, segs, 19);
    BigEndianBack(|m.contributions|, 4);
    Around(segs, 20);
    assert f.Valid(p) && KeysIn(p, m.contributions);
    hide Holds, Concat, Offset;
    keys := ReadKeys(f, p, buffer, at + 68, FromBigEndian(count), Concat(segs[..20]), m.contributions, Concat(segs[21..]));
  }

  /** The parameters with other deltas. */
  ghost function WithDeltas(m: Params, deltaG1: G1, deltaG2: G2): Params {
    m.(key := m.key.(deltaG1 := deltaG1, vk := m.key.vk.(deltaG2 := deltaG2)))
  }

  /** Writes the verifying key and delta back; only the two deltas change. */
  method WriteHeader(f: Format, p: nat, buffer: array<Byte>, vk: VerifyingKey, deltaG1: G1, ghost m: Params, ghost segs: seq<Bytes>)
    returns (next: nat)
    requires Holds(f, p, m, segs) && buffer[..] == Concat(segs) && deltaG1 < p && vk.deltaG2 < p
    requires vk == m.key.vk.(deltaG2 := vk.deltaG2)
    modifies buffer
    ensures buffer[..] == Concat(segs[3 := f.g2.encode(vk.deltaG2)][7 := f.g1.encode(deltaG1)])
    ensures next == Offset(segs, 8)
    ensures forall j :: 0 <= j <= 23 ==>
      Offset(segs[3 := f.g2.encode(vk.deltaG2)][7 := f.g1.encode(deltaG1)], j) == Offset(segs, j)
  {
    hide Capacity, LittleEndian;
    HeaderSegments(f, p, m, segs);
    assert Offset(segs, 0) == 0;
    EncodeAllSize(f.g1, p, vk.gammaAbcG1);
    hide Concat, Offset;
    next := WriteVk(f, p, buffer, vk, m, segs);
    ghost var segs1 := segs[3 := f.g2.encode(vk.deltaG2)];
    OffsetStep(segs, 6);
    next := next + f.g1.size;
    WriteSegment(buffer, next, f.g1.encode(deltaG1), segs1, 7);
    next := next + f.g1.size;
  }

  method WriteVk(f: Format, p: nat, buffer: array<Byte>, vk: VerifyingKey, ghost m: Params, ghost segs: seq<Bytes>)
    returns (next: nat)
    requires Holds(f, p, m, segs) && buffer[..] == Concat(segs) && vk.deltaG2 < p
    requires vk == m.key.vk.(deltaG2 := vk.deltaG2)
    modifies buffer
    ensures buffer[..] == Concat(segs[3 := f.g2.encode(vk.deltaG2)])
    ensures next == Offset(segs, 6)
    ensures forall j :: 0 <= j <= 23 ==> Offset(segs[3 := f.g2.encode(vk.deltaG2)], j) == Offset(segs, j)
  {
    hide Capacity, LittleEndian;
    HeaderSegments(f, p, m, segs);
    assert Offset(segs, 0) == 0;
    hide Concat, Offset, Holds;
    next := 0;
    WriteSame(buffer, next, f.g1.encode(vk.alphaG1), segs, 0);
    next := next + f.g1.size;
    WriteSame(buffer, next, f.g2.encode(vk.betaG2), segs, 1);
    next := next + f.g2.size;
    WriteSame(buffer, next, f.g2.encode(vk.gammaG2), segs, 2);
    next := next + f.g2.size;
    WriteSegment(buffer, next, f.g2.encode(vk.deltaG2), segs, 3);
    next := next + f.g2.size;
    ghost var segs1 := segs[3 := f.g2.encode(vk.deltaG2)];
    WriteSame(buffer, next, LittleEndian(|vk.gammaAbcG1|, 8), segs1, 4);
    next := next + 8;
    EncodeAllSize(f.g1, p, vk.gammaAbcG1);
    WriteSame(buffer, next, EncodeAll(f.g1, vk.gammaAbcG1), segs1, 5);
    next := next + |vk.gammaAbcG1| * f.g1.size;
  }

  method WriteSame(buffer: array<Byte>, at: nat, bytes: Bytes, ghost segs: seq<Bytes>, ghost i: nat)
    requires buffer[..] == Concat(segs) && i < |segs| && at == Offset(segs, i) && bytes == segs[i]
    modifies buffer
    ensures buffer[..] == Concat(segs) && at + |bytes| == Offset(segs, i + 1)
  {
    WriteSegment(buffer, at, bytes, segs, i);
    assert segs[i := bytes] == segs;
  }

  /** The parameters with the H and L queries multiplied. */
  ghost function WithQueries(p: nat, m: Params, k: Scalar): Params
    requires 0 < p
  {
    m.(key := m.key.(hQuery := Scaled(p, m.key.hQuery, k), lQuery := Scaled(p, m.key.lQuery, k)))
  }

  lemma QueriesHold(f: Format, p: nat, m: Params, segs: seq<Bytes>, k: Scalar)
    requires 0 < p && Holds(f, p, m, segs)
    ensures Holds(f, p, WithQueries(p, m, k),
      segs[15 := EncodeAll(f.g1, Scaled(p, m.key.hQuery, k))][17 := EncodeAll(f.g1, Scaled(p, m.key.lQuery, k))])
  {
    hide Capacity, LittleEndian;
    var m' := WithQueries(p, m, k);
    var segs' := segs[15 := EncodeAll(f.g1, Scaled(p, m.key.hQuery, k))][17 := EncodeAll(f.g1, Scaled(p, m.key.lQuery, k))];
    hide AllIn, LittleEndian, EncodeAll, KeysIn, Mul;
    forall i | 0 <= i < 21 ensures segs'[i] == Segment(f, m', i) {
      assert segs[i] == Segment(f, m, i);
    }
  }

  /** The lengths of the H and the L query, with the positions of their points. */
  method ReadLengths(f: Format, p: nat, buffer: Bytes, at: nat, ghost m: Params, ghost segs: seq<Bytes>)
    returns (hLen: nat, lLen: nat)
    requires Holds(f, p, m, segs) && buffer == Concat(segs) && at == Offset(segs, 14)
    ensures hLen == |m.key.hQuery| && lLen == |m.key.lQuery|
    ensures at + 8 == Offset(segs, 15) && at + 8 + hLen * f.g1.size + 8 == Offset(segs, 17)
    ensures at + 8 + (lLen + hLen) * f.g1.size + 8 == Offset(segs, 18)
  {
    hide Capacity, LittleEndian;
    QuerySegments(f, p, m, segs);
    QueryOffsets(f, p, m, segs);
    assert |segs| == 23 && |m.key.hQuery| < Capacity(8) && |m.key.lQuery| < Capacity(8);
    assert segs[14] == LittleEndian(|m.key.hQuery|, 8) && segs[16] == LittleEndian(|m.key.lQuery|, 8);
    hide *;
    hLen := ReadLength(buffer, at, segs, 14, |m.key.hQuery|);
    lLen := ReadLength(buffer, at + 8 + hLen * f.g1.size, segs, 16, |m.key.lQuery|);
  }

  lemma QueryOffsets(f: Format, p: nat, m: Params, segs: seq<Bytes>)
    requires Holds(f, p, m, segs)
    ensures |segs| == 23
    ensures Offset(segs, 16) == Offset(segs, 15) + |m.key.hQuery| * f.g1.size
    ensures Offset(segs, 17) == Offset(segs, 16) + 8
    ensures Offset(segs, 18) == Offset(segs, 15) + (|m.key.lQuery| + |m.key.hQuery|) * f.g1.size + 8
  {
    hide Capacity, LittleEndian;
    QuerySegments(f, p, m, segs);
    EncodeAllSize(f.g1, p, m.key.hQuery);
    EncodeAllSize(f.g1, p, m.key.lQuery);
    assert |segs[16]| == 8;
    MulSum(|m.key.lQuery|, |m.key.hQuery|, f.g1.size);
    hide Concat, Offset, AllIn, EncodeAll, LittleEndian;
    OffsetStep(segs, 15);
    OffsetStep(segs, 16);
    OffsetStep(segs, 17);
  }

  /** Multiplies the H and the L query, and returns the position behind them. */
  method MulBoth(f: Format, p: nat, buffer: array<Byte>, at: nat, k: Scalar, batch: nat, ghost m: Params, ghost segs: seq<Bytes>)
    returns (next: nat)
    requires 0 < p && 0 < batch && Holds(f, p, m, segs) && buffer[..] == Concat(segs) && at == Offset(segs, 14)
    modifies buffer
    ensures var segs' := segs[15 := EncodeAll(f.g1, Scaled(p, m.key.hQuery, k))][17 := EncodeAll(f.g1, Scaled(p, m.key.lQuery, k))];
      buffer[..] == Concat(segs') && forall j :: 0 <= j <= 23 ==> Offset(segs', j) == Offset(segs, j)
    ensures next == Offset(segs, 18)
  {
    hide Capacity, LittleEndian;
    QuerySegments(f, p, m, segs);
    var hLen, lLen := ReadLengths(f, p, buffer[..], at, m, segs);
    assert |segs| == 23 && AllIn(p, m.key.hQuery) && AllIn(p, m.key.lQuery);
    assert segs[15] == EncodeAll(f.g1, m.key.hQuery) && segs[17] == EncodeAll(f.g1, m.key.lQuery);
    hide Holds, Concat, Offset, AllIn, EncodeAll, VectorAt, Scaled;
    MulSegment(f.g1, p, buffer, at + 8, hLen, k, batch, segs, 15, m.key.hQuery);
    ghost var segs1 := segs[15 := EncodeAll(f.g1, Scaled(p, m.key.hQuery, k))];
    MulSegment(f.g1, p, buffer, at + 8 + hLen * f.g1.size + 8, lLen, k, batch, segs1, 17, m.key.lQuery);
    next := at + 8 + (lLen + hLen) * f.g1.size + 8;
  }

  ghost function WithKey(m: Params, key: PublicKey): Params {
    m.(contributions := m.contributions + [key])
  }

  lemma KeyAppended(f: Format, p: nat, m: Params, segs: seq<Bytes>, key: PublicKey)
    requires Holds(f, p, m, segs)
    ensures Concat(segs[19 := BigEndian(|m.contributions| + 1, 4)][21 := EncodeKey(f, key)]) ==
      Encode(f, WithKey(m, key)) + segs[22]
  {
    hide Capacity, LittleEndian, BigEndian;
    var segs', m' := segs[19 := BigEndian(|m.contributions| + 1, 4)][21 := EncodeKey(f, key)], WithKey(m, key);
    KeySegments(f, p, m, segs, key, segs');
    MergeLast(Segments(f, m'), segs');
  }

  lemma KeySegments(f: Format, p: nat, m: Params, segs: seq<Bytes>, key: PublicKey, segs': seq<Bytes>)
    requires Holds(f, p, m, segs)
    requires segs' == segs[19 := BigEndian(|m.contributions| + 1, 4)][21 := EncodeKey(f, key)]
    ensures var t := Segments(f, WithKey(m, key)); t[..20] == segs'[..20] && t[20] == segs'[20] + segs'[21]
  {
    hide Capacity, LittleEndian, BigEndian;
    var m' := WithKey(m, key);
    var t := Segments(f, m');
    hide LittleEndian, EncodeAll, BigEndian, EncodeKey, Serializable;
    forall i | 0 <= i < 20 ensures segs'[i] == t[i] {
      assert segs[i] == Segment(f, m, i) && t[i] == Segment(f, m', i);
    }
    EncodeKeysAppend(f, m.contributions, [key]);
    assert EncodeKeys(f, [key]) == EncodeKey(f, key);
    assert t[20] == Segment(f, m', 20) && segs[20] == Segment(f, m, 20);
  }

  /** Two segments may be read as one. */
  lemma MergeLast(t: seq<Bytes>, segs: seq<Bytes>)
    requires |t| == 21 && |segs| == 23 && t[..20] == segs[..20] && t[20] == segs[20] + segs[21]
    ensures Concat(segs) == Concat(t) + segs[22]
  {
    Around(segs, 20);
    Around(t, 20);
    assert t[21..] == [];
    LastTwo(segs[21..]);
    assert segs[21..][0] == segs[21] && segs[21..][1] == segs[22];
  }

  lemma LastTwo(segs: seq<Bytes>)
    requires |segs| == 2
    ensures Concat(segs) == segs[0] + segs[1]
  {
    assert segs[1..][1..] == [];
    assert Concat(segs[1..]) == segs[1];
  }

  /** Counts the new key and writes it behind the others. */
  method AppendKey(f: Format, p: nat, buffer: array<Byte>, at: nat, count: nat, key: PublicKey,
                   ghost m: Params, ghost segs: seq<Bytes>)
    requires Holds(f, p, m, segs) && buffer[..] == Concat(segs) && at == Offset(segs, 18)
    requires count == |m.contributions| && KeyIn(p, key) && |segs[21]| == f.KeySize()
    modifies buffer
    ensures buffer[..] == Encode(f, WithKey(m, key)) + segs[22]
  {
    hide Capacity, BigEndian, FromBigEndian;
    TranscriptSegments(f, p, m, segs);
    EncodeKeysSize(f, p, m.contributions);
    EncodeKeySize(f, p, key);
    KeyAppended(f, p, m, segs, key);
    OffsetStep(segs, 18);
    OffsetStep(segs, 20);
    hide Holds, Concat, Offset, EncodeKeys, EncodeKey, KeysIn, BigEndian;
    WriteSegment(buffer, at + 64, BigEndian(count + 1, 4), segs, 19);
    ghost var segs1 := segs[19 := BigEndian(count + 1, 4)];
    WriteSegment(buffer, at + 68 + f.KeySize() * count, EncodeKey(f, key), segs1, 21);
  }

  lemma EncodedHolds(f: Format, p: nat, m: Params, room: Bytes, rest: Bytes)
    requires f.Valid(p) && Serializable(p, m)
    ensures Holds(f, p, m, Segments(f, m) + [room, rest])
    ensures Concat(Segments(f, m) + [room, rest]) == Encode(f, m) + room + rest
  {
    hide Capacity, LittleEndian, BigEndian, Segment, Serializable;
    ConcatAppend(Segments(f, m), [room, rest]);
    LastTwo([room, rest]);
  }

  /** What the contribution to a serialized `m` with room for a key returns and leaves in the buffer. */
  ghost predicate ContributionResult(suite: Suite, f: Format, m: Params, room: Bytes, rest: Bytes, delta: Scalar, s: G1,
                                     r: Verdict<Hash>, bytes: Bytes)
    requires suite.Valid()
  {
    if !AllReadable(m.contributions) then r == Rejected(UnreadableKey) && bytes == Encode(f, m) + room + rest
    else match Contributed(suite, m, delta, s)
      case Accepted(m') =>
        && m'.contributions != []
        && r == Accepted(suite.keyHash(m'.contributions[|m'.contributions| - 1]))
        && bytes == Encode(f, m') + rest
      case _ => r == Panicked && bytes == Encode(f, m) + room + rest
  }

  /**
    The contribution on a buffer. On the bytes of any parameters with room for one more key it
    leaves the bytes of the in-memory contribution with the same secrets, whatever the batch size;
    if the reader refuses a key, or delta has no inverse, the buffer stays as it was.
   */
  method ContributeInPlace(suite: Suite, f: Format, buffer: array<Byte>, delta: Scalar, s: G1, batch: nat,
                           ghost m: Params, ghost room: Bytes, ghost rest: Bytes)
    returns (r: Verdict<Hash>)
    requires suite.Valid() && f.Valid(suite.p) && Serializable(suite.p, m) && 0 < batch && s < suite.p
    requires |m.contributions| + 1 < Capacity(4) && |room| == f.KeySize() && buffer[..] == Encode(f, m) + room + rest
    modifies buffer
    ensures ContributionResult(suite, f, m, room, rest, delta, s, r, buffer[..])
  {
    ghost var p, segs := suite.p, Segments(f, m) + [room, rest];
    EncodedHolds(f, suite.p, m, room, rest);
    assert segs[21] == room && segs[22] == rest;
    hide Encode, Holds, Serializable, Prime, Segments, Concat, Offset;
    var vk, deltaG1, at := ReadHeader(f, suite.p, buffer[..], m, segs);
    at := SkipFixed(f, suite.p, buffer[..], at, m, segs);
    at := SkipQueries(f, suite.p, buffer[..], at, m, segs);
    var csHash, keys := ReadTranscript(f, suite.p, buffer[..], at, m, segs);
    if keys.None? { return Rejected(UnreadableKey); }
    var key := NewKey(suite, deltaG1, csHash, keys.value, delta, s);
    if delta == 0 { return Panicked; }
    Rewrite(suite.p, f, buffer, vk, deltaG1, delta, batch, |keys.value|, key, m, segs);
    return Accepted(suite.keyHash(key));
  }

  method SkipQueries(f: Format, p: nat, buffer: Bytes, at: nat, ghost m: Params, ghost segs: seq<Bytes>) returns (next: nat)
    requires Holds(f, p, m, segs) && buffer == Concat(segs) && at == Offset(segs, 14)
    ensures next == Offset(segs, 18)
  {
    hide Capacity, LittleEndian;
    QuerySegments(f, p, m, segs);
    hide Holds, Concat, Offset, VectorAt;
    next := SkipVec(f.g1, p, buffer, at, segs, 14, m.key.hQuery);
    next := SkipVec(f.g1, p, buffer, next, segs, 16, m.key.lQuery);
  }

  /** The writing half: deltas, queries in batches, and the new key. */
  method Rewrite(p: nat, f: Format, buffer: array<Byte>, vk: VerifyingKey, deltaG1: G1, delta: Scalar, batch: nat,
                 count: nat, key: PublicKey, ghost m: Params, ghost segs: seq<Bytes>)
    requires Prime(p) && 0 < batch && Holds(f, p, m, segs) && buffer[..] == Concat(segs)
    requires vk == m.key.vk && deltaG1 == m.key.deltaG1 && count == |m.contributions|
    requires KeyIn(p, key) && |segs[21]| == f.KeySize()
    modifies buffer
    ensures var m1 := WithDeltas(m, Mul(p, m.key.deltaG1, delta), Mul(p, m.key.vk.deltaG2, delta));
      buffer[..] == Encode(f, WithKey(WithQueries(p, m1, Inv(p, delta)), key)) + segs[22]
  {
    var d1, d2, k := Mul(p, deltaG1, delta), Mul(p, vk.deltaG2, delta), Inv(p, delta);
    ghost var m1, segs1 := WithDeltas(m, d1, d2), segs[3 := f.g2.encode(d2)][7 := f.g1.encode(d1)];
    QueriesHold(f, p, m1, segs1, k);
    hide Encode, Holds, Prime, Concat, Offset, Mul, Inv;
    var at := WriteHeader(f, p, buffer, vk.(deltaG2 := d2), d1, m, segs);
    at := SkipFixed(f, p, buffer[..], at, m1, segs1);
    at := MulBoth(f, p, buffer, at, k, batch, m1, segs1);
    ghost var segs2 := segs1[15 := EncodeAll(f.g1, Scaled(p, m1.key.hQuery, k))][17 := EncodeAll(f.g1, Scaled(p, m1.key.lQuery, k))];
    AppendKey(f, p, buffer, at, count, key, WithQueries(p, m1, k), segs2);
  }
}
