/**
  Reading parameters back from bytes. The reader undoes the writer, so a buffer that holds the
  code of some parameters determines them.
 */
module Readers {
  import opened Wrappers
  import opened Field
  import opened Pairing
  import opened Phase2
  import opened Contributions
  import opened Codec
  import opened ChunkedGroth16

  /** A value read off the front of the bytes, with what is left. */
  datatype Parse<+T> = Parsed(value: T, rest: Bytes) | Malformed {
    predicate IsFailure() { Malformed? }

    function PropagateFailure<U>(): Parse<U>
      requires Malformed?
    {
      Malformed
    }

    function Extract(): (T, Bytes)
      requires Parsed?
    {
      (value, rest)
    }
  }

  function Take(n: nat, bytes: Bytes): Parse<Bytes> {
    if |bytes| < n then Malformed else Parsed(bytes[..n], bytes[n..])
  }

  function ParsePoint(c: PointCode, bytes: Bytes): Parse<nat> {
    var code :- Take(c.size, bytes);
    match c.decode(code.0)
    case None => Malformed
    case Some(x) => Parsed(x, code.1)
  }

  function ParsePoints(c: PointCode, n: nat, bytes: Bytes): Parse<seq<nat>> {
    if n == 0 then Parsed([], bytes)
    else
      var first :- ParsePoint(c, bytes);
      var more :- ParsePoints(c, n - 1, first.1);
      Parsed([first.0] + more.0, more.1)
  }

  function ParseVec(c: PointCode, bytes: Bytes): Parse<seq<nat>> {
    var len :- Take(8, bytes);
    ParsePoints(c, FromLittleEndian(len.0), len.1)
  }

  function ParseVk(f: Format, bytes: Bytes): Parse<VerifyingKey> {
    var alpha :- ParsePoint(f.g1, bytes);
    var beta :- ParsePoint(f.g2, alpha.1);
    var gamma :- ParsePoint(f.g2, beta.1);
    var delta :- ParsePoint(f.g2, gamma.1);
    var gammaAbc :- ParseVec(f.g1, delta.1);
    Parsed(VerifyingKey(alpha.0, beta.0, gamma.0, delta.0, gammaAbc.0), gammaAbc.1)
  }

  function ParseProvingKey(f: Format, bytes: Bytes): Parse<ProvingKey> {
    var vk :- ParseVk(f, bytes);
    var betaG1 :- ParsePoint(f.g1, vk.1);
    var deltaG1 :- ParsePoint(f.g1, betaG1.1);
    var a :- ParseVec(f.g1, deltaG1.1);
    var b1 :- ParseVec(f.g1, a.1);
    var b2 :- ParseVec(f.g2, b1.1);
    var h :- ParseVec(f.g1, b2.1);
    var l :- ParseVec(f.g1, h.1);
    Parsed(ProvingKey(vk.0, betaG1.0, deltaG1.0, a.0, b1.0, b2.0, h.0, l.0), l.1)
  }

  function ParseKeys(f: Format, n: nat, bytes: Bytes): Parse<seq<PublicKey>> {
    if n == 0 then Parsed([], bytes)
    else
      var code :- Take(f.KeySize(), bytes);
      match ReadKey(f, code.0)
      case None => Malformed
      case Some(key) =>
        var more :- ParseKeys(f, n - 1, code.1);
        Parsed([key] + more.0, more.1)
  }

  function ParseParams(f: Format, bytes: Bytes): Parse<Params> {
    var key :- ParseProvingKey(f, bytes);
    var csHash :- Take(64, key.1);
    var count :- Take(4, csHash.1);
    var keys :- ParseKeys(f, FromBigEndian(count.0), count.1);
    Parsed(Params(key.0, csHash.0, keys.0), keys.1)
  }

  // ----- round trips

  /** The buffer from segment `i` on. */
  ghost function From(segs: seq<Bytes>, i: nat): Bytes
    requires i <= |segs|
  {
    Concat(segs[i..])
  }

  lemma TakeSegment(segs: seq<Bytes>, i: nat)
    requires i < |segs|
    ensures Take(|segs[i]|, From(segs, i)) == Parsed(segs[i], From(segs, i + 1))
  {
    assert segs[i..][0] == segs[i] && segs[i..][1..] == segs[i + 1..];
    assert Concat(segs[i..]) == segs[i] + Concat(segs[i + 1..]);
  }

  lemma PointBack(c: PointCode, p: nat, segs: seq<Bytes>, i: nat, x: nat)
    requires c.Valid(p) && x < p && i < |segs| && segs[i] == c.encode(x)
    ensures ParsePoint(c, From(segs, i)) == Parsed(x, From(segs, i + 1))
  {
    TakeSegment(segs, i);
    hide From, Take;
  }

  lemma {:induction false} PointsBack(c: PointCode, p: nat, points: seq<nat>, rest: Bytes)
    requires c.Valid(p) && AllIn(p, points)
    ensures ParsePoints(c, |points|, EncodeAll(c, points) + rest) == Parsed(points, rest)
  {
    if points == [] {
      assert EncodeAll(c, points) + rest == rest;
    } else {
      PointsBack(c, p, points[1..], rest);
      var later := EncodeAll(c, points[1..]) + rest;
      assert EncodeAll(c, points) + rest == c.encode(points[0]) + later;
      FirstPoint(c, p, points[0], later);
      assert points == [points[0]] + points[1..];
    }
  }

  lemma FirstPoint(c: PointCode, p: nat, x: nat, rest: Bytes)
    requires c.Valid(p) && x < p
    ensures ParsePoint(c, c.encode(x) + rest) == Parsed(x, rest)
  {
    var bytes := c.encode(x) + rest;
    assert bytes[..c.size] == c.encode(x) && bytes[c.size..] == rest;
  }

  lemma VecBack(c: PointCode, p: nat, segs: seq<Bytes>, i: nat, points: seq<nat>)
    requires c.Valid(p) && VectorAt(c, p, segs, i, points)
    ensures ParseVec(c, From(segs, i)) == Parsed(points, From(segs, i + 2))
  {
    hide Capacity, LittleEndian, FromLittleEndian;
    TakeSegment(segs, i);
    LittleEndianBack(|points|, 8);
    assert From(segs, i + 1) == segs[i + 1] + From(segs, i + 2) by {
      assert segs[i + 1..][0] == segs[i + 1] && segs[i + 1..][1..] == segs[i + 2..];
    }
    hide From, Take, ParsePoints;
    PointsBack(c, p, points, From(segs, i + 2));
  }

  lemma {:induction false} KeysBack(f: Format, p: nat, keys: seq<PublicKey>, rest: Bytes)
    requires f.Valid(p) && KeysIn(p, keys)
    ensures ParseKeys(f, |keys|, EncodeKeys(f, keys) + rest) == if AllReadable(keys) then Parsed(keys, rest) else Malformed
  {
    if keys == [] {
      assert EncodeKeys(f, keys) + rest == rest;
    } else {
      assert KeyIn(p, keys[0]) && KeysIn(p, keys[1..]);
      hide *;
      FirstEncoded(f, keys, rest);
      KeysBack(f, p, keys[1..], rest);
      FirstKey(f, p, keys[0], EncodeKeys(f, keys[1..]) + rest, |keys| - 1);
      assert keys == [keys[0]] + keys[1..];
    }
  }

  lemma FirstEncoded(f: Format, keys: seq<PublicKey>, rest: Bytes)
    requires keys != []
    ensures EncodeKeys(f, keys) + rest == EncodeKey(f, keys[0]) + (EncodeKeys(f, keys[1..]) + rest)
  {
  }

  /** One key in front of what is read as `n` more. */
  lemma FirstKey(f: Format, p: nat, key: PublicKey, later: Bytes, n: nat)
    requires f.Valid(p) && KeyIn(p, key)
    ensures ParseKeys(f, n + 1, EncodeKey(f, key) + later) ==
      if !Readable(key) then Malformed
      else match ParseKeys(f, n, later)
        case Malformed => Malformed
        case Parsed(keys, rest) => Parsed([key] + keys, rest)
  {
    var first := EncodeKey(f, key);
    KeyBack(f, p, key);
    assert (first + later)[..f.KeySize()] == first && (first + later)[f.KeySize()..] == later;
    hide EncodeKey, ReadKey, Readable;
  }

  lemma FromStart(segs: seq<Bytes>)
    ensures From(segs, 0) == Concat(segs)
  {
    assert segs[0..] == segs;
  }

  lemma VkBack(f: Format, p: nat, m: Params, segs: seq<Bytes>)
    requires Holds(f, p, m, segs)
    ensures ParseVk(f, Concat(segs)) == Parsed(m.key.vk, From(segs, 6))
  {
    assert |segs| == 23;
    hide Holds, From, Concat, ParsePoint, ParseVec, VectorAt;
    HeaderSegments(f, p, m, segs);
    FromStart(segs);
    PointBack(f.g1, p, segs, 0, m.key.vk.alphaG1);
    PointBack(f.g2, p, segs, 1, m.key.vk.betaG2);
    PointBack(f.g2, p, segs, 2, m.key.vk.gammaG2);
    PointBack(f.g2, p, segs, 3, m.key.vk.deltaG2);
    VecBack(f.g1, p, segs, 4, m.key.vk.gammaAbcG1);
  }

  lemma ProvingKeyBack(f: Format, p: nat, m: Params, segs: seq<Bytes>)
    requires Holds(f, p, m, segs)
    ensures ParseProvingKey(f, Concat(segs)) == Parsed(m.key, From(segs, 18))
  {
    assert |segs| == 23;
    hide Holds, From, Concat, ParsePoint, ParseVec, ParseVk, VectorAt;
    VkBack(f, p, m, segs);
    HeaderSegments(f, p, m, segs);
    QuerySegments(f, p, m, segs);
    PointBack(f.g1, p, segs, 6, m.key.betaG1);
    PointBack(f.g1, p, segs, 7, m.key.deltaG1);
    VecBack(f.g1, p, segs, 8, m.key.aQuery);
    VecBack(f.g1, p, segs, 10, m.key.bG1Query);
    VecBack(f.g2, p, segs, 12, m.key.bG2Query);
    VecBack(f.g1, p, segs, 14, m.key.hQuery);
    VecBack(f.g1, p, segs, 16, m.key.lQuery);
  }

  /** Parameters are read back as they were written, if the reader lets their keys pass. */
  lemma ParamsBack(f: Format, p: nat, m: Params, rest: Bytes)
    requires f.Valid(p) && Serializable(p, m)
    ensures ParseParams(f, Encode(f, m) + rest) == if AllReadable(m.contributions) then Parsed(m, rest) else Malformed
  {
    hide Capacity, BigEndian, FromBigEndian;
    var segs := Segments(f, m) + [[], rest];
    EncodedHolds(f, p, m, [], rest);
    assert Encode(f, m) + [] + rest == Encode(f, m) + rest;
    ProvingKeyBack(f, p, m, segs);
    TranscriptSegments(f, p, m, segs);
    TakeSegment(segs, 18);
    TakeSegment(segs, 19);
    BigEndianBack(|m.contributions|, 4);
    KeysFrom(f, m, segs, rest);
    KeysBack(f, p, m.contributions, rest);
    hide Holds, From, Concat, Take, ParseProvingKey, ParseKeys, EncodeKeys, AllReadable;
  }

  lemma KeysFrom(f: Format, m: Params, segs: seq<Bytes>, rest: Bytes)
    requires |segs| == 23 && segs[20] == EncodeKeys(f, m.contributions) && segs[21] == [] && segs[22] == rest
    ensures From(segs, 20) == EncodeKeys(f, m.contributions) + rest
  {
    assert segs[20..][0] == segs[20] && segs[20..][1..] == segs[21..];
    LastTwo(segs[21..]);
    hide EncodeKeys;
  }

  /**
    After a contribution on a buffer the reader finds the in-memory contribution, exactly when the
    secrets make a key that the reader accepts: when the random point and the old delta are not zero.
   */
  lemma ContributionReadsBack(suite: Suite, f: Format, m: Params, delta: Scalar, s: G1, rest: Bytes)
    requires suite.Valid() && f.Valid(suite.p) && Serializable(suite.p, m) && AllReadable(m.contributions)
    requires |m.contributions| + 1 < Capacity(4) && 0 < delta < suite.p && s < suite.p
    ensures var m' := Contributed(suite, m, delta, s).value;
      ParseParams(f, Encode(f, m') + rest) == if s != 0 && m.key.deltaG1 != 0 then Parsed(m', rest) else Malformed
  {
    hide Capacity, Mul, Inv, Prime;
    var m' := Contributed(suite, m, delta, s).value;
    ContributeIn(suite, m, delta, s);
    assert Serializable(suite.p, m');
    NewKeyReadable(suite, m, delta, s);
    ParamsBack(f, suite.p, m', rest);
    AppendReadable(m.contributions, m'.contributions[|m.contributions|]);
  }

  lemma AppendReadable(keys: seq<PublicKey>, key: PublicKey)
    requires AllReadable(keys)
    ensures AllReadable(keys + [key]) <==> Readable(key)
  {
    assert (keys + [key])[|keys|] == key;
  }

  lemma NewKeyReadable(suite: Suite, m: Params, delta: Scalar, s: G1)
    requires suite.Valid() && 0 < delta < suite.p && s < suite.p && m.key.deltaG1 < suite.p
    ensures Readable(NewKey(suite, m.key.deltaG1, m.csHash, m.contributions, delta, s)) <==> s != 0 && m.key.deltaG1 != 0
  {
    hide Mul, Prime;
    var key := NewKey(suite, m.key.deltaG1, m.csHash, m.contributions, delta, s);
    MulZero(suite.p, delta);
    MulNonzero(suite.p, suite.toCurve(key.transcript), delta);
    if s != 0 {
      MulNonzero(suite.p, s, delta);
    }
    if m.key.deltaG1 != 0 {
      MulNonzero(suite.p, m.key.deltaG1, delta);
    }
  }
}
