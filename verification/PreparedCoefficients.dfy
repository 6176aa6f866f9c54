/**
  The prepared phase 1 coefficients in a file: written once for the full size, read back for any
  smaller size by taking the front of each vector and skipping the rest.
 */
module PreparedCoefficients {
  import opened Wrappers
  import Arith
  import opened Pairing
  import opened Codec
  import opened Readers
  import opened KeyGeneration

  /** The codes in use: compressed or not, one for each group. */
  datatype Codes = Codes(g1: PointCode, g2: PointCode)

  function Write(k: Codes, c: Coefficients): Bytes {
    k.g1.encode(c.alphaG1) + k.g1.encode(c.betaG1) + k.g2.encode(c.betaG2)
    + EncodeAll(k.g1, c.coeffsG1) + EncodeAll(k.g2, c.coeffsG2)
    + EncodeAll(k.g1, c.alphaCoeffsG1) + EncodeAll(k.g1, c.betaCoeffsG1)
    + EncodeAll(k.g1, c.hG1)
  }

  function ReadElement(code: PointCode, bytes: Bytes, check: Correctness): Parse<nat> {
    var x :- ParsePoint(code, bytes);
    if check.Passes(x.0) then Parsed(x.0, x.1) else Malformed
  }

  /** Reads the whole slice as points. */
  function ReadSlice(code: PointCode, slice: Bytes, check: Correctness): Option<seq<nat>>
    requires 0 < code.size
  {
    match ParsePoints(code, |slice| / code.size, slice)
    case Malformed => None
    case Parsed(points, _) => if check.AllPass(points) then Some(points) else None
  }

  /** The front `n` of `total` elements of `size` bytes each, and what comes after all of them. */
  function Front(bytes: Bytes, size: nat, n: nat, total: nat): Parse<Bytes>
    requires n <= total
  {
    var front :- Take(size * n, bytes);
    var skipped :- Take((total - n) * size, front.1);
    Parsed(front.0, skipped.1)
  }

  /** Reads the parameters for `n` constraints from coefficients prepared for `total`. */
  function Read(k: Codes, bytes: Bytes, check: Correctness, total: nat, n: nat): Option<Coefficients>
    requires 1 <= n <= total && 0 < k.g1.size && 0 < k.g2.size
  {
    match ReadHead(k, bytes, check)
    case Malformed => None
    case Parsed(head, rest) =>
      match SplitTranscript(k, rest, total, n)
      case Malformed => None
      case Parsed(s, _) =>
        var coeffsG1, coeffsG2 := ReadSlice(k.g1, s.coeffsG1, check), ReadSlice(k.g2, s.coeffsG2, check);
        var alpha, beta := ReadSlice(k.g1, s.alphaCoeffsG1, check), ReadSlice(k.g1, s.betaCoeffsG1, check);
        var h := ReadSlice(k.g1, s.h, check);
        if coeffsG1.None? || coeffsG2.None? || alpha.None? || beta.None? || h.None? then None
        else Some(Coefficients(head.0, head.1, head.2, coeffsG1.value, coeffsG2.value, alpha.value, beta.value, h.value))
  }

  function ReadHead(k: Codes, bytes: Bytes, check: Correctness): Parse<(G1, G1, G2)> {
    var alpha :- ReadElement(k.g1, bytes, check);
    var betaG1 :- ReadElement(k.g1, alpha.1, check);
    var betaG2 :- ReadElement(k.g2, betaG1.1, check);
    Parsed((alpha.0, betaG1.0, betaG2.0), betaG2.1)
  }

  datatype Slices = Slices(coeffsG1: Bytes, coeffsG2: Bytes, alphaCoeffsG1: Bytes, betaCoeffsG1: Bytes, h: Bytes)

  function SplitTranscript(k: Codes, bytes: Bytes, total: nat, n: nat): Parse<Slices>
    requires 1 <= n <= total
  {
    var coeffsG1 :- Front(bytes, k.g1.size, n, total);
    var coeffsG2 :- Front(coeffsG1.1, k.g2.size, n, total);
    var alpha :- Front(coeffsG2.1, k.g1.size, n, total);
    var beta :- Front(alpha.1, k.g1.size, n, total);
    var h :- Take(k.g1.size * (n - 1), beta.1);
    Parsed(Slices(coeffsG1.0, coeffsG2.0, alpha.0, beta.0, h.0), h.1)
  }

  // ----- reading back a prefix

  /** The coefficients of a smaller size: the front of each vector. */
  ghost function Prefix(c: Coefficients, n: nat): Coefficients
    requires 1 <= n <= |c.coeffsG1| && n <= |c.coeffsG2| && n <= |c.alphaCoeffsG1| && n <= |c.betaCoeffsG1| && n - 1 <= |c.hG1|
  {
    c.(coeffsG1 := c.coeffsG1[..n], coeffsG2 := c.coeffsG2[..n], alphaCoeffsG1 := c.alphaCoeffsG1[..n],
       betaCoeffsG1 := c.betaCoeffsG1[..n], hG1 := c.hG1[..n - 1])
  }

  ghost predicate AllPass(check: Correctness, c: Coefficients) {
    && check.Passes(c.alphaG1) && check.Passes(c.betaG1) && check.Passes(c.betaG2)
    && check.AllPass(c.coeffsG1) && check.AllPass(c.coeffsG2) && check.AllPass(c.alphaCoeffsG1)
    && check.AllPass(c.betaCoeffsG1) && check.AllPass(c.hG1)
  }

  /** Coefficients of the field, prepared for size `total`. */
  ghost predicate Sized(p: nat, c: Coefficients, total: nat) {
    && 1 <= total
    && c.alphaG1 < p && c.betaG1 < p && c.betaG2 < p
    && AllIn(p, c.coeffsG1) && AllIn(p, c.coeffsG2) && AllIn(p, c.alphaCoeffsG1) && AllIn(p, c.betaCoeffsG1) && AllIn(p, c.hG1)
    && |c.coeffsG1| == |c.coeffsG2| == |c.alphaCoeffsG1| == |c.betaCoeffsG1| == total
    && |c.hG1| == total - 1
  }

  lemma FrontBack(code: PointCode, p: nat, points: seq<nat>, n: nat, rest: Bytes)
    requires code.Valid(p) && AllIn(p, points) && n <= |points|
    ensures Front(EncodeAll(code, points) + rest, code.size, n, |points|) == Parsed(EncodeAll(code, points[..n]), rest)
  {
    hide EncodeAll, AllIn, Take;
    var front, back := EncodeAll(code, points[..n]), EncodeAll(code, points[n..]);
    CutSizes(code, p, points, n);
    assert front + back + rest == front + (back + rest);
    TakeFront(front, back + rest);
    TakeFront(back, rest);
  }

  /** The code of a vector is the code of its front and the code of the rest. */
  lemma CutSizes(code: PointCode, p: nat, points: seq<nat>, n: nat)
    requires code.Valid(p) && AllIn(p, points) && n <= |points|
    ensures var front, back := EncodeAll(code, points[..n]), EncodeAll(code, points[n..]);
      && EncodeAll(code, points) == front + back
      && |front| == code.size * n && |back| == (|points| - n) * code.size
  {
    assert AllIn(p, points[..n]) && AllIn(p, points[n..]);
    hide EncodeAll, AllIn;
    assert points == points[..n] + points[n..];
    EncodeAllAppend(code, points[..n], points[n..]);
    EncodeAllSize(code, p, points[..n]);
    EncodeAllSize(code, p, points[n..]);
  }

  lemma TakeFront(front: Bytes, rest: Bytes)
    ensures Take(|front|, front + rest) == Parsed(front, rest)
  {
  }

  lemma LastFront(code: PointCode, p: nat, points: seq<nat>, n: nat)
    requires code.Valid(p) && AllIn(p, points) && n <= |points|
    ensures Take(code.size * n, EncodeAll(code, points)).Parsed?
    ensures Take(code.size * n, EncodeAll(code, points)).value == EncodeAll(code, points[..n])
  {
    hide EncodeAll, AllIn;
    var front, back := EncodeAll(code, points[..n]), EncodeAll(code, points[n..]);
    CutSizes(code, p, points, n);
    assert (front + back)[..|front|] == front;
  }

  lemma SliceBack(code: PointCode, p: nat, points: seq<nat>, check: Correctness)
    requires code.Valid(p) && AllIn(p, points)
    ensures ReadSlice(code, EncodeAll(code, points), check) == if check.AllPass(points) then Some(points) else None
  {
    EncodeAllSize(code, p, points);
    Arith.DivUnique(|EncodeAll(code, points)|, code.size, |points|, 0);
    PointsBack(code, p, points, []);
    assert EncodeAll(code, points) + [] == EncodeAll(code, points);
  }

  lemma HeadBack(k: Codes, p: nat, c: Coefficients, check: Correctness, rest: Bytes)
    requires k.g1.Valid(p) && k.g2.Valid(p) && c.alphaG1 < p && c.betaG1 < p && c.betaG2 < p
    ensures ReadHead(k, k.g1.encode(c.alphaG1) + (k.g1.encode(c.betaG1) + (k.g2.encode(c.betaG2) + rest)), check) ==
      if check.Passes(c.alphaG1) && check.Passes(c.betaG1) && check.Passes(c.betaG2)
      then Parsed((c.alphaG1, c.betaG1, c.betaG2), rest) else Malformed
  {
    FirstPoint(k.g2, p, c.betaG2, rest);
    FirstPoint(k.g1, p, c.betaG1, k.g2.encode(c.betaG2) + rest);
    FirstPoint(k.g1, p, c.alphaG1, k.g1.encode(c.betaG1) + (k.g2.encode(c.betaG2) + rest));
    hide ParsePoint;
  }

  /** The vectors of the file, each in front of the ones after it. */
  ghost function Body(k: Codes, c: Coefficients): Bytes {
    EncodeAll(k.g1, c.coeffsG1) + (EncodeAll(k.g2, c.coeffsG2)
    + (EncodeAll(k.g1, c.alphaCoeffsG1) + (EncodeAll(k.g1, c.betaCoeffsG1) + EncodeAll(k.g1, c.hG1))))
  }

  lemma WriteParts(k: Codes, c: Coefficients)
    ensures Write(k, c) == k.g1.encode(c.alphaG1) + (k.g1.encode(c.betaG1) + (k.g2.encode(c.betaG2) + Body(k, c)))
  {
    hide EncodeAll;
  }

  lemma SplitBack(k: Codes, p: nat, c: Coefficients, total: nat, n: nat)
    requires k.g1.Valid(p) && k.g2.Valid(p) && Sized(p, c, total) && 1 <= n <= total
    ensures SplitTranscript(k, Body(k, c), total, n).Parsed?
    ensures SplitTranscript(k, Body(k, c), total, n).value ==
      Slices(EncodeAll(k.g1, c.coeffsG1[..n]), EncodeAll(k.g2, c.coeffsG2[..n]), EncodeAll(k.g1, c.alphaCoeffsG1[..n]),
             EncodeAll(k.g1, c.betaCoeffsG1[..n]), EncodeAll(k.g1, c.hG1[..n - 1]))
  {
    hide EncodeAll, Front, Take, AllIn;
    var h := EncodeAll(k.g1, c.hG1);
    var b := EncodeAll(k.g1, c.betaCoeffsG1) + h;
    var a := EncodeAll(k.g1, c.alphaCoeffsG1) + b;
    var g2 := EncodeAll(k.g2, c.coeffsG2) + a;
    FrontBack(k.g1, p, c.coeffsG1, n, g2);
    FrontBack(k.g2, p, c.coeffsG2, n, a);
    FrontBack(k.g1, p, c.alphaCoeffsG1, n, b);
    FrontBack(k.g1, p, c.betaCoeffsG1, n, h);
    LastFront(k.g1, p, c.hG1, n - 1);
  }

  /**
    Reading at any smaller size gives exactly the prefixes of what was written, and it succeeds
    exactly when every point it reads passes the requested check; points behind are not looked at.
   */
  lemma PrefixBack(k: Codes, p: nat, c: Coefficients, check: Correctness, total: nat, n: nat)
    requires k.g1.Valid(p) && k.g2.Valid(p) && Sized(p, c, total) && 1 <= n <= total
    ensures Read(k, Write(k, c), check, total, n) == if AllPass(check, Prefix(c, n)) then Some(Prefix(c, n)) else None
  {
    WriteParts(k, c);
    HeadBack(k, p, c, check, Body(k, c));
    SplitBack(k, p, c, total, n);
    hide EncodeAll, SplitTranscript, ReadHead, ReadSlice, Write, Body;
    SliceBack(k.g1, p, c.coeffsG1[..n], check);
    SliceBack(k.g2, p, c.coeffsG2[..n], check);
    SliceBack(k.g1, p, c.alphaCoeffsG1[..n], check);
    SliceBack(k.g1, p, c.betaCoeffsG1[..n], check);
    SliceBack(k.g1, p, c.hG1[..n - 1], check);
  }

  /** Some point among those read for size `n` is zero. */
  ghost predicate HasZero(c: Coefficients, n: nat)
    requires 1 <= n <= |c.coeffsG1| && n <= |c.coeffsG2| && n <= |c.alphaCoeffsG1| && n <= |c.betaCoeffsG1| && n - 1 <= |c.hG1|
  {
    || c.alphaG1 == 0 || c.betaG1 == 0 || c.betaG2 == 0
    || 0 in c.coeffsG1[..n] || 0 in c.coeffsG2[..n] || 0 in c.alphaCoeffsG1[..n] || 0 in c.betaCoeffsG1[..n] || 0 in c.hG1[..n - 1]
  }

  /** A file with a zero point among those that are read is refused exactly when zero points are checked for. */
  lemma ZeroRefusedIff(k: Codes, p: nat, c: Coefficients, check: Correctness, total: nat, n: nat)
    requires k.g1.Valid(p) && k.g2.Valid(p) && Sized(p, c, total) && 1 <= n <= total
    ensures Read(k, Write(k, c), check, total, n).None? <==> HasZero(c, n) && (check == Full || check == OnlyNonZero)
  {
    PrefixBack(k, p, c, check, total, n);
    hide Read, Write;
    NonzeroIff(c.coeffsG1[..n], check);
    NonzeroIff(c.coeffsG2[..n], check);
    NonzeroIff(c.alphaCoeffsG1[..n], check);
    NonzeroIff(c.betaCoeffsG1[..n], check);
    NonzeroIff(c.hG1[..n - 1], check);
    hide Correctness.AllPass;
  }

  lemma NonzeroIff(points: seq<nat>, check: Correctness)
    ensures check.AllPass(points) <==> 0 !in points || (check != Full && check != OnlyNonZero)
  {
    if 0 in points {
      var i :| 0 <= i < |points| && points[i] == 0;
    }
  }
}
