/**
  Multi-exponentiation by windows and buckets. Each window of `c` bits sorts the bases into
  buckets by exponent digit, in chunks that run in any order; windows combine by doubling. The
  result is the plain sum of exponent times base, whatever the window and the chunks.
 */
module Multiexp {
  import opened Arith
  import opened Field
  import opened Pairing

  // ----- sums of integers, taken modulo p at the end

  /** The integer sum of weight times base. */
  ghost function IntDot(weights: seq<nat>, bases: seq<nat>): int
    requires |weights| == |bases|
  {
    var last := |bases| - 1;
    if last < 0 then 0 else IntDot(weights[..last], bases[..last]) + weights[last] * bases[last]
  }

  lemma {:induction false} DotIsIntDot(p: nat, weights: seq<nat>, bases: seq<nat>)
    requires 0 < p && |weights| == |bases|
    ensures Dot(p, weights, bases) == IntDot(weights, bases) % p
  {
    var last := |bases| - 1;
    if last < 0 {
      DivUnique(0, p, 0, 0);
    } else {
      DotIsIntDot(p, weights[..last], bases[..last]);
      AddProducts(p, IntDot(weights[..last], bases[..last]), weights[last] * bases[last]);
    }
  }

  lemma {:induction false} IntDotAppend(w: seq<nat>, b: seq<nat>, w': seq<nat>, b': seq<nat>)
    requires |w| == |b| && |w'| == |b'|
    ensures IntDot(w + w', b + b') == IntDot(w, b) + IntDot(w', b')
  {
    if w' == [] {
      assert w + w' == w && b + b' == b;
    } else {
      var last := |w'| - 1;
      IntDotAppend(w, b, w'[..last], b'[..last]);
      assert (w + w')[..|w| + last] == w + w'[..last] && (b + b')[..|w| + last] == b + b'[..last];
    }
  }

  /** Weights add entry by entry. */
  lemma {:induction false} IntDotSum(u: seq<nat>, v: seq<nat>, w: seq<nat>, b: seq<nat>)
    requires |u| == |v| == |w| == |b| && forall i :: 0 <= i < |b| ==> w[i] == u[i] + v[i]
    ensures IntDot(w, b) == IntDot(u, b) + IntDot(v, b)
  {
    if b != [] {
      var last := |b| - 1;
      IntDotSum(u[..last], v[..last], w[..last], b[..last]);
      assert w[last] * b[last] == u[last] * b[last] + v[last] * b[last];
    }
  }

  lemma {:induction false} IntDotScale(k: nat, u: seq<nat>, w: seq<nat>, b: seq<nat>)
    requires |u| == |w| == |b| && forall i :: 0 <= i < |b| ==> w[i] == k * u[i]
    ensures IntDot(w, b) == k * IntDot(u, b)
  {
    if b != [] {
      var last := |b| - 1;
      IntDotScale(k, u[..last], w[..last], b[..last]);
      var x, y := IntDot(u[..last], b[..last]), u[last] * b[last];
      assert k * (x + y) == k * x + k * y;
      assert w[last] * b[last] == k * y;
    }
  }

  lemma {:induction false} IntDotZero(w: seq<nat>, b: seq<nat>)
    requires |w| == |b| && forall i :: 0 <= i < |w| ==> w[i] == 0
    ensures IntDot(w, b) == 0
  {
    if b != [] {
      IntDotZero(w[..|w| - 1], b[..|b| - 1]);
    }
  }

  // ----- powers of two and digits

  function Pow2(n: nat): (r: nat)
    ensures 0 < r
  {
    if n == 0 then 1 else 2 * Pow2(n - 1)
  }

  lemma {:induction false} Pow2Add(a: nat, b: nat)
    ensures Pow2(a + b) == Pow2(a) * Pow2(b)
  {
    if a > 0 {
      Pow2Add(a - 1, b);
      assert Pow2(a) * Pow2(b) == 2 * (Pow2(a - 1) * Pow2(b));
    }
  }

  lemma ModMod(x: nat, m: nat, n: nat)
    requires 0 < m && 0 < n
    ensures 0 < m * n && (x % (m * n)) % n == x % n
  {
    MulMonotone(1, m, n);
    var q, r := x / (m * n), x % (m * n);
    assert x == q * (m * n) + r;
    assert q * (m * n) == (q * m) * n;
    Congruent(n, x, r, q * m);
  }

  /** The window of `c` bits above bit `skip`, cut from the lowest 64-bit limb of the shifted exponent. */
  function Digit(e: nat, skip: nat, c: nat): (d: nat)
    ensures d < Pow2(c)
  {
    ((e / Pow2(skip)) % Pow2(64)) % Pow2(c)
  }

  /** A shifted exponent is its digit and, `c` bits higher, the exponent shifted further. */
  lemma DigitStep(e: nat, skip: nat, c: nat)
    requires c <= 64
    ensures e / Pow2(skip) == Pow2(c) * (e / Pow2(skip + c)) + Digit(e, skip, c)
  {
    hide Pow2;
    var x, m := e / Pow2(skip), Pow2(c);
    Pow2Add(64 - c, c);
    ModMod(x, Pow2(64 - c), m);
    DivDiv(e, Pow2(skip), m);
    Pow2Add(skip, c);
  }

  /** What is left of an exponent of `bits` bits fits in the last window. */
  lemma LastDigit(e: nat, skip: nat, c: nat, bits: nat)
    requires c <= 64 && e < Pow2(bits) && bits <= skip + c
    ensures e / Pow2(skip) == Digit(e, skip, c)
  {
    hide Pow2, Digit;
    DigitStep(e, skip, c);
    Pow2Monotone(bits, skip + c);
    DivUnique(e, Pow2(skip + c), 0, e);
  }

  lemma {:induction false} Pow2Monotone(a: nat, b: nat)
    requires a <= b
    ensures Pow2(a) <= Pow2(b)
  {
    if a < b {
      Pow2Monotone(a, b - 1);
    }
  }

  // ----- buckets

  ghost function TailSum(buckets: seq<int>): int {
    if buckets == [] then 0 else buckets[0] + TailSum(buckets[1..])
  }

  /** Bucket number `j` weighs `j + 1`. */
  ghost function Weighted(buckets: seq<int>): int {
    if buckets == [] then 0 else Weighted(buckets[1..]) + TailSum(buckets)
  }

  lemma {:induction false} BucketAdds(buckets: seq<int>, i: nat, x: int)
    requires i < |buckets|
    ensures TailSum(buckets[i := buckets[i] + x]) == TailSum(buckets) + x
    ensures Weighted(buckets[i := buckets[i] + x]) == Weighted(buckets) + (i + 1) * x
  {
    var after := buckets[i := buckets[i] + x];
    if i > 0 {
      BucketAdds(buckets[1..], i - 1, x);
      assert after[1..] == buckets[1..][i - 1 := buckets[1..][i - 1] + x];
      assert (i + 1) * x == i * x + x;
    } else {
      assert after[1..] == buckets[1..];
    }
  }

  lemma {:induction false} EmptyBuckets(buckets: seq<int>)
    requires forall i :: 0 <= i < |buckets| ==> buckets[i] == 0
    ensures Weighted(buckets) == 0 && TailSum(buckets) == 0
  {
    if buckets != [] {
      EmptyBuckets(buckets[1..]);
    }
  }

  /** Points that stand for these integers. */
  ghost predicate Represent(p: nat, points: seq<nat>, values: seq<int>)
    requires 0 < p
  {
    |points| == |values| && forall i :: 0 <= i < |points| ==> points[i] == values[i] % p
  }

  /** Sums the buckets from the highest down, each running sum added once more. */
  method SumBuckets(p: nat, buckets: seq<nat>, start: nat, ghost values: seq<int>, ghost start': int) returns (acc: nat)
    requires 0 < p && Represent(p, buckets, values) && start == start' % p
    ensures acc == (start' + Weighted(values)) % p
  {
    acc := start;
    var running := 0;
    var j := |buckets|;
    DivUnique(0, p, 0, 0);
    assert values[|buckets|..] == [];
    while j > 0
      invariant 0 <= j <= |buckets|
      invariant running == TailSum(values[j..]) % p
      invariant acc == (start' + Weighted(values[j..])) % p
    {
      j := j - 1;
      assert values[j..][1..] == values[j + 1..];
      assert values[j..][0] == values[j];
      AddProducts(p, TailSum(values[j + 1..]), values[j]);
      AddProducts(p, start' + Weighted(values[j + 1..]), TailSum(values[j..]));
      running := Add(p, running, buckets[j]);
      acc := Add(p, acc, running);
    }
    assert values[0..] == values;
  }

  // ----- one window of one chunk

  /** How often this window adds the base: ones only if they are handled here, zeros never. */
  function Weight(e: nat, skip: nat, c: nat, trivial: bool): nat {
    if e == 0 then 0
    else if e == 1 then if trivial then 1 else 0
    else Digit(e, skip, c)
  }

  function Weights(exponents: seq<nat>, skip: nat, c: nat, trivial: bool): (r: seq<nat>)
    ensures |r| == |exponents|
    ensures forall i :: 0 <= i < |r| ==> r[i] == Weight(exponents[i], skip, c, trivial)
  {
    seq(|exponents|, i requires 0 <= i < |exponents| => Weight(exponents[i], skip, c, trivial))
  }

  lemma WeightsStep(exponents: seq<nat>, bases: seq<nat>, skip: nat, c: nat, trivial: bool, i: nat)
    requires |exponents| == |bases| && i < |bases|
    ensures IntDot(Weights(exponents[..i + 1], skip, c, trivial), bases[..i + 1]) ==
      IntDot(Weights(exponents[..i], skip, c, trivial), bases[..i]) + Weight(exponents[i], skip, c, trivial) * bases[i]
  {
    hide Weight;
    var w := Weights(exponents[..i + 1], skip, c, trivial);
    assert w[..i] == Weights(exponents[..i], skip, c, trivial);
    assert bases[..i + 1][..i] == bases[..i];
  }

  method ChunkSum(p: nat, bases: seq<nat>, exponents: seq<nat>, skip: nat, c: nat, trivial: bool) returns (acc: nat)
    requires 0 < p && |bases| == |exponents| && AllIn(p, bases)
    ensures acc == IntDot(Weights(exponents, skip, c, trivial), bases) % p
  {
    var buckets: seq<nat> := seq(Pow2(c) - 1, _ => 0);
    acc := 0;
    ghost var values: seq<int>, ones: int := seq(Pow2(c) - 1, _ => 0), 0;
    DivUnique(0, p, 0, 0);
    EmptyBuckets(values);
    for i := 0 to |bases|
      invariant Represent(p, buckets, values) && |buckets| == Pow2(c) - 1 && acc == ones % p
      invariant ones + Weighted(values) == IntDot(Weights(exponents[..i], skip, c, trivial), bases[..i])
    {
      var e := exponents[i];
      WeightsStep(exponents, bases, skip, c, trivial, i);
      if e == 1 && trivial {
        AddMod(p, ones, bases[i]);
        acc := Add(p, acc, bases[i]);
        ones := ones + bases[i];
      } else if e > 1 {
        var d := Digit(e, skip, c);
        if d != 0 {
          AddMod(p, values[d - 1], bases[i]);
          BucketAdds(values, d - 1, bases[i]);
          buckets := buckets[d - 1 := Add(p, buckets[d - 1], bases[i])];
          values := values[d - 1 := values[d - 1] + bases[i]];
        }
      }
    }
    assert exponents[..|bases|] == exponents && bases[..|bases|] == bases;
    acc := SumBuckets(p, buckets, acc, values, ones);
  }

  // ----- one window, chunk by chunk in any order

  /** The weights of the chunks in `done`, zero elsewhere. */
  ghost function Masked(weights: seq<nat>, chunk: nat, done: set<nat>): (r: seq<nat>)
    requires 0 < chunk
    ensures |r| == |weights|
    ensures forall i :: 0 <= i < |r| ==> r[i] == if i / chunk in done then weights[i] else 0
  {
    seq(|weights|, i requires 0 <= i < |weights| => if i / chunk in done then weights[i] else 0)
  }

  /** Chunk `k` covers the indices from `Low` to `High`. */
  function Low(chunk: nat, k: nat): nat { k * chunk }

  function High(n: nat, chunk: nat, k: nat): nat { Min(n, Low(chunk, k) + chunk) }

  lemma InChunk(i: nat, chunk: nat, k: nat)
    requires 0 < chunk
    ensures i / chunk == k <==> Low(chunk, k) <= i < Low(chunk, k) + chunk
  {
    if Low(chunk, k) <= i < Low(chunk, k) + chunk {
      DivUnique(i, chunk, k, i - Low(chunk, k));
    }
    if i / chunk == k {
      assert i == k * chunk + i % chunk;
    }
  }

  /** A chunk's own weights are those of a mask that shows only it. */
  lemma OneChunk(weights: seq<nat>, bases: seq<nat>, chunk: nat, k: nat)
    requires 0 < chunk && |weights| == |bases| && Low(chunk, k) < |bases|
    ensures var lo, hi := Low(chunk, k), High(|bases|, chunk, k);
      IntDot(Masked(weights, chunk, {k}), bases) == IntDot(weights[lo..hi], bases[lo..hi])
  {
    var lo, hi, n := Low(chunk, k), High(|bases|, chunk, k), |bases|;
    var mask := Masked(weights, chunk, {k});
    forall i: nat | i < n ensures mask[i] == if lo <= i < hi then weights[i] else 0 {
      InChunk(i, chunk, k);
    }
    assert mask[lo..hi] == weights[lo..hi];
    hide Low, High, Masked;
    OnlyWithin(mask, bases, lo, hi);
  }

  lemma OnlyWithin(w: seq<nat>, b: seq<nat>, lo: nat, hi: nat)
    requires lo <= hi <= |w| == |b| && forall i :: 0 <= i < |w| && !(lo <= i < hi) ==> w[i] == 0
    ensures IntDot(w, b) == IntDot(w[lo..hi], b[lo..hi])
  {
    hide IntDot;
    IntDotAppend(w[..lo], b[..lo], w[lo..hi], b[lo..hi]);
    assert w[..lo] + w[lo..hi] == w[..hi] && b[..lo] + b[lo..hi] == b[..hi];
    IntDotAppend(w[..hi], b[..hi], w[hi..], b[hi..]);
    assert w[..hi] + w[hi..] == w && b[..hi] + b[hi..] == b;
    IntDotZero(w[..lo], b[..lo]);
    IntDotZero(w[hi..], b[hi..]);
  }

  lemma ChunkAdds(weights: seq<nat>, bases: seq<nat>, chunk: nat, done: set<nat>, k: nat)
    requires 0 < chunk && |weights| == |bases| && Low(chunk, k) < |bases| && k !in done
    ensures var lo, hi := Low(chunk, k), High(|bases|, chunk, k);
      IntDot(Masked(weights, chunk, done + {k}), bases) ==
      IntDot(Masked(weights, chunk, done), bases) + IntDot(weights[lo..hi], bases[lo..hi])
  {
    OneChunk(weights, bases, chunk, k);
    hide Low, High;
    IntDotSum(Masked(weights, chunk, done), Masked(weights, chunk, {k}), Masked(weights, chunk, done + {k}), bases);
  }

  function Below(n: nat): (r: set<nat>)
    ensures forall k :: k in r <==> 0 <= k < n
  {
    if n == 0 then {} else Below(n - 1) + {n - 1}
  }

  /** How many chunks it takes to cover `n` elements. */
  function Chunks(n: nat, chunk: nat): nat
    requires 0 < chunk
  {
    if n == 0 then 0 else (n - 1) / chunk + 1
  }

  lemma ChunkInRange(n: nat, chunk: nat, i: nat)
    requires 0 < chunk
    ensures i < Chunks(n, chunk) <==> Low(chunk, i) < n
    ensures i < n ==> i / chunk < Chunks(n, chunk)
  {
    if n > 0 {
      var q := (n - 1) / chunk;
      assert n - 1 == q * chunk + (n - 1) % chunk;
      if i <= q {
        MulMonotone(i, q, chunk);
      } else {
        MulMonotone(q + 1, i, chunk);
      }
      if i < n {
        DivMonotone(i, n - 1, chunk);
      }
    }
  }

  /** All chunks of one window; the threads deliver their sums in an order of their own. */
  method WindowSum(p: nat, bases: seq<nat>, exponents: seq<nat>, skip: nat, c: nat, trivial: bool, chunk: nat) returns (sum: nat)
    requires 0 < p && 0 < chunk && |bases| == |exponents| && AllIn(p, bases)
    ensures sum == IntDot(Weights(exponents, skip, c, trivial), bases) % p
  {
    hide IntDot, Masked, Add, Below, Chunks;
    var n := |bases|;
    ghost var weights := Weights(exponents, skip, c, trivial);
    var running := Below(Chunks(n, chunk));
    ghost var done: set<nat> := {};
    sum := 0;
    NothingDone(p, weights, bases, chunk);
    while running != {}
      invariant running + done == Below(Chunks(n, chunk))
      invariant running !! done
      invariant sum == IntDot(Masked(weights, chunk, done), bases) % p
      decreases running
    {
      var k :| k in running;
      ChunkInRange(n, chunk, k);
      var lo, hi := Low(chunk, k), High(n, chunk, k);
      var part := ChunkSum(p, bases[lo..hi], exponents[lo..hi], skip, c, trivial);
      PartAdds(p, bases, exponents, skip, c, trivial, chunk, done, k);
      sum := Add(p, sum, part);
      running, done := running - {k}, done + {k};
    }
    AllDone(weights, chunk, done);
  }

  lemma WeightsSlice(exponents: seq<nat>, skip: nat, c: nat, trivial: bool, lo: nat, hi: nat)
    requires lo <= hi <= |exponents|
    ensures Weights(exponents, skip, c, trivial)[lo..hi] == Weights(exponents[lo..hi], skip, c, trivial)
  {
    hide Weight;
  }

  lemma ChunkBounds(n: nat, chunk: nat, k: nat)
    requires Low(chunk, k) < n
    ensures Low(chunk, k) <= High(n, chunk, k) <= n
  {
  }

  /** Adding the sum of one more chunk to the sum of those that are done. */
  lemma PartAdds(p: nat, bases: seq<nat>, exponents: seq<nat>, skip: nat, c: nat, trivial: bool, chunk: nat, done: set<nat>, k: nat)
    requires 0 < p && 0 < chunk && |bases| == |exponents| && Low(chunk, k) < |bases| && k !in done
    ensures var weights, lo, hi := Weights(exponents, skip, c, trivial), Low(chunk, k), High(|bases|, chunk, k);
      IntDot(Masked(weights, chunk, done + {k}), bases) % p ==
      Add(p, IntDot(Masked(weights, chunk, done), bases) % p,
          IntDot(Weights(exponents[lo..hi], skip, c, trivial), bases[lo..hi]) % p)
  {
    hide *;
    ChunkBounds(|bases|, chunk, k);
    var weights, lo, hi := Weights(exponents, skip, c, trivial), Low(chunk, k), High(|bases|, chunk, k);
    WeightsSlice(exponents, skip, c, trivial, lo, hi);
    ChunkAdds(weights, bases, chunk, done, k);
    SumOfParts(p, IntDot(Masked(weights, chunk, done), bases), IntDot(weights[lo..hi], bases[lo..hi]));
  }

  lemma SumOfParts(p: nat, x: int, y: int)
    requires 0 < p
    ensures (x + y) % p == Add(p, x % p, y % p)
  {
    AddProducts(p, x, y);
  }

  lemma NothingDone(p: nat, weights: seq<nat>, bases: seq<nat>, chunk: nat)
    requires 0 < p && 0 < chunk && |weights| == |bases|
    ensures IntDot(Masked(weights, chunk, {}), bases) % p == 0
  {
    IntDotZero(Masked(weights, chunk, {}), bases);
    DivUnique(0, p, 0, 0);
  }

  lemma AllDone(weights: seq<nat>, chunk: nat, done: set<nat>)
    requires 0 < chunk && done == Below(Chunks(|weights|, chunk))
    ensures Masked(weights, chunk, done) == weights
  {
    forall i: nat | i < |weights| ensures Masked(weights, chunk, done)[i] == weights[i] {
      ChunkInRange(|weights|, chunk, i);
      DivNonnegative(i, chunk);
    }
  }

  lemma DivNonnegative(i: nat, chunk: nat)
    requires 0 < chunk
    ensures 0 <= i / chunk
  {
    DivMonotone(0, i, chunk);
    DivUnique(0, chunk, 0, 0);
  }

  // ----- all windows

  /** What the windows from `skip` on have to add of an exponent. */
  function Remaining(e: nat, skip: nat, trivial: bool): nat {
    if e == 0 then 0
    else if e == 1 then if trivial then 1 else 0
    else
      DivNonnegative(e, Pow2(skip));
      e / Pow2(skip)
  }

  function AllRemaining(exponents: seq<nat>, skip: nat, trivial: bool): (r: seq<nat>)
    ensures |r| == |exponents|
    ensures forall i :: 0 <= i < |r| ==> r[i] == Remaining(exponents[i], skip, trivial)
  {
    seq(|exponents|, i requires 0 <= i < |exponents| => Remaining(exponents[i], skip, trivial))
  }

  ghost predicate Fit(exponents: seq<nat>, bits: nat) {
    forall i :: 0 <= i < |exponents| ==> exponents[i] < Pow2(bits)
  }

  /** This window and the ones above it, shifted up. */
  lemma WindowsAdd(exponents: seq<nat>, bases: seq<nat>, skip: nat, c: nat, trivial: bool)
    requires c <= 64 && |exponents| == |bases|
    ensures IntDot(AllRemaining(exponents, skip, trivial), bases) ==
      Pow2(c) * IntDot(AllRemaining(exponents, skip + c, false), bases) + IntDot(Weights(exponents, skip, c, trivial), bases)
  {
    hide Pow2, Digit;
    var above := AllRemaining(exponents, skip + c, false);
    var shifted := seq(|exponents|, i requires 0 <= i < |exponents| => Pow2(c) * above[i]);
    IntDotScale(Pow2(c), above, shifted, bases);
    forall i | 0 <= i < |bases|
      ensures AllRemaining(exponents, skip, trivial)[i] == shifted[i] + Weights(exponents, skip, c, trivial)[i]
    {
      DigitStep(exponents[i], skip, c);
    }
    IntDotSum(shifted, Weights(exponents, skip, c, trivial), AllRemaining(exponents, skip, trivial), bases);
  }

  lemma LastWindow(exponents: seq<nat>, skip: nat, c: nat, trivial: bool, bits: nat)
    requires c <= 64 && Fit(exponents, bits) && bits <= skip + c
    ensures AllRemaining(exponents, skip, trivial) == Weights(exponents, skip, c, trivial)
  {
    hide Pow2, Digit;
    forall i | 0 <= i < |exponents|
      ensures AllRemaining(exponents, skip, trivial)[i] == Weights(exponents, skip, c, trivial)[i]
    {
      LastDigit(exponents[i], skip, c, bits);
    }
  }

  /** Doubles `c` times. */
  method DoubleTimes(p: nat, x: nat, c: nat, ghost value: int) returns (r: nat)
    requires 0 < p && x == value % p
    ensures r == (Pow2(c) * value) % p
  {
    r := x;
    ghost var v := value;
    assert Pow2(0) * value == value;
    for i := 0 to c
      invariant v == Pow2(i) * value && r == v % p
    {
      AddProducts(p, v, v);
      r, v := Add(p, r, r), v + v;
    }
  }

  method Windows(p: nat, bases: seq<nat>, exponents: seq<nat>, bits: nat, skip: nat, c: nat, trivial: bool, chunk: nat)
    returns (r: nat)
    requires 0 < p && 0 < chunk && 0 < c < 64 && |bases| == |exponents| && AllIn(p, bases) && Fit(exponents, bits)
    ensures r == IntDot(AllRemaining(exponents, skip, trivial), bases) % p
    decreases bits - skip
  {
    hide Fit, AllRemaining, Weights, IntDot, Pow2, AllIn;
    var here := WindowSum(p, bases, exponents, skip, c, trivial, chunk);
    if skip + c >= bits {
      LastWindow(exponents, skip, c, trivial, bits);
      return here;
    }
    var next := Windows(p, bases, exponents, bits, skip + c, c, false, chunk);
    ghost var above := IntDot(AllRemaining(exponents, skip + c, false), bases);
    next := DoubleTimes(p, next, c, above);
    WindowsAdd(exponents, bases, skip, c, trivial);
    AddProducts(p, Pow2(c) * above, IntDot(Weights(exponents, skip, c, trivial), bases));
    r := Add(p, next, here);
  }

  /**
    The multi-exponentiation is the plain sum of exponent times base: for exponents of `bits`
    bits, any window size below the limb size, and any division into chunks.
   */
  method DenseMultiexp(p: nat, bases: seq<nat>, exponents: seq<nat>, bits: nat, c: nat, chunk: nat) returns (r: nat)
    requires 0 < p && 0 < chunk && 0 < c < 64 && |bases| == |exponents| && AllIn(p, bases) && Fit(exponents, bits)
    ensures r == Dot(p, exponents, bases)
  {
    r := Windows(p, bases, exponents, bits, 0, c, true, chunk);
    assert AllRemaining(exponents, 0, true) == exponents;
    DotIsIntDot(p, exponents, bases);
  }

  /** Two vectors weighed with the same randomness. */
  method MergePairs(p: nat, v1: seq<nat>, v2: seq<nat>, randomness: seq<nat>, bits: nat, c: nat, chunk: nat)
    returns (s: nat, sx: nat)
    requires 0 < p && 0 < chunk && 0 < c < 64 && |v1| == |v2| == |randomness|
    requires AllIn(p, v1) && AllIn(p, v2) && Fit(randomness, bits)
    ensures s == Dot(p, randomness, v1) && sx == Dot(p, randomness, v2)
  {
    s := DenseMultiexp(p, v1, randomness, bits, c, chunk);
    sx := DenseMultiexp(p, v2, randomness, bits, c, chunk);
  }
}
