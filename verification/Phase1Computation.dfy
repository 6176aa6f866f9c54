/**
  The phase 1 computation on output buffers: it walks over the powers in overlapping batches,
  checks every element it reads and writes it raised. Whatever the batch size, mode and chunk, the
  computation succeeds exactly when every element of its part passes the check, and then the
  buffers hold exactly the contribution.
 */
module Phase1Computation {
  import opened Wrappers
  import Codec
  import opened Arith
  import opened Field
  import opened Pairing
  import opened Multiexp
  import opened Phase1

  type Correctness = Codec.Correctness

  datatype Mode = Full | Chunked(index: nat, size: nat)

  /** `g1Length` powers in G1 and `length` of the other elements (Marlin uses only `length`). */
  datatype Parameters = Parameters(g1Length: nat, length: nat, mode: Mode, batch: nat) {
    predicate Valid() {
      2 <= batch && length <= g1Length
    }

    /** The first power of the part to compute. */
    function Lo(): nat { if mode.Full? then 0 else mode.index * mode.size }

    /** The end of the part, when there are `n` powers in all. */
    function Hi(n: nat): nat { if mode.Full? then n else Min((mode.index + 1) * mode.size, n) }

    /** How many elements the part has. */
    function Count(n: nat): nat { if Lo() < Hi(n) then Hi(n) - Lo() else 0 }
  }

  /** The factor of one element: the power, times the coefficient if there is one. */
  function Factor(p: nat, power: Scalar, coeff: Option<Scalar>): nat
    requires 0 < p
  {
    if coeff.Some? then Mul(p, power, coeff.value) else power
  }

  /** Reads the elements from `start` to `end` and, if all pass the check, writes them multiplied by their factors. */
  method ApplyPowers(p: nat, out: array<nat>, input: seq<nat>, check: Correctness, start: nat, end: nat,
                     powers: seq<Scalar>, coeff: Option<Scalar>)
    returns (ok: bool)
    requires 0 < p && start <= end <= out.Length == |input| && end - start <= |powers|
    modifies out
    ensures ok <==> check.AllPass(input[start..end])
    ensures ok ==> forall i :: start <= i < end ==> out[i] == Mul(p, input[i], Factor(p, powers[i - start], coeff))
    ensures forall i :: 0 <= i < out.Length && !(ok && start <= i < end) ==> out[i] == old(out[i])
  {
    ok := CheckBatch(input[start..end], check);
    if !ok { return; }
    for i := start to end
      invariant forall j :: start <= j < i ==> out[j] == Mul(p, input[j], Factor(p, powers[j - start], coeff))
      invariant forall j :: 0 <= j < out.Length && !(start <= j < i) ==> out[j] == old(out[j])
    {
      out[i] := Mul(p, input[i], Factor(p, powers[i - start], coeff));
    }
  }

  method CheckBatch(elements: seq<nat>, check: Correctness) returns (ok: bool)
    ensures ok <==> check.AllPass(elements)
  {
    for i := 0 to |elements|
      invariant check.AllPass(elements[..i])
    {
      if !check.Passes(elements[i]) { return false; }
    }
    return true;
  }

  /** The powers of tau from `start` to `end`. */
  method GeneratePowers(p: nat, tau: Scalar, start: nat, end: nat) returns (powers: seq<Scalar>)
    requires 1 < p && start <= end
    ensures |powers| == end - start && forall i :: 0 <= i < |powers| ==> powers[i] == Pow(p, tau, start + i)
  {
    powers := seq<nat>(end - start, i requires 0 <= i < end - start => Pow(p, tau, start + i));
  }

  /** The first `k` elements of the input pass the check, and those of the output are as they should be. */
  ghost predicate Computed(check: Correctness, input: seq<nat>, out: seq<nat>, target: seq<nat>, k: int) {
    |out| == |target| == |input| && forall i :: 0 <= i < k && i < |out| ==> check.Passes(input[i]) && out[i] == target[i]
  }

  ghost function Coefficient(coeff: Option<Scalar>): Scalar { if coeff.Some? then coeff.value else 1 }

  /** One batch of one vector; `start` and `end` count from the first element of the part, the next batch starts by `end`. */
  method RaiseBatch(p: nat, out: array<nat>, input: seq<nat>, check: Correctness, tau: Scalar, coeff: Option<Scalar>,
                    ghost lo: nat, start: nat, end: nat, powers: seq<Scalar>, ghost next: int)
    returns (ok: bool)
    requires 1 < p && start <= end <= out.Length == |input| && end - start <= |powers| && next <= end
    requires forall i :: 0 <= i < |powers| ==> powers[i] == Pow(p, tau, lo + start + i)
    requires Computed(check, input, out[..], Raised(p, input, tau, Coefficient(coeff), lo), start)
    modifies out
    ensures ok ==> Computed(check, input, out[..], Raised(p, input, tau, Coefficient(coeff), lo), next)
    ensures !ok ==> !check.AllPass(input)
  {
    ghost var target := Raised(p, input, tau, Coefficient(coeff), lo);
    hide Mul, Pow;
    ok := ApplyPowers(p, out, input, check, start, end, powers, coeff);
    if !ok { return; }
    forall i | 0 <= i < end && i < out.Length ensures check.Passes(input[i]) && out[..][i] == target[i] {
      if i >= start {
        assert input[start..end][i - start] == input[i];
        MulUnit(p, Pow(p, tau, lo + i));
        assert powers[i - start] == Pow(p, tau, lo + i);
      } else {
        assert out[i] == old(out[..])[i];
      }
    }
  }

  lemma NothingComputed(check: Correctness, input: seq<nat>, out: seq<nat>, target: seq<nat>)
    requires |out| == |target| == |input|
    ensures Computed(check, input, out, target, 0)
  {
  }

  lemma AllComputed(check: Correctness, input: seq<nat>, out: seq<nat>, target: seq<nat>, k: int)
    requires Computed(check, input, out, target, k) && |out| <= k
    ensures out == target && check.AllPass(input)
  {
  }

  /** Where the batch that starts at `start` ends: one element into the next batch, or at the end of the part. */
  function BatchEnd(start: nat, batch: nat, max: nat): nat { Min(start + batch, max) }

  /** Every element of the part passes the check. */
  predicate Passing(check: Correctness, input: Accumulator) {
    && check.Passes(input.betaG2) && check.AllPass(input.tauG1) && check.AllPass(input.tauG2)
    && check.AllPass(input.alphaG1) && check.AllPass(input.betaG1)
  }

  /** The Groth16 contribution to one part of the accumulator; nothing is returned when an element is refused. */
  method ComputeGroth16(p: nat, params: Parameters, input: Accumulator, check: Correctness, key: Key,
                        tauG1: array<nat>, tauG2: array<nat>, alphaG1: array<nat>, betaG1: array<nat>)
    returns (r: Option<nat>)
    requires 1 < p && params.Valid()
    requires tauG1.Length == |input.tauG1| == params.Count(params.g1Length)
    requires tauG2.Length == |input.tauG2| == params.Count(params.length)
    requires alphaG1.Length == |input.alphaG1| == params.Count(params.length)
    requires betaG1.Length == |input.betaG1| == params.Count(params.length)
    requires tauG1 != tauG2 && tauG1 != alphaG1 && tauG1 != betaG1 && tauG2 != alphaG1 && tauG2 != betaG1 && alphaG1 != betaG1
    modifies tauG1, tauG2, alphaG1, betaG1
    ensures r.Some? <==> Passing(check, input)
    ensures r.Some? ==> Accumulator(tauG1[..], tauG2[..], alphaG1[..], betaG1[..], r.value) == Groth16(p, input, key, params.Lo())
  {
    hide Mul, Pow, Raised, Computed, Correctness.AllPass;
    if !check.Passes(input.betaG2) { return None; }
    var betaG2 := Mul(p, input.betaG2, key.beta);
    var lo, max, maxOther := params.Lo(), params.Hi(params.g1Length), params.Hi(params.length);
    ghost var target := Groth16(p, input, key, lo);
    NothingComputed(check, input.tauG1, tauG1[..], target.tauG1);
    NothingComputed(check, input.tauG2, tauG2[..], target.tauG2);
    NothingComputed(check, input.alphaG1, alphaG1[..], target.alphaG1);
    NothingComputed(check, input.betaG1, betaG1[..], target.betaG1);
    var start := lo;
    while start < max
      invariant lo <= start
      invariant Computed(check, input.tauG1, tauG1[..], target.tauG1, Min(start - lo, tauG1.Length))
      invariant Computed(check, input.tauG2, tauG2[..], target.tauG2, Min(start - lo, tauG2.Length))
      invariant Computed(check, input.alphaG1, alphaG1[..], target.alphaG1, Min(start - lo, alphaG1.Length))
      invariant Computed(check, input.betaG1, betaG1[..], target.betaG1, Min(start - lo, betaG1.Length))
    {
      var end := BatchEnd(start, params.batch, max);
      var powers := GeneratePowers(p, key.tau, start, end);
      var ok := RaiseBatch(p, tauG1, input.tauG1, check, key.tau, None, lo, start - lo, end - lo, powers,
                           Min(start + params.batch - 1 - lo, tauG1.Length));
      if !ok { return None; }
      if start < params.length {
        var endOther := if start + params.batch > maxOther then maxOther else end;
        ok := RaiseBatch(p, tauG2, input.tauG2, check, key.tau, None, lo, start - lo, endOther - lo, powers,
                         Min(start + params.batch - 1 - lo, tauG2.Length));
        if !ok { return None; }
        ok := RaiseBatch(p, alphaG1, input.alphaG1, check, key.tau, Some(key.alpha), lo, start - lo, endOther - lo, powers,
                         Min(start + params.batch - 1 - lo, alphaG1.Length));
        if !ok { return None; }
        ok := RaiseBatch(p, betaG1, input.betaG1, check, key.tau, Some(key.beta), lo, start - lo, endOther - lo, powers,
                         Min(start + params.batch - 1 - lo, betaG1.Length));
        if !ok { return None; }
      }
      start := start + params.batch - 1;
    }
    AllComputed(check, input.tauG1, tauG1[..], target.tauG1, tauG1.Length);
    AllComputed(check, input.tauG2, tauG2[..], target.tauG2, tauG2.Length);
    AllComputed(check, input.alphaG1, alphaG1[..], target.alphaG1, alphaG1.Length);
    AllComputed(check, input.betaG1, betaG1[..], target.betaG1, betaG1.Length);
    r := Some(betaG2);
  }

  // ----- Marlin

  /** tau to the degree bounds, one per power of two. */
  method DegreeBoundPowers(p: nat, tau: Scalar, length: nat, log: nat) returns (powers: seq<Scalar>)
    requires 1 < p && Bounded(length, log)
    ensures |powers| == log && forall i :: 0 <= i < log ==> powers[i] == Pow(p, tau, DegreeBound(length, i))
  {
    hide Pow, Pow2;
    powers := [];
    for i := 0 to log
      invariant |powers| == i && forall j :: 0 <= j < i ==> powers[j] == Pow(p, tau, DegreeBound(length, j))
    {
      powers := powers + [Pow(p, tau, DegreeBound(length, i))];
    }
  }

  /** A vector passes when its front and the rest do. */
  lemma TwoParts(check: Correctness, points: seq<nat>, k: nat)
    requires k <= |points|
    ensures check.AllPass(points) <==> check.AllPass(points[0..k]) && check.AllPass(points[k..|points|])
  {
    if check.AllPass(points[0..k]) && check.AllPass(points[k..|points|]) {
      forall i | 0 <= i < |points| ensures check.Passes(points[i]) {
        assert points[i] == if i < k then points[0..k][i] else points[k..|points|][i - k];
      }
    }
  }

  /** The elements in G2: 1 and tau, and the inverse degree-bound powers. */
  method ComputeMarlinG2(p: nat, out: array<nat>, input: seq<G2>, check: Correctness, tau: Scalar, length: nat, log: nat,
                         bounds: seq<Scalar>)
    returns (ok: bool)
    requires Prime(p) && Bounded(length, log) && out.Length == |input| == log + 2
    requires |bounds| == log && forall i :: 0 <= i < log ==> bounds[i] == Pow(p, tau, DegreeBound(length, i))
    modifies out
    ensures ok <==> check.AllPass(input)
    ensures ok ==> out[..] == MarlinG2(p, input, tau, length, log)
  {
    assert 1 < p;
    hide Mul, Inv, Pow, Pow2, Prime;
    var inverses: seq<nat> := seq(log, i requires 0 <= i < log => Inv(p, bounds[i]));
    TwoParts(check, input, 2);
    ok := ApplyPowers(p, out, input, check, 2, log + 2, inverses, None);
    if !ok { return; }
    var powers := GeneratePowers(p, tau, 0, 2);
    ok := ApplyPowers(p, out, input, check, 0, 2, powers, None);
    if !ok { return; }
    forall i | 0 <= i < log + 2 ensures out[i] == MarlinG2(p, input, tau, length, log)[i] {
      if i < 2 {
        assert powers[i] == Pow(p, tau, i);
      } else {
        assert inverses[i - 2] == MarlinG2Exponent(p, tau, length, log, i);
      }
    }
  }

  /** Each degree-bound power, and its products with tau and tau squared. */
  method DegreePowers(p: nat, tau: Scalar, length: nat, log: nat, bounds: seq<Scalar>) returns (powers: seq<Scalar>)
    requires 1 < p && Bounded(length, log)
    requires |bounds| == log && forall i :: 0 <= i < log ==> bounds[i] == Pow(p, tau, DegreeBound(length, i))
    ensures |powers| == 3 * log
    ensures forall i :: 0 <= i < 3 * log ==> powers[i] == Pow(p, tau, DegreeBound(length, i / 3) + i % 3)
  {
    hide Mul, Pow, Pow2;
    powers := [];
    for i := 0 to log
      invariant |powers| == 3 * i
      invariant forall j :: 0 <= j < 3 * i ==> powers[j] == Pow(p, tau, DegreeBound(length, j / 3) + j % 3)
    {
      ghost var d := DegreeBound(length, i);
      NextPowers(p, tau, d);
      powers := powers + [bounds[i], Mul(p, bounds[i], tau), Mul(p, bounds[i], Pow(p, tau, 2))];
    }
  }

  lemma NextPowers(p: nat, tau: Scalar, d: nat)
    requires 1 < p
    ensures Mul(p, Pow(p, tau, d), tau) == Pow(p, tau, d + 1)
    ensures Mul(p, Pow(p, tau, d), Pow(p, tau, 2)) == Pow(p, tau, d + 2)
  {
    PowAdd(p, tau, d, 2);
    hide Mul;
    MulCommutes(p, Pow(p, tau, d), tau);
  }

  /** The elements with alpha: the first three powers, and the triples of the degree bounds. */
  method ComputeMarlinAlpha(p: nat, out: array<nat>, input: seq<G1>, check: Correctness, key: Key, length: nat, log: nat,
                            bounds: seq<Scalar>)
    returns (ok: bool)
    requires 1 < p && Bounded(length, log) && out.Length == |input| == 3 + 3 * log
    requires |bounds| == log && forall i :: 0 <= i < log ==> bounds[i] == Pow(p, key.tau, DegreeBound(length, i))
    modifies out
    ensures ok <==> check.AllPass(input)
    ensures ok ==> out[..] == MarlinAlpha(p, input, key, length, log)
  {
    hide Mul, Pow, Pow2;
    var degrees := DegreePowers(p, key.tau, length, log, bounds);
    TwoParts(check, input, 3);
    ok := ApplyPowers(p, out, input, check, 3, 3 + 3 * log, degrees, Some(key.alpha));
    if !ok { return; }
    var powers := GeneratePowers(p, key.tau, 0, 3);
    ok := ApplyPowers(p, out, input, check, 0, 3, powers, Some(key.alpha));
    if !ok { return; }
    forall i | 0 <= i < 3 + 3 * log ensures out[i] == MarlinAlpha(p, input, key, length, log)[i] {
      if i < 3 {
        assert powers[i] == Pow(p, key.tau, i);
      } else {
        assert degrees[i - 3] == Pow(p, key.tau, DegreeBound(length, (i - 3) / 3) + (i - 3) % 3);
      }
    }
  }

  predicate FirstChunk(mode: Mode) { mode.Full? || mode.index == 0 }

  predicate MarlinPassing(check: Correctness, input: MarlinAccumulator, first: bool) {
    check.AllPass(input.tauG1) && (first ==> check.AllPass(input.tauG2) && check.AllPass(input.alphaG1))
  }

  /** The Marlin contribution to one part of the accumulator; the first chunk holds the small vectors. */
  method ComputeMarlin(p: nat, params: Parameters, log: nat, input: MarlinAccumulator, check: Correctness, key: Key,
                       tauG1: array<nat>, tauG2: array<nat>, alphaG1: array<nat>)
    returns (ok: bool)
    requires Prime(p) && params.Valid() && MarlinShape(input, params.length, log, FirstChunk(params.mode))
    requires tauG1.Length == |input.tauG1| == params.Count(params.length)
    requires tauG2.Length == |input.tauG2| && alphaG1.Length == |input.alphaG1|
    requires tauG1 != tauG2 && tauG1 != alphaG1 && tauG2 != alphaG1
    modifies tauG1, tauG2, alphaG1
    ensures ok <==> MarlinPassing(check, input, FirstChunk(params.mode))
    ensures ok ==>
      MarlinAccumulator(tauG1[..], tauG2[..], alphaG1[..]) ==
      Marlin(p, input, key, params.Lo(), params.length, log, FirstChunk(params.mode))
  {
    assert 1 < p;
    hide Mul, Pow, Pow2, Prime, Bounded;
    if FirstChunk(params.mode) {
      var bounds := DegreeBoundPowers(p, key.tau, params.length, log);
      ok := ComputeMarlinG2(p, tauG2, input.tauG2, check, key.tau, params.length, log, bounds);
      if !ok { return; }
      ok := ComputeMarlinAlpha(p, alphaG1, input.alphaG1, check, key, params.length, log, bounds);
      if !ok { return; }
    }
    ok := RaiseTau(p, params, input.tauG1, check, key.tau, tauG1);
  }

  /** The powers of tau alone, in overlapping batches. */
  method RaiseTau(p: nat, params: Parameters, input: seq<G1>, check: Correctness, tau: Scalar, out: array<nat>) returns (ok: bool)
    requires 1 < p && params.Valid() && out.Length == |input| == params.Count(params.length)
    modifies out
    ensures ok <==> check.AllPass(input)
    ensures ok ==> out[..] == Raised(p, input, tau, 1, params.Lo())
  {
    hide Mul, Pow, Raised, Computed, Correctness.AllPass;
    var lo, max := params.Lo(), params.Hi(params.length);
    ghost var target := Raised(p, input, tau, 1, lo);
    NothingComputed(check, input, out[..], target);
    var start := lo;
    while start < max
      invariant lo <= start
      invariant Computed(check, input, out[..], target, Min(start - lo, out.Length))
    {
      var end := BatchEnd(start, params.batch, max);
      var powers := GeneratePowers(p, tau, start, end);
      ok := RaiseBatch(p, out, input, check, tau, None, lo, start - lo, end - lo, powers,
                       Min(start + params.batch - 1 - lo, out.Length));
      if !ok { return; }
      start := start + params.batch - 1;
    }
    AllComputed(check, input, out[..], target, out.Length);
    ok := true;
  }

  // ----- the chunks of an accumulator

  /** The parameters of one chunk out of those for the whole. */
  function ChunkOf(params: Parameters, index: nat, size: nat): Parameters { params.(mode := Chunked(index, size)) }

  /**
    The parts of the chunks lie one behind the other: element `i` of `n` is in the part of chunk
    i / size, and in no other.
   */
  lemma InOneChunk(params: Parameters, n: nat, size: nat, i: nat, k: nat)
    requires 0 < size && i < n
    ensures var part := ChunkOf(params, k, size); part.Lo() <= i < part.Lo() + part.Count(n) <==> k == i / size
  {
    assert i == (i / size) * size + i % size && (k + 1) * size == k * size + size;
    if k * size <= i < (k + 1) * size {
      DivUnique(i, size, k, i - k * size);
    }
  }

  /** Raising an accumulator chunk by chunk raises every element as raising it at once does. */
  lemma ChunksRaiseAll(p: nat, params: Parameters, points: seq<nat>, tau: Scalar, coeff: Scalar, size: nat, i: nat)
    requires 1 < p && 0 < size && i < |points|
    ensures var whole, part := params.(mode := Full), ChunkOf(params, i / size, size); var lo := part.Lo();
      && whole.Lo() == 0 && whole.Count(|points|) == |points|
      && lo <= i && i - lo < part.Count(|points|) && lo + part.Count(|points|) <= |points|
      && Raised(p, points[lo..lo + part.Count(|points|)], tau, coeff, lo)[i - lo] ==
         Raised(p, points, tau, coeff, whole.Lo())[i]
  {
    InOneChunk(params, |points|, size, i, i / size);
    hide Mul, Exponent;
    var part := ChunkOf(params, i / size, size);
    assert points[part.Lo()..part.Lo() + part.Count(|points|)][i - part.Lo()] == points[i];
  }
}
