/**
  The second phase of a Groth16 setup: parameters with a transcript of contributions, each
  contribution multiplying the secret delta, and the verification of one version against another.
 */
module Phase2 {
  import opened Field
  import opened Pairing

  type Byte = b: int | 0 <= b < 256

  /** A 64-byte digest. */
  type Hash = h: seq<Byte> | |h| == 64 witness seq(64, _ => 0)

  datatype PublicKey = PublicKey(deltaAfter: G1, s: G1, sDelta: G1, rDelta: G2, transcript: Hash)

  datatype VerifyingKey = VerifyingKey(alphaG1: G1, betaG2: G2, gammaG2: G2, deltaG2: G2, gammaAbcG1: seq<G1>)

  datatype ProvingKey = ProvingKey(
    vk: VerifyingKey,
    betaG1: G1,
    deltaG1: G1,
    aQuery: seq<G1>,
    bG1Query: seq<G1>,
    bG2Query: seq<G2>,
    hQuery: seq<G1>,
    lQuery: seq<G1>)

  datatype Params = Params(key: ProvingKey, csHash: Hash, contributions: seq<PublicKey>)

  /** The field and the hash functions, about which nothing is known but that hashing to the curve avoids zero. */
  datatype Suite = Suite(
    p: nat,
    transcript: (Hash, seq<PublicKey>, G1, G1) -> Hash,
    toCurve: Hash -> G2,
    keyHash: PublicKey -> Hash)
  {
    ghost predicate Valid() {
      Prime(p) && forall h :: 0 < toCurve(h) < p
    }
  }

  datatype Rejection =
    | NoContributions
    | UnconstrainedVariable
    | UnreadableKey
    | InvalidLength
    | BrokenInvariant(what: Invariant)
    | InvalidRatio(check: Check)

  datatype Invariant =
    | DeltaG1 | Contributions | CsHash | AlphaG1 | BetaG1 | BetaG2 | GammaG2 | GammaAbcG1
    | AlphaG1Query | BetaG1Query | BetaG2Query | Transcript

  datatype Check = DeltaInG2 | HQuery | LQuery | Knowledge | DeltaInG1

  datatype Verdict<+T> = Accepted(value: T) | Rejected(reason: Rejection) | Panicked

  // ----- contributing

  function NewKey(suite: Suite, deltaG1: G1, csHash: Hash, contributions: seq<PublicKey>, delta: Scalar, s: G1): PublicKey
    requires suite.Valid()
  {
    var p, sDelta := suite.p, Mul(suite.p, s, delta);
    var transcript := suite.transcript(csHash, contributions, s, sDelta);
    PublicKey(Mul(p, deltaG1, delta), s, sDelta, Mul(p, suite.toCurve(transcript), delta), transcript)
  }

  function Scaled(p: nat, points: seq<nat>, k: Scalar): (r: seq<nat>)
    requires 0 < p
    ensures |r| == |points| && AllIn(p, r)
    ensures forall i :: 0 <= i < |points| ==> r[i] == Mul(p, points[i], k)
  {
    seq(|points|, i requires 0 <= i < |points| => Mul(p, points[i], k))
  }

  /** The proving key after a contribution of `delta`. */
  function Multiplied(p: nat, key: ProvingKey, delta: Scalar): ProvingKey
    requires Prime(p)
  {
    key.(vk := key.vk.(deltaG2 := Mul(p, key.vk.deltaG2, delta)),
         deltaG1 := Mul(p, key.deltaG1, delta),
         hQuery := Scaled(p, key.hQuery, Inv(p, delta)),
         lQuery := Scaled(p, key.lQuery, Inv(p, delta)))
  }

  /** A contribution with the secrets `delta` and `s`; a zero `delta` has no inverse and panics. */
  function Contributed(suite: Suite, m: Params, delta: Scalar, s: G1): Verdict<Params>
    requires suite.Valid()
  {
    if delta == 0 then Panicked
    else
      var key := NewKey(suite, m.key.deltaG1, m.csHash, m.contributions, delta, s);
      Accepted(m.(key := Multiplied(suite.p, m.key, delta), contributions := m.contributions + [key]))
  }

  class MPCParameters {
    var key: ProvingKey
    const csHash: Hash
    var contributions: seq<PublicKey>

    ghost function Value(): Params
      reads this
    {
      Params(key, csHash, contributions)
    }

    constructor (key: ProvingKey, csHash: Hash)
      ensures Value() == Params(key, csHash, [])
    {
      this.key, this.csHash, this.contributions := key, csHash, [];
    }

    /** Contributes in place and returns the hash of the new public key. */
    method Contribute(suite: Suite, delta: Scalar, s: G1) returns (r: Verdict<Hash>)
      requires suite.Valid()
      modifies this
      ensures match Contributed(suite, old(Value()), delta, s)
        case Accepted(m) =>
          Value() == m && m.contributions != [] && r == Accepted(suite.keyHash(m.contributions[|m.contributions| - 1]))
        case _ => r == Panicked && Value() == old(Value())
    {
      var public := NewKey(suite, key.deltaG1, csHash, contributions, delta, s);
      if delta == 0 { return Panicked; }
      var inverse := Inv(suite.p, delta);
      var l := BatchMul(suite.p, key.lQuery, inverse);
      key := key.(lQuery := l);
      var h := BatchMul(suite.p, key.hQuery, inverse);
      key := key.(hQuery := h);
      key := key.(vk := key.vk.(deltaG2 := Mul(suite.p, key.vk.deltaG2, delta)));
      key := key.(deltaG1 := Mul(suite.p, key.deltaG1, delta));
      contributions := contributions + [public];
      return Accepted(suite.keyHash(public));
    }
  }

  method BatchMul(p: nat, points: seq<nat>, k: Scalar) returns (r: seq<nat>)
    requires 0 < p
    ensures r == Scaled(p, points, k)
  {
    r := [];
    for i := 0 to |points|
      invariant |r| == i && forall j :: 0 <= j < i ==> r[j] == Mul(p, points[j], k)
    {
      r := r + [Mul(p, points[i], k)];
    }
  }

  // ----- verifying

  /** The delta that key number `i` starts from. */
  function DeltaBefore(keys: seq<PublicKey>, i: nat): G1
    requires i <= |keys|
  {
    if i == 0 then 1 else keys[i - 1].deltaAfter
  }

  /** The checks of one key of the transcript, against the keys before it. */
  function CheckKey(suite: Suite, csHash: Hash, keys: seq<PublicKey>, i: nat): Verdict<Hash>
    requires suite.Valid() && i < |keys|
  {
    var key := keys[i];
    var hash := suite.transcript(csHash, keys[..i], key.s, key.sDelta);
    var r := suite.toCurve(hash);
    if key.transcript != hash then Rejected(BrokenInvariant(Transcript))
    else if !SameRatio(suite.p, key.s, key.sDelta, r, key.rDelta) then Rejected(InvalidRatio(Knowledge))
    else if !SameRatio(suite.p, DeltaBefore(keys, i), key.deltaAfter, r, key.rDelta) then Rejected(InvalidRatio(DeltaInG1))
    else Accepted(suite.keyHash(key))
  }

  /** The verdict on the first `k` keys. */
  function TranscriptVerdict(suite: Suite, csHash: Hash, keys: seq<PublicKey>, k: nat): Verdict<seq<Hash>>
    requires suite.Valid() && k <= |keys|
  {
    if k == 0 then Accepted([])
    else match TranscriptVerdict(suite, csHash, keys, k - 1)
      case Accepted(hashes) =>
        (match CheckKey(suite, csHash, keys, k - 1)
         case Accepted(hash) => Accepted(hashes + [hash])
         case Rejected(reason) => Rejected(reason)
         case Panicked => Panicked)
      case other => other
  }

  lemma {:induction false} TranscriptStops(suite: Suite, csHash: Hash, keys: seq<PublicKey>, k: nat, n: nat)
    requires suite.Valid() && k <= n <= |keys| && !TranscriptVerdict(suite, csHash, keys, k).Accepted?
    ensures TranscriptVerdict(suite, csHash, keys, n) == TranscriptVerdict(suite, csHash, keys, k)
  {
    if k < n {
      TranscriptStops(suite, csHash, keys, k, n - 1);
    }
  }

  method VerifyTranscript(suite: Suite, csHash: Hash, keys: seq<PublicKey>) returns (r: Verdict<seq<Hash>>)
    requires suite.Valid()
    ensures r == TranscriptVerdict(suite, csHash, keys, |keys|)
  {
    var result: seq<Hash> := [];
    var oldDelta := 1;
    for i := 0 to |keys|
      invariant oldDelta == DeltaBefore(keys, i)
      invariant TranscriptVerdict(suite, csHash, keys, i) == Accepted(result)
    {
      var key := keys[i];
      var hash := suite.transcript(csHash, keys[..i], key.s, key.sDelta);
      var point := suite.toCurve(hash);
      if key.transcript != hash {
        TranscriptStops(suite, csHash, keys, i + 1, |keys|);
        return Rejected(BrokenInvariant(Transcript));
      }
      if !SameRatio(suite.p, key.s, key.sDelta, point, key.rDelta) {
        TranscriptStops(suite, csHash, keys, i + 1, |keys|);
        return Rejected(InvalidRatio(Knowledge));
      }
      if !SameRatio(suite.p, oldDelta, key.deltaAfter, point, key.rDelta) {
        TranscriptStops(suite, csHash, keys, i + 1, |keys|);
        return Rejected(InvalidRatio(DeltaInG1));
      }
      oldDelta := key.deltaAfter;
      result := result + [suite.keyHash(key)];
    }
    r := Accepted(result);
  }

  /** The checks of the key material that a contribution must leave alone, in order. */
  function CheckUnchanged(before: ProvingKey, after: ProvingKey): Verdict<()> {
    if |before.hQuery| != |after.hQuery| || |before.lQuery| != |after.lQuery| then Rejected(InvalidLength)
    else if before.vk.alphaG1 != after.vk.alphaG1 then Rejected(BrokenInvariant(AlphaG1))
    else if before.betaG1 != after.betaG1 then Rejected(BrokenInvariant(BetaG1))
    else if before.vk.betaG2 != after.vk.betaG2 then Rejected(BrokenInvariant(BetaG2))
    else if before.vk.gammaG2 != after.vk.gammaG2 then Rejected(BrokenInvariant(GammaG2))
    else if CheckVector(before.vk.gammaAbcG1, after.vk.gammaAbcG1, GammaAbcG1) != Accepted(())
    then CheckVector(before.vk.gammaAbcG1, after.vk.gammaAbcG1, GammaAbcG1)
    else if CheckVector(before.aQuery, after.aQuery, AlphaG1Query) != Accepted(())
    then CheckVector(before.aQuery, after.aQuery, AlphaG1Query)
    else if CheckVector(before.bG1Query, after.bG1Query, BetaG1Query) != Accepted(())
    then CheckVector(before.bG1Query, after.bG1Query, BetaG1Query)
    else CheckVector(before.bG2Query, after.bG2Query, BetaG2Query)
  }

  function CheckVector(before: seq<nat>, after: seq<nat>, what: Invariant): Verdict<()> {
    if |before| != |after| then Rejected(InvalidLength)
    else if before != after then Rejected(BrokenInvariant(what))
    else Accepted(())
  }

  /**
    Verification of `after` as a successor of `before`, with the randomness `rh` and `rl` of the
    two merged ratio checks. Comparing with a transcript shorter than the old one panics.
   */
  ghost function Verify(suite: Suite, before: Params, after: Params, rh: seq<Scalar>, rl: seq<Scalar>): Verdict<seq<Hash>>
    requires suite.Valid() && |rh| == |before.key.hQuery| && |rl| == |before.key.lQuery|
  {
    var p, n := suite.p, |after.contributions|;
    if n == 0 then Rejected(NoContributions)
    else if after.contributions[n - 1].deltaAfter != after.key.deltaG1 then Rejected(BrokenInvariant(DeltaG1))
    else if !SameRatio(p, 1, after.contributions[n - 1].deltaAfter, 1, after.key.vk.deltaG2)
    then Rejected(InvalidRatio(DeltaInG2))
    else if |before.contributions| > n then Panicked
    else if before.contributions != after.contributions[..|before.contributions|] then Rejected(BrokenInvariant(Contributions))
    else if before.csHash != after.csHash then Rejected(BrokenInvariant(CsHash))
    else match CheckUnchanged(before.key, after.key)
      case Rejected(reason) => Rejected(reason)
      case Panicked => Panicked
      case Accepted(_) =>
        var c, d := after.key.vk.deltaG2, before.key.vk.deltaG2;
        if !SameRatio(p, Dot(p, rh, before.key.hQuery), Dot(p, rh, after.key.hQuery), c, d)
        then Rejected(InvalidRatio(HQuery))
        else if !SameRatio(p, Dot(p, rl, before.key.lQuery), Dot(p, rl, after.key.lQuery), c, d)
        then Rejected(InvalidRatio(LQuery))
        else TranscriptVerdict(suite, before.csHash, after.contributions, n)
  }

  // ----- soundness of the transcript

  ghost function Product(p: nat, factors: seq<Scalar>): (r: nat)
    requires 1 < p
    ensures r < p
  {
    if factors == [] then 1
    else Mul(p, factors[|factors| - 1], Product(p, factors[..|factors| - 1]))
  }

  ghost predicate KeyIn(p: nat, key: PublicKey) {
    key.deltaAfter < p && key.s < p && key.sDelta < p && key.rDelta < p
  }

  ghost predicate KeysIn(p: nat, keys: seq<PublicKey>) {
    forall i :: 0 <= i < |keys| ==> KeyIn(p, keys[i])
  }

  /** Key `i` proves the secret `d`: the same scalar takes s to s_delta, r to r_delta and the delta to its product. */
  ghost predicate Knows(suite: Suite, csHash: Hash, keys: seq<PublicKey>, i: nat, d: Scalar)
    requires suite.Valid() && i < |keys|
  {
    var p, key := suite.p, keys[i];
    && d < p
    && key.transcript == suite.transcript(csHash, keys[..i], key.s, key.sDelta)
    && key.sDelta == Mul(p, d, key.s)
    && key.rDelta == Mul(p, d, suite.toCurve(key.transcript))
    && key.deltaAfter == Mul(p, d, DeltaBefore(keys, i))
  }

  lemma KeyMeaning(suite: Suite, csHash: Hash, keys: seq<PublicKey>, i: nat)
    requires suite.Valid() && i < |keys| && KeysIn(suite.p, keys)
    ensures CheckKey(suite, csHash, keys, i).Accepted? <==> exists d :: Knows(suite, csHash, keys, i, d)
  {
    hide Mul, Inv, Prime;
    var p, key := suite.p, keys[i];
    var r := suite.toCurve(suite.transcript(csHash, keys[..i], key.s, key.sDelta));
    var k := Mul(p, key.rDelta, Inv(p, r));
    RatioScalar(p, key.s, key.sDelta, r, key.rDelta);
    RatioScalar(p, DeltaBefore(keys, i), key.deltaAfter, r, key.rDelta);
    if CheckKey(suite, csHash, keys, i).Accepted? {
      assert Knows(suite, csHash, keys, i, k);
    }
    if d :| Knows(suite, csHash, keys, i, d) {
      MulDiv(p, d, r);
      assert d == k;
    }
  }

  /** One secret per key; every delta is the product of the secrets so far. */
  ghost predicate Explains(suite: Suite, csHash: Hash, keys: seq<PublicKey>, secrets: seq<Scalar>)
    requires suite.Valid()
  {
    && |secrets| == |keys|
    && forall i :: 0 <= i < |keys| ==>
         Knows(suite, csHash, keys, i, secrets[i]) && keys[i].deltaAfter == Product(suite.p, secrets[..i + 1])
  }

  lemma {:induction false} AcceptedSoFar(suite: Suite, csHash: Hash, keys: seq<PublicKey>, k: nat)
    requires suite.Valid() && k <= |keys|
    ensures TranscriptVerdict(suite, csHash, keys, k).Accepted? <==>
      forall i :: 0 <= i < k ==> CheckKey(suite, csHash, keys, i).Accepted?
    ensures TranscriptVerdict(suite, csHash, keys, k).Accepted? ==>
      TranscriptVerdict(suite, csHash, keys, k).value == seq(k, i requires 0 <= i < k => suite.keyHash(keys[i]))
  {
    hide CheckKey;
    if k > 0 {
      AcceptedSoFar(suite, csHash, keys, k - 1);
      HashOfKey(suite, csHash, keys, k - 1);
    }
  }

  lemma HashOfKey(suite: Suite, csHash: Hash, keys: seq<PublicKey>, i: nat)
    requires suite.Valid() && i < |keys|
    ensures CheckKey(suite, csHash, keys, i).Accepted? ==> CheckKey(suite, csHash, keys, i).value == suite.keyHash(keys[i])
  {
  }

  /** Secrets that explain each key multiply up to its delta. */
  lemma {:induction false} DeltasMultiply(suite: Suite, csHash: Hash, keys: seq<PublicKey>, secrets: seq<Scalar>, i: nat)
    requires suite.Valid() && |secrets| == |keys| && i < |keys|
    requires forall j :: 0 <= j < |keys| ==> Knows(suite, csHash, keys, j, secrets[j])
    ensures keys[i].deltaAfter == Product(suite.p, secrets[..i + 1])
  {
    hide Mul, Prime;
    assert secrets[..i + 1][..i] == secrets[..i];
    assert Knows(suite, csHash, keys, i, secrets[i]);
    if i > 0 {
      DeltasMultiply(suite, csHash, keys, secrets, i - 1);
    }
  }

  /**
    Transcript soundness and completeness: the verifier accepts a transcript exactly when there
    are secrets, one per key, that explain it.
   */
  lemma TranscriptMeaning(suite: Suite, csHash: Hash, keys: seq<PublicKey>)
    requires suite.Valid() && KeysIn(suite.p, keys)
    ensures TranscriptVerdict(suite, csHash, keys, |keys|).Accepted? <==>
      exists secrets :: Explains(suite, csHash, keys, secrets)
  {
    AcceptedSoFar(suite, csHash, keys, |keys|);
    hide Knows, CheckKey, TranscriptVerdict;
    if TranscriptVerdict(suite, csHash, keys, |keys|).Accepted? {
      var secrets := Secrets(suite, csHash, keys, |keys|);
      forall i | 0 <= i < |keys| ensures keys[i].deltaAfter == Product(suite.p, secrets[..i + 1]) {
        DeltasMultiply(suite, csHash, keys, secrets, i);
      }
      assert Explains(suite, csHash, keys, secrets);
    }
    if secrets :| Explains(suite, csHash, keys, secrets) {
      forall i | 0 <= i < |keys| ensures CheckKey(suite, csHash, keys, i).Accepted? {
        assert Knows(suite, csHash, keys, i, secrets[i]);
        KeyMeaning(suite, csHash, keys, i);
      }
    }
  }

  lemma {:induction false} Secrets(suite: Suite, csHash: Hash, keys: seq<PublicKey>, k: nat) returns (secrets: seq<Scalar>)
    requires suite.Valid() && k <= |keys| && KeysIn(suite.p, keys)
    requires forall i :: 0 <= i < k ==> CheckKey(suite, csHash, keys, i).Accepted?
    ensures |secrets| == k && forall i :: 0 <= i < k ==> Knows(suite, csHash, keys, i, secrets[i])
  {
    hide Knows, CheckKey;
    if k == 0 {
      secrets := [];
    } else {
      var i := k - 1;
      var rest := Secrets(suite, csHash, keys, i);
      KeyMeaning(suite, csHash, keys, i);
      var d :| Knows(suite, csHash, keys, i, d);
      secrets := rest + [d];
    }
  }
}
