/**
  What verification of phase 2 parameters means, and that every honest run passes it: acceptance
  under all randomness is the existence of secrets that account for every change, and any version
  of the parameters is accepted as a successor of any earlier one.
 */
module Contributions {
  import opened Field
  import opened Pairing
  import opened Phase2

  ghost predicate VectorsIn(p: nat, key: ProvingKey) {
    && AllIn(p, key.vk.gammaAbcG1) && AllIn(p, key.aQuery) && AllIn(p, key.bG1Query) && AllIn(p, key.bG2Query)
    && AllIn(p, key.hQuery) && AllIn(p, key.lQuery)
  }

  /** All logarithms are field elements. */
  ghost predicate ParamsIn(p: nat, m: Params) {
    && m.key.vk.alphaG1 < p && m.key.vk.betaG2 < p && m.key.vk.gammaG2 < p && m.key.vk.deltaG2 < p
    && m.key.betaG1 < p && m.key.deltaG1 < p
    && VectorsIn(p, m.key)
    && KeysIn(p, m.contributions)
  }

  /** Accepted whatever randomness the two merged checks draw. */
  ghost predicate AlwaysAccepted(suite: Suite, before: Params, after: Params)
    requires suite.Valid()
  {
    forall rh: seq<Scalar>, rl: seq<Scalar> ::
      |rh| == |before.key.hQuery| && |rl| == |before.key.lQuery| && AllIn(suite.p, rh) && AllIn(suite.p, rl) ==>
        Verify(suite, before, after, rh, rl).Accepted?
  }

  /** Element by element, the product with delta is the same before and after. */
  ghost predicate Balanced(p: nat, before: seq<G1>, deltaBefore: G2, after: seq<G1>, deltaAfter: G2)
    requires 0 < p
  {
    |before| == |after| && forall i :: 0 <= i < |before| ==> Mul(p, before[i], deltaBefore) == Mul(p, after[i], deltaAfter)
  }

  /** `after` extends `before`: nothing changed but delta, and the H and L queries balance the change. */
  ghost predicate Follows(p: nat, before: Params, after: Params)
    requires 0 < p
  {
    && before.contributions <= after.contributions
    && before.csHash == after.csHash
    && after.key == before.key.(vk := before.key.vk.(deltaG2 := after.key.vk.deltaG2), deltaG1 := after.key.deltaG1,
                                hQuery := after.key.hQuery, lQuery := after.key.lQuery)
    && Balanced(p, before.key.hQuery, before.key.vk.deltaG2, after.key.hQuery, after.key.vk.deltaG2)
    && Balanced(p, before.key.lQuery, before.key.vk.deltaG2, after.key.lQuery, after.key.vk.deltaG2)
  }

  /** Secrets account for the transcript, and both deltas are their product. */
  ghost predicate Accounted(suite: Suite, m: Params, secrets: seq<Scalar>)
    requires suite.Valid()
  {
    && Explains(suite, m.csHash, m.contributions, secrets)
    && m.key.deltaG1 == Product(suite.p, secrets)
    && m.key.vk.deltaG2 == Product(suite.p, secrets)
  }

  /** The part of a verification that draws no randomness. */
  ghost predicate Settled(suite: Suite, before: Params, after: Params)
    requires suite.Valid()
  {
    var p, n := suite.p, |after.contributions|;
    && 0 < n
    && after.contributions[n - 1].deltaAfter == after.key.deltaG1
    && SameRatio(p, 1, after.contributions[n - 1].deltaAfter, 1, after.key.vk.deltaG2)
    && before.contributions <= after.contributions
    && before.csHash == after.csHash
    && CheckUnchanged(before.key, after.key).Accepted?
    && TranscriptVerdict(suite, before.csHash, after.contributions, n).Accepted?
  }

  lemma VerifySplits(suite: Suite, before: Params, after: Params, rh: seq<Scalar>, rl: seq<Scalar>)
    requires suite.Valid() && |rh| == |before.key.hQuery| && |rl| == |before.key.lQuery|
    ensures CheckUnchanged(before.key, after.key).Accepted? ==>
      |before.key.hQuery| == |after.key.hQuery| && |before.key.lQuery| == |after.key.lQuery|
    ensures Verify(suite, before, after, rh, rl).Accepted? <==>
      && Settled(suite, before, after)
      && var p, c, d := suite.p, after.key.vk.deltaG2, before.key.vk.deltaG2;
      && SameRatio(p, Dot(p, rh, before.key.hQuery), Dot(p, rh, after.key.hQuery), c, d)
      && SameRatio(p, Dot(p, rl, before.key.lQuery), Dot(p, rl, after.key.lQuery), c, d)
    ensures Verify(suite, before, after, rh, rl).Accepted? ==>
      Verify(suite, before, after, rh, rl) == TranscriptVerdict(suite, before.csHash, after.contributions, |after.contributions|)
  {
    hide SameRatio, Dot, TranscriptVerdict;
  }

  lemma UnchangedMeans(before: ProvingKey, after: ProvingKey)
    ensures CheckUnchanged(before, after).Accepted? <==>
      && |before.hQuery| == |after.hQuery| && |before.lQuery| == |after.lQuery|
      && after == before.(vk := before.vk.(deltaG2 := after.vk.deltaG2), deltaG1 := after.deltaG1,
                          hQuery := after.hQuery, lQuery := after.lQuery)
  {
  }

  lemma AlwaysSplits(suite: Suite, before: Params, after: Params)
    requires suite.Valid()
    ensures AlwaysAccepted(suite, before, after) <==>
      && Settled(suite, before, after)
      && |before.key.hQuery| == |after.key.hQuery| && |before.key.lQuery| == |after.key.lQuery|
      && MergesAlways(suite.p, before.key.hQuery, after.key.hQuery, after.key.vk.deltaG2, before.key.vk.deltaG2)
      && MergesAlways(suite.p, before.key.lQuery, after.key.lQuery, after.key.vk.deltaG2, before.key.vk.deltaG2)
  {
    hide SameRatio, Dot, Verify, Settled, CheckUnchanged;
    var p := suite.p;
    var zh, zl := seq(|before.key.hQuery|, _ => 0), seq(|before.key.lQuery|, _ => 0);
    assert AllIn(p, zh) && AllIn(p, zl);
    if AlwaysAccepted(suite, before, after) {
      VerifySplits(suite, before, after, zh, zl);
      assert Settled(suite, before, after);
      SettledLengths(suite, before, after);
      forall r: seq<Scalar> | |r| == |zh| && AllIn(p, r)
        ensures SameRatio(p, Dot(p, r, before.key.hQuery), Dot(p, r, after.key.hQuery), after.key.vk.deltaG2, before.key.vk.deltaG2)
      {
        VerifySplits(suite, before, after, r, zl);
      }
      forall r: seq<Scalar> | |r| == |zl| && AllIn(p, r)
        ensures SameRatio(p, Dot(p, r, before.key.lQuery), Dot(p, r, after.key.lQuery), after.key.vk.deltaG2, before.key.vk.deltaG2)
      {
        VerifySplits(suite, before, after, zh, r);
      }
    }
    if Settled(suite, before, after)
      && |before.key.hQuery| == |after.key.hQuery| && |before.key.lQuery| == |after.key.lQuery|
      && MergesAlways(p, before.key.hQuery, after.key.hQuery, after.key.vk.deltaG2, before.key.vk.deltaG2)
      && MergesAlways(p, before.key.lQuery, after.key.lQuery, after.key.vk.deltaG2, before.key.vk.deltaG2)
    {
      forall rh: seq<Scalar>, rl: seq<Scalar> | |rh| == |zh| && |rl| == |zl| && AllIn(p, rh) && AllIn(p, rl)
        ensures Verify(suite, before, after, rh, rl).Accepted?
      {
        VerifySplits(suite, before, after, rh, rl);
      }
    }
  }

  lemma SettledLengths(suite: Suite, before: Params, after: Params)
    requires suite.Valid() && Settled(suite, before, after)
    ensures |before.key.hQuery| == |after.key.hQuery| && |before.key.lQuery| == |after.key.lQuery|
  {
    UnchangedMeans(before.key, after.key);
  }

  lemma BalancedIsRatio(p: nat, before: seq<G1>, deltaBefore: G2, after: seq<G1>, deltaAfter: G2)
    requires 0 < p && |before| == |after|
    ensures SameRatios(p, before, after, deltaAfter, deltaBefore) <==> Balanced(p, before, deltaBefore, after, deltaAfter)
  {
    hide Mul;
  }

  lemma SettledMeans(suite: Suite, before: Params, after: Params)
    requires suite.Valid() && ParamsIn(suite.p, after)
    ensures Settled(suite, before, after) <==>
      && after.contributions != []
      && before.contributions <= after.contributions
      && before.csHash == after.csHash
      && CheckUnchanged(before.key, after.key).Accepted?
      && exists secrets :: Accounted(suite, after, secrets)
  {
    var p, n := suite.p, |after.contributions|;
    TranscriptMeaning(suite, after.csHash, after.contributions);
    hide Mul, CheckUnchanged, TranscriptVerdict, Knows, Product, KeysIn, VectorsIn;
    MulUnit(p, after.key.vk.deltaG2);
    if n > 0 {
      MulUnit(p, after.contributions[n - 1].deltaAfter);
      forall secrets | Explains(suite, after.csHash, after.contributions, secrets)
        ensures after.contributions[n - 1].deltaAfter == Product(p, secrets)
      {
        assert secrets[..n - 1 + 1] == secrets;
      }
      if secrets :| Explains(suite, after.csHash, after.contributions, secrets) {
        hide Explains;
        assert Settled(suite, before, after) ==> Accounted(suite, after, secrets);
      }
      hide Explains;
    }
  }

  /**
    What acceptance means: under all randomness, `before` accepts `after` exactly when `after`
    extends it with a transcript that secrets account for, both deltas carry the full product,
    and every H and L entry was divided by what delta was multiplied with.
   */
  lemma VerifyMeaning(suite: Suite, before: Params, after: Params)
    requires suite.Valid() && ParamsIn(suite.p, before) && ParamsIn(suite.p, after)
    ensures AlwaysAccepted(suite, before, after) <==>
      after.contributions != [] && Follows(suite.p, before, after) && exists secrets :: Accounted(suite, after, secrets)
  {
    AlwaysSplits(suite, before, after);
    SettledMeans(suite, before, after);
    UnchangedMeans(before.key, after.key);
    hide AlwaysAccepted, Settled, CheckUnchanged, SameRatio, MergesAlways, Accounted, Balanced, Mul;
    var c, d := after.key.vk.deltaG2, before.key.vk.deltaG2;
    if |before.key.hQuery| == |after.key.hQuery| && |before.key.lQuery| == |after.key.lQuery| {
      MergeIffElementwise(suite.p, before.key.hQuery, after.key.hQuery, c, d);
      MergeIffElementwise(suite.p, before.key.lQuery, after.key.lQuery, c, d);
      BalancedIsRatio(suite.p, before.key.hQuery, d, after.key.hQuery, c);
      BalancedIsRatio(suite.p, before.key.lQuery, d, after.key.lQuery, c);
    }
    hide SameRatios, ParamsIn;
  }

  // ----- what a rejection says

  /** The reason of a rejection names something that is wrong with the two versions. */
  ghost predicate Wrong(suite: Suite, before: Params, after: Params, reason: Rejection)
    requires suite.Valid()
  {
    var p, keys, d, d' := suite.p, after.contributions, before.key.vk.deltaG2, after.key.vk.deltaG2;
    match reason
    case NoContributions => keys == []
    case InvalidLength => Lengths(before.key) != Lengths(after.key)
    case UnreadableKey => exists key :: (key in before.contributions || key in keys) && HasZero(key)
    case UnconstrainedVariable => false
    case BrokenInvariant(Transcript) => exists i: nat :: i < |keys| && !Stamped(suite, before.csHash, keys, i)
    case BrokenInvariant(what) => Differs(before, after, what)
    case InvalidRatio(DeltaInG2) => keys != [] && keys[|keys| - 1].deltaAfter != d'
    case InvalidRatio(HQuery) => !Balanced(p, before.key.hQuery, d, after.key.hQuery, d')
    case InvalidRatio(LQuery) => !Balanced(p, before.key.lQuery, d, after.key.lQuery, d')
    case InvalidRatio(Knowledge) => exists i: nat :: i < |keys| && !exists x :: Proves(suite, keys[i], x)
    case InvalidRatio(DeltaInG1) => exists i: nat, x :: i < |keys| && MovesOtherwise(suite, keys, i, x)
  }

  ghost predicate HasZero(key: PublicKey) {
    key.deltaAfter == 0 || key.s == 0 || key.sDelta == 0 || key.rDelta == 0
  }

  ghost function Lengths(key: ProvingKey): seq<nat> {
    [|key.vk.gammaAbcG1|, |key.aQuery|, |key.bG1Query|, |key.bG2Query|, |key.hQuery|, |key.lQuery|]
  }

  ghost predicate Differs(before: Params, after: Params, what: Invariant) {
    var a, b, n := before.key, after.key, |after.contributions|;
    match what
    case DeltaG1 => n != 0 && after.contributions[n - 1].deltaAfter != b.deltaG1
    case Contributions => !(before.contributions <= after.contributions)
    case CsHash => before.csHash != after.csHash
    case AlphaG1 => a.vk.alphaG1 != b.vk.alphaG1
    case BetaG1 => a.betaG1 != b.betaG1
    case BetaG2 => a.vk.betaG2 != b.vk.betaG2
    case GammaG2 => a.vk.gammaG2 != b.vk.gammaG2
    case GammaAbcG1 => a.vk.gammaAbcG1 != b.vk.gammaAbcG1
    case AlphaG1Query => a.aQuery != b.aQuery
    case BetaG1Query => a.bG1Query != b.bG1Query
    case BetaG2Query => a.bG2Query != b.bG2Query
    case Transcript => false
  }

  /** The key carries the hash of the transcript before it. */
  ghost predicate Stamped(suite: Suite, csHash: Hash, keys: seq<PublicKey>, i: nat)
    requires i < |keys|
  {
    keys[i].transcript == suite.transcript(csHash, keys[..i], keys[i].s, keys[i].sDelta)
  }

  /** The same secret takes s to s_delta and the hashed point to r_delta. */
  ghost predicate Proves(suite: Suite, key: PublicKey, x: Scalar)
    requires suite.Valid()
  {
    x < suite.p && key.sDelta == Mul(suite.p, x, key.s) && key.rDelta == Mul(suite.p, x, suite.toCurve(key.transcript))
  }

  /** The key proves a secret, and the delta changes by another one. */
  ghost predicate MovesOtherwise(suite: Suite, keys: seq<PublicKey>, i: nat, x: Scalar)
    requires suite.Valid() && i < |keys|
  {
    Proves(suite, keys[i], x) && keys[i].deltaAfter != Mul(suite.p, x, DeltaBefore(keys, i))
  }

  lemma KeyRejection(suite: Suite, before: Params, after: Params, i: nat)
    requires suite.Valid() && i < |after.contributions| && KeysIn(suite.p, after.contributions)
    ensures var verdict := CheckKey(suite, before.csHash, after.contributions, i);
      !verdict.Panicked? && (verdict.Rejected? ==> Wrong(suite, before, after, verdict.reason))
  {
    hide Mul, Inv, Prime;
    var p, keys := suite.p, after.contributions;
    var key, r := keys[i], suite.toCurve(keys[i].transcript);
    if Stamped(suite, before.csHash, keys, i) {
      RatioScalar(p, key.s, key.sDelta, r, key.rDelta);
      RatioScalar(p, DeltaBefore(keys, i), key.deltaAfter, r, key.rDelta);
      var k := Mul(p, key.rDelta, Inv(p, r));
      if x :| Proves(suite, key, x) {
        MulDiv(p, x, r);
        assert x == k;
      }
      if SameRatio(p, key.s, key.sDelta, r, key.rDelta) && !SameRatio(p, DeltaBefore(keys, i), key.deltaAfter, r, key.rDelta) {
        assert MovesOtherwise(suite, keys, i, k);
      }
    }
  }

  lemma {:induction false} TranscriptRejection(suite: Suite, before: Params, after: Params, k: nat)
    requires suite.Valid() && k <= |after.contributions| && KeysIn(suite.p, after.contributions)
    ensures var verdict := TranscriptVerdict(suite, before.csHash, after.contributions, k);
      !verdict.Panicked? && (verdict.Rejected? ==> Wrong(suite, before, after, verdict.reason))
  {
    hide CheckKey, Wrong, KeysIn;
    if k > 0 {
      TranscriptRejection(suite, before, after, k - 1);
      KeyRejection(suite, before, after, k - 1);
    }
  }

  lemma UnchangedRejection(suite: Suite, before: Params, after: Params)
    requires suite.Valid()
    ensures var verdict := CheckUnchanged(before.key, after.key);
      !verdict.Panicked? && (verdict.Rejected? ==> Wrong(suite, before, after, verdict.reason))
  {
    hide Balanced, MovesOtherwise, Proves, Stamped, HasZero;
  }

  /** A merged check that fails shows that the two queries do not balance. */
  lemma MergedRejection(p: nat, before: seq<G1>, d: G2, after: seq<G1>, d': G2, r: seq<Scalar>)
    requires 0 < p && |r| == |before| == |after| && !SameRatio(p, Dot(p, r, before), Dot(p, r, after), d', d)
    ensures !Balanced(p, before, d, after, d')
  {
    hide Dot, SameRatio;
    if Balanced(p, before, d, after, d') {
      BalancedIsRatio(p, before, d, after, d');
      MergedRatio(p, r, before, after, d', d);
    }
  }

  lemma DeltaRejection(suite: Suite, before: Params, after: Params)
    requires suite.Valid() && ParamsIn(suite.p, after) && after.contributions != []
    ensures var x := after.contributions[|after.contributions| - 1].deltaAfter;
      SameRatio(suite.p, 1, x, 1, after.key.vk.deltaG2) <==> x == after.key.vk.deltaG2
  {
    hide Mul, VectorsIn;
    MulUnit(suite.p, after.key.vk.deltaG2);
    MulUnit(suite.p, after.contributions[|after.contributions| - 1].deltaAfter);
  }

  /** A verification is rejected for a reason that is there, and panics on a shortened transcript only. */
  lemma RejectionMeans(suite: Suite, before: Params, after: Params, rh: seq<Scalar>, rl: seq<Scalar>)
    requires suite.Valid() && ParamsIn(suite.p, before) && ParamsIn(suite.p, after)
    requires |rh| == |before.key.hQuery| && |rl| == |before.key.lQuery|
    ensures var verdict := Verify(suite, before, after, rh, rl);
      && (verdict.Rejected? ==> Wrong(suite, before, after, verdict.reason))
      && (verdict.Panicked? ==> |before.contributions| > |after.contributions|)
  {
    var p, d, d' := suite.p, before.key.vk.deltaG2, after.key.vk.deltaG2;
    TranscriptRejection(suite, before, after, |after.contributions|);
    UnchangedRejection(suite, before, after);
    UnchangedMeans(before.key, after.key);
    if after.contributions != [] {
      DeltaRejection(suite, before, after);
    }
    hide TranscriptVerdict, CheckUnchanged, SameRatio, Balanced, ParamsIn, Dot, Prime, Stamped, Proves, MovesOtherwise, HasZero;
    var h, h', l, l' := before.key.hQuery, after.key.hQuery, before.key.lQuery, after.key.lQuery;
    if |h| == |h'| && !SameRatio(p, Dot(p, rh, h), Dot(p, rh, h'), d', d) {
      MergedRejection(p, h, d, h', d', rh);
    }
    if |l| == |l'| && !SameRatio(p, Dot(p, rl, l), Dot(p, rl, l'), d', d) {
      MergedRejection(p, l, d, l', d', rl);
    }
  }

  // ----- honest runs

  /** Parameters before any contribution. */
  ghost predicate Initial(m: Params) {
    m.contributions == [] && m.key.deltaG1 == 1 && m.key.vk.deltaG2 == 1
  }

  /** Version `i + 1` is a contribution to version `i` with the secrets `deltas[i]` and `ss[i]`. */
  ghost predicate HonestRun(suite: Suite, versions: seq<Params>, deltas: seq<Scalar>, ss: seq<G1>)
    requires suite.Valid()
  {
    && |versions| == |deltas| + 1 == |ss| + 1
    && ParamsIn(suite.p, versions[0]) && Initial(versions[0])
    && (forall i :: 0 <= i < |deltas| ==> 0 < deltas[i] < suite.p && ss[i] < suite.p)
    && forall i :: 0 <= i < |deltas| ==> Contributed(suite, versions[i], deltas[i], ss[i]) == Accepted(versions[i + 1])
  }

  lemma ContributeIn(suite: Suite, m: Params, delta: Scalar, s: G1)
    requires suite.Valid() && ParamsIn(suite.p, m) && 0 < delta < suite.p && s < suite.p
    ensures ParamsIn(suite.p, Contributed(suite, m, delta, s).value)
  {
    hide Mul, Inv, Prime;
  }

  /** Dividing each entry by what delta is multiplied with keeps the balance. */
  lemma ScaleBalances(p: nat, query: seq<G1>, deltaG2: G2, delta: Scalar)
    requires Prime(p) && 0 < delta < p && deltaG2 < p
    ensures Balanced(p, query, deltaG2, Scaled(p, query, Inv(p, delta)), Mul(p, deltaG2, delta))
  {
    hide Mul, Inv, Prime;
    forall i | 0 <= i < |query|
      ensures Mul(p, query[i], deltaG2) == Mul(p, Mul(p, query[i], Inv(p, delta)), Mul(p, deltaG2, delta))
    {
      MulPairs(p, query[i], Inv(p, delta), deltaG2, delta);
      MulInverse(p, delta);
      MulUnit(p, Mul(p, query[i], deltaG2));
    }
  }

  lemma ContributeFollows(suite: Suite, m: Params, delta: Scalar, s: G1)
    requires suite.Valid() && ParamsIn(suite.p, m) && 0 < delta < suite.p
    ensures Follows(suite.p, m, Contributed(suite, m, delta, s).value)
  {
    hide Mul, Inv, Prime;
    ScaleBalances(suite.p, m.key.hQuery, m.key.vk.deltaG2, delta);
    ScaleBalances(suite.p, m.key.lQuery, m.key.vk.deltaG2, delta);
    hide Balanced, Scaled;
  }

  lemma FollowsTransitive(p: nat, a: Params, b: Params, c: Params)
    requires 0 < p && Follows(p, a, b) && Follows(p, b, c)
    ensures Follows(p, a, c)
  {
    hide Mul;
  }

  lemma FollowsReflexive(p: nat, m: Params)
    requires 0 < p
    ensures Follows(p, m, m)
  {
    hide Mul;
  }

  /** Keys before the new one are explained as before. */
  lemma KnowsPrefix(suite: Suite, csHash: Hash, keys: seq<PublicKey>, key: PublicKey, i: nat, d: Scalar)
    requires suite.Valid() && i < |keys|
    ensures Knows(suite, csHash, keys + [key], i, d) <==> Knows(suite, csHash, keys, i, d)
  {
    assert (keys + [key])[..i] == keys[..i];
    hide Mul;
  }

  lemma ContributeKnows(suite: Suite, m: Params, delta: Scalar, s: G1)
    requires suite.Valid() && 0 < delta < suite.p
    requires m.key.deltaG1 == DeltaBefore(m.contributions, |m.contributions|)
    ensures var m' := Contributed(suite, m, delta, s).value;
      Knows(suite, m.csHash, m'.contributions, |m.contributions|, delta)
  {
    hide Mul, Inv, Prime;
    var m' := Contributed(suite, m, delta, s).value;
    var key := m'.contributions[|m.contributions|];
    assert m'.contributions[..|m.contributions|] == m.contributions;
    MulCommutes(suite.p, s, delta);
    MulCommutes(suite.p, suite.toCurve(key.transcript), delta);
    MulCommutes(suite.p, m.key.deltaG1, delta);
  }

  lemma DeltaIsLast(suite: Suite, m: Params, secrets: seq<Scalar>)
    requires suite.Valid() && Accounted(suite, m, secrets)
    ensures m.key.deltaG1 == DeltaBefore(m.contributions, |m.contributions|)
  {
    hide Knows, Mul, Prime;
    var n := |m.contributions|;
    if n > 0 {
      assert secrets[..n - 1 + 1] == secrets;
    }
  }

  /** A contribution extends the account by its own secret. */
  lemma ContributeAccounts(suite: Suite, m: Params, delta: Scalar, s: G1, secrets: seq<Scalar>)
    requires suite.Valid() && Accounted(suite, m, secrets) && 0 < delta < suite.p
    ensures Accounted(suite, Contributed(suite, m, delta, s).value, secrets + [delta])
  {
    hide Mul, Inv, Prime;
    var m', all := Contributed(suite, m, delta, s).value, secrets + [delta];
    var n := |m.contributions|;
    DeltaIsLast(suite, m, secrets);
    ContributeKnows(suite, m, delta, s);
    assert all[..n] == secrets;
    MulCommutes(suite.p, Product(suite.p, secrets), delta);
    hide Knows, Product;
    forall i | 0 <= i < n + 1
      ensures Knows(suite, m'.csHash, m'.contributions, i, all[i])
    {
      if i < n {
        KnowsPrefix(suite, m.csHash, m.contributions, m'.contributions[n], i, secrets[i]);
      }
    }
    forall i | 0 <= i < n + 1 ensures m'.contributions[i].deltaAfter == Product(suite.p, all[..i + 1]) {
      DeltasMultiply(suite, m'.csHash, m'.contributions, all, i);
    }
  }

  lemma {:induction false} RunAccounted(suite: Suite, versions: seq<Params>, deltas: seq<Scalar>, ss: seq<G1>, j: nat)
    requires suite.Valid() && HonestRun(suite, versions, deltas, ss) && j < |versions|
    ensures ParamsIn(suite.p, versions[j]) && Accounted(suite, versions[j], deltas[..j])
  {
    hide Mul, Inv, Prime, Contributed, ParamsIn;
    if j > 0 {
      RunAccounted(suite, versions, deltas, ss, j - 1);
      ContributeIn(suite, versions[j - 1], deltas[j - 1], ss[j - 1]);
      ContributeAccounts(suite, versions[j - 1], deltas[j - 1], ss[j - 1], deltas[..j - 1]);
      assert deltas[..j] == deltas[..j - 1] + [deltas[j - 1]];
    }
  }

  lemma {:induction false} RunFollows(suite: Suite, versions: seq<Params>, deltas: seq<Scalar>, ss: seq<G1>, i: nat, j: nat)
    requires suite.Valid() && HonestRun(suite, versions, deltas, ss) && i <= j < |versions|
    ensures Follows(suite.p, versions[i], versions[j])
    ensures |versions[j].contributions| == j
  {
    hide Mul, Inv, Prime, Follows, ParamsIn;
    RunAccounted(suite, versions, deltas, ss, j);
    if i == j {
      FollowsReflexive(suite.p, versions[i]);
    } else {
      RunFollows(suite, versions, deltas, ss, i, j - 1);
      RunAccounted(suite, versions, deltas, ss, j - 1);
      ContributeFollows(suite, versions[j - 1], deltas[j - 1], ss[j - 1]);
      FollowsTransitive(suite.p, versions[i], versions[j - 1], versions[j]);
    }
  }

  /** The hash a contributor got for making this version: that of its newest key. */
  ghost predicate Receipt(suite: Suite, version: Params, hash: Hash) {
    version.contributions != [] && hash == suite.keyHash(version.contributions[|version.contributions| - 1])
  }

  /** One hash per contribution, in order. */
  ghost predicate Receipts(suite: Suite, versions: seq<Params>, hashes: seq<Hash>)
    requires |hashes| < |versions|
  {
    forall k :: 0 <= k < |hashes| ==> Receipt(suite, versions[k + 1], hashes[k])
  }

  /**
    Completeness over whole runs: every version accepts every later one under any randomness,
    and returns the hashes that the contributors obtained, in order.
   */
  lemma HonestRunVerifies(suite: Suite, versions: seq<Params>, deltas: seq<Scalar>, ss: seq<G1>, i: nat, j: nat,
                          rh: seq<Scalar>, rl: seq<Scalar>)
    requires suite.Valid() && HonestRun(suite, versions, deltas, ss) && i < j < |versions|
    requires |rh| == |versions[i].key.hQuery| && |rl| == |versions[i].key.lQuery| && AllIn(suite.p, rh) && AllIn(suite.p, rl)
    ensures var verdict := Verify(suite, versions[i], versions[j], rh, rl);
      verdict.Accepted? && |verdict.value| == j && Receipts(suite, versions, verdict.value)
  {
    RunFollows(suite, versions, deltas, ss, i, j);
    var keys := versions[j].contributions;
    hide Verify, Follows, TranscriptVerdict, HonestRun, Prime, AllIn;
    RunAccepts(suite, versions, deltas, ss, i, j, rh, rl);
    AcceptedSoFar(suite, versions[i].csHash, keys, j);
    hide CheckKey;
    var hashes := Verify(suite, versions[i], versions[j], rh, rl).value;
    forall k | 0 <= k < j ensures Receipt(suite, versions[k + 1], hashes[k]) {
      ReceiptIsKey(suite, versions, deltas, ss, k, j);
    }
  }

  lemma RunAccepts(suite: Suite, versions: seq<Params>, deltas: seq<Scalar>, ss: seq<G1>, i: nat, j: nat,
                   rh: seq<Scalar>, rl: seq<Scalar>)
    requires suite.Valid() && HonestRun(suite, versions, deltas, ss) && i < j < |versions|
    requires |rh| == |versions[i].key.hQuery| && |rl| == |versions[i].key.lQuery| && AllIn(suite.p, rh) && AllIn(suite.p, rl)
    ensures var verdict := Verify(suite, versions[i], versions[j], rh, rl);
      && verdict.Accepted?
      && verdict == TranscriptVerdict(suite, versions[i].csHash, versions[j].contributions, |versions[j].contributions|)
  {
    assert |deltas| + 1 == |versions|;
    hide Verify, Follows, ParamsIn, Accounted, TranscriptVerdict, HonestRun, Prime;
    RunAccounted(suite, versions, deltas, ss, i);
    RunAccounted(suite, versions, deltas, ss, j);
    RunFollows(suite, versions, deltas, ss, i, j);
    VerifyMeaning(suite, versions[i], versions[j]);
    var secrets := deltas[..j];
    assert Accounted(suite, versions[j], secrets);
    assert versions[j].contributions != [];
    assert AlwaysAccepted(suite, versions[i], versions[j]);
    VerifySplits(suite, versions[i], versions[j], rh, rl);
  }

  lemma ReceiptIsKey(suite: Suite, versions: seq<Params>, deltas: seq<Scalar>, ss: seq<G1>, k: nat, j: nat)
    requires suite.Valid() && HonestRun(suite, versions, deltas, ss) && k < j < |versions|
    ensures |versions[k + 1].contributions| == k + 1 && |versions[j].contributions| == j
    ensures versions[k + 1].contributions[k] == versions[j].contributions[k]
  {
    hide HonestRun;
    RunFollows(suite, versions, deltas, ss, k + 1, j);
    RunFollows(suite, versions, deltas, ss, k + 1, k + 1);
    hide Balanced;
  }
}
