/**
  Verification on raw buffers, in batches: fixed queries are compared and the H and L queries
  ratio-checked one batch at a time, each batch with randomness of its own. For every batch size
  it accepts exactly what the in-memory verification accepts.
 */
module ChunkedVerify {
  import opened Wrappers
  import opened Arith
  import opened Field
  import opened Pairing
  import opened Phase2
  import opened Contributions
  import opened Codec
  import opened ChunkedGroth16
  import opened Multiexp

  // ----- what the batched verification computes

  /** The randomness of each batch of each of the two ratio checks. */
  type Draws = (Check, nat) -> seq<Scalar>

  ghost predicate DrawFits(p: nat, draw: seq<Scalar>, n: nat, batch: nat, i: nat) {
    Low(batch, i) + |draw| == High(n, batch, i) && AllIn(p, draw)
  }

  ghost predicate DrawsFit(p: nat, draws: Draws, which: Check, n: nat, batch: nat)
    requires 0 < batch
  {
    forall i: nat :: i < Chunks(n, batch) ==> DrawFits(p, draws(which, i), n, batch, i)
  }

  /** Batch `i` of two vectors of the same length, merged with `draw`, has the ratio of (c, d). */
  ghost predicate BatchPasses(p: nat, a: seq<G1>, b: seq<G1>, c: G2, d: G2, batch: nat, draw: seq<Scalar>, i: nat)
    requires 0 < p && |a| == |b| && DrawFits(p, draw, |a|, batch, i)
  {
    var lo, hi := Low(batch, i), High(|a|, batch, i);
    SameRatio(p, Dot(p, draw, a[lo..hi]), Dot(p, draw, b[lo..hi]), c, d)
  }

  ghost predicate BatchesPass(p: nat, a: seq<G1>, b: seq<G1>, c: G2, d: G2, batch: nat, draws: Draws, which: Check)
    requires 0 < p && 0 < batch && |a| == |b| && DrawsFit(p, draws, which, |a|, batch)
  {
    forall i: nat :: i < Chunks(|a|, batch) ==> BatchPasses(p, a, b, c, d, batch, draws(which, i), i)
  }

  ghost function RatioVerdict(p: nat, a: seq<G1>, b: seq<G1>, c: G2, d: G2, batch: nat, draws: Draws, which: Check): Verdict<()>
    requires 0 < p && 0 < batch && DrawsFit(p, draws, which, |a|, batch)
  {
    if |a| != |b| then Rejected(InvalidLength)
    else if !BatchesPass(p, a, b, c, d, batch, draws, which) then Rejected(InvalidRatio(which))
    else Accepted(())
  }

  function SameVector(a: seq<nat>, b: seq<nat>, what: Invariant): Verdict<()> {
    if a != b then Rejected(BrokenInvariant(what)) else Accepted(())
  }

  function Then(first: Verdict<()>, second: Verdict<()>): Verdict<()> {
    if first.Accepted? then second else first
  }

  /** The checks on the verifying key and the first elements. */
  function HeaderVerdict(before: ProvingKey, after: ProvingKey): Verdict<()> {
    if before.vk.alphaG1 != after.vk.alphaG1 then Rejected(BrokenInvariant(AlphaG1))
    else if before.betaG1 != after.betaG1 then Rejected(BrokenInvariant(BetaG1))
    else if before.vk.betaG2 != after.vk.betaG2 then Rejected(BrokenInvariant(BetaG2))
    else if before.vk.gammaG2 != after.vk.gammaG2 then Rejected(BrokenInvariant(GammaG2))
    else CheckVector(before.vk.gammaAbcG1, after.vk.gammaAbcG1, GammaAbcG1)
  }

  /** The five query checks, in the order their threads are joined. */
  ghost function QueriesVerdict(p: nat, before: ProvingKey, after: ProvingKey, batch: nat, draws: Draws): Verdict<()>
    requires 0 < p && 0 < batch
    requires DrawsFit(p, draws, HQuery, |before.hQuery|, batch) && DrawsFit(p, draws, LQuery, |before.lQuery|, batch)
  {
    var c, d := after.vk.deltaG2, before.vk.deltaG2;
    Then(SameVector(before.aQuery, after.aQuery, AlphaG1Query),
    Then(SameVector(before.bG1Query, after.bG1Query, BetaG1Query),
    Then(SameVector(before.bG2Query, after.bG2Query, BetaG2Query),
    Then(RatioVerdict(p, before.hQuery, after.hQuery, c, d, batch, draws, HQuery),
         RatioVerdict(p, before.lQuery, after.lQuery, c, d, batch, draws, LQuery)))))
  }

  /** The checks that need the keys of both transcripts. */
  function KeysVerdict(suite: Suite, before: Params, after: Params): Verdict<seq<Hash>>
    requires suite.Valid()
  {
    var n := |after.contributions|;
    if before.csHash != after.csHash then Rejected(BrokenInvariant(CsHash))
    else if !AllReadable(before.contributions) || !AllReadable(after.contributions) then Rejected(UnreadableKey)
    else if |before.contributions| > n then Panicked
    else if before.contributions != after.contributions[..|before.contributions|] then Rejected(BrokenInvariant(Contributions))
    else if n == 0 then Rejected(NoContributions)
    else if after.contributions[n - 1].deltaAfter != after.key.deltaG1 then Rejected(BrokenInvariant(DeltaG1))
    else if !SameRatio(suite.p, 1, after.contributions[n - 1].deltaAfter, 1, after.key.vk.deltaG2)
    then Rejected(InvalidRatio(DeltaInG2))
    else TranscriptVerdict(suite, before.csHash, after.contributions, n)
  }

  ghost function BatchedVerdict(suite: Suite, before: Params, after: Params, batch: nat, draws: Draws): Verdict<seq<Hash>>
    requires suite.Valid() && 0 < batch
    requires DrawsFit(suite.p, draws, HQuery, |before.key.hQuery|, batch)
    requires DrawsFit(suite.p, draws, LQuery, |before.key.lQuery|, batch)
  {
    match Then(HeaderVerdict(before.key, after.key), QueriesVerdict(suite.p, before.key, after.key, batch, draws))
    case Accepted(_) => KeysVerdict(suite, before, after)
    case Rejected(reason) => Rejected(reason)
    case Panicked => Panicked
  }

  // ----- batches under all randomness

  /** The draws that single out element `j` of one check. */
  ghost function Single(n: nat, batch: nat, which: Check, j: nat, other: nat): Draws
    requires 0 < batch && j < n
  {
    (w: Check, i: nat) =>
      if w == which && i == j / batch && Low(batch, i) <= j < High(n, batch, i)
      then Unit(High(n, batch, i) - Low(batch, i), j - Low(batch, i))
      else
        var m := if w == which then n else other;
        if Low(batch, i) <= High(m, batch, i) then seq(High(m, batch, i) - Low(batch, i), _ => 0) else []
  }

  lemma ChunkNonempty(n: nat, batch: nat, i: nat)
    requires 0 < batch && i < Chunks(n, batch)
    ensures Low(batch, i) < High(n, batch, i) <= n
  {
    ChunkInRange(n, batch, i);
  }

  lemma SingleFits(p: nat, n: nat, batch: nat, which: Check, j: nat, other: nat, w: Check)
    requires 1 < p && 0 < batch && j < n
    ensures DrawsFit(p, Single(n, batch, which, j, other), w, if w == which then n else other, batch)
  {
    var draws, m := Single(n, batch, which, j, other), if w == which then n else other;
    forall i: nat | i < Chunks(m, batch) ensures DrawFits(p, draws(w, i), m, batch, i) {
      ChunkNonempty(m, batch, i);
      hide Low, High;
    }
  }

  /** Batch by batch under one choice of randomness: implied by the check of every element. */
  lemma ElementsPass(p: nat, a: seq<G1>, b: seq<G1>, c: G2, d: G2, batch: nat, draws: Draws, which: Check)
    requires 0 < p && 0 < batch && |a| == |b| && DrawsFit(p, draws, which, |a|, batch) && SameRatios(p, a, b, c, d)
    ensures BatchesPass(p, a, b, c, d, batch, draws, which)
  {
    forall i: nat | i < Chunks(|a|, batch) ensures BatchPasses(p, a, b, c, d, batch, draws(which, i), i) {
      ChunkNonempty(|a|, batch, i);
      var lo, hi, draw := Low(batch, i), High(|a|, batch, i), draws(which, i);
      assert DrawFits(p, draw, |a|, batch, i);
      hide SameRatio, Low, High, Dot;
      MergedRatio(p, draw, a[lo..hi], b[lo..hi], c, d);
    }
  }

  /** A batch that passes with the draw singling out element `j` shows that element's ratio. */
  lemma SinglePasses(p: nat, a: seq<G1>, b: seq<G1>, c: G2, d: G2, batch: nat, which: Check, j: nat, other: nat)
    requires 1 < p && 0 < batch && |a| == |b| && AllIn(p, a) && AllIn(p, b) && j < |a|
    requires DrawsFit(p, Single(|a|, batch, which, j, other), which, |a|, batch)
    requires BatchesPass(p, a, b, c, d, batch, Single(|a|, batch, which, j, other), which)
    ensures SameRatio(p, a[j], b[j], c, d)
  {
    DivNonnegative(j, batch);
    var i: nat := j / batch;
    ChunkInRange(|a|, batch, j);
    InChunk(j, batch, i);
    var lo, hi := Low(batch, i), High(|a|, batch, i);
    var draw := Single(|a|, batch, which, j, other)(which, i);
    assert draw == Unit(hi - lo, j - lo);
    assert DrawFits(p, draw, |a|, batch, i);
    assert BatchPasses(p, a, b, c, d, batch, draw, i);
    hide Low, High, SameRatio, Dot;
    DotUnit(p, a[lo..hi], j - lo);
    DotUnit(p, b[lo..hi], j - lo);
  }

  /** Both queries pass whatever is drawn. */
  ghost predicate AlwaysPass(p: nat, before: ProvingKey, after: ProvingKey, batch: nat)
    requires 0 < p && 0 < batch && |before.hQuery| == |after.hQuery| && |before.lQuery| == |after.lQuery|
  {
    forall draws: Draws ::
      DrawsFit(p, draws, HQuery, |before.hQuery|, batch) && DrawsFit(p, draws, LQuery, |before.lQuery|, batch) ==>
        && BatchesPass(p, before.hQuery, after.hQuery, after.vk.deltaG2, before.vk.deltaG2, batch, draws, HQuery)
        && BatchesPass(p, before.lQuery, after.lQuery, after.vk.deltaG2, before.vk.deltaG2, batch, draws, LQuery)
  }

  lemma AlwaysPassIff(p: nat, before: ProvingKey, after: ProvingKey, batch: nat)
    requires 1 < p && 0 < batch && VectorsIn(p, before) && VectorsIn(p, after)
    requires |before.hQuery| == |after.hQuery| && |before.lQuery| == |after.lQuery|
    ensures AlwaysPass(p, before, after, batch) <==>
      && SameRatios(p, before.hQuery, after.hQuery, after.vk.deltaG2, before.vk.deltaG2)
      && SameRatios(p, before.lQuery, after.lQuery, after.vk.deltaG2, before.vk.deltaG2)
  {
    var c, d, nh, nl := after.vk.deltaG2, before.vk.deltaG2, |before.hQuery|, |before.lQuery|;
    hide SameRatio, DrawsFit, BatchesPass;
    if AlwaysPass(p, before, after, batch) {
      forall j: nat | j < nh ensures SameRatio(p, before.hQuery[j], after.hQuery[j], c, d) {
        SingleFits(p, nh, batch, HQuery, j, nl, HQuery);
        SingleFits(p, nh, batch, HQuery, j, nl, LQuery);
        SinglePasses(p, before.hQuery, after.hQuery, c, d, batch, HQuery, j, nl);
      }
      forall j: nat | j < nl ensures SameRatio(p, before.lQuery[j], after.lQuery[j], c, d) {
        SingleFits(p, nl, batch, LQuery, j, nh, LQuery);
        SingleFits(p, nl, batch, LQuery, j, nh, HQuery);
        SinglePasses(p, before.lQuery, after.lQuery, c, d, batch, LQuery, j, nh);
      }
    }
    if SameRatios(p, before.hQuery, after.hQuery, c, d) && SameRatios(p, before.lQuery, after.lQuery, c, d) {
      hide SameRatios;
      forall draws: Draws | DrawsFit(p, draws, HQuery, nh, batch) && DrawsFit(p, draws, LQuery, nl, batch)
        ensures BatchesPass(p, before.hQuery, after.hQuery, c, d, batch, draws, HQuery)
        ensures BatchesPass(p, before.lQuery, after.lQuery, c, d, batch, draws, LQuery)
      {
        ElementsPass(p, before.hQuery, after.hQuery, c, d, batch, draws, HQuery);
        ElementsPass(p, before.lQuery, after.lQuery, c, d, batch, draws, LQuery);
      }
    }
  }

  // ----- what a rejection says

  lemma RatioRejection(suite: Suite, before: Params, after: Params, batch: nat, draws: Draws, which: Check)
    requires suite.Valid() && 0 < batch && (which == HQuery || which == LQuery)
    requires DrawsFit(suite.p, draws, which, if which == HQuery then |before.key.hQuery| else |before.key.lQuery|, batch)
    ensures var a, b := if which == HQuery then before.key.hQuery else before.key.lQuery,
                        if which == HQuery then after.key.hQuery else after.key.lQuery;
      var verdict := RatioVerdict(suite.p, a, b, after.key.vk.deltaG2, before.key.vk.deltaG2, batch, draws, which);
      !verdict.Panicked? && (verdict.Rejected? ==> Wrong(suite, before, after, verdict.reason))
  {
    var p, c, d := suite.p, after.key.vk.deltaG2, before.key.vk.deltaG2;
    var a := if which == HQuery then before.key.hQuery else before.key.lQuery;
    var b := if which == HQuery then after.key.hQuery else after.key.lQuery;
    assert 0 < p;
    hide BatchesPass, DrawsFit, Balanced, Prime, MovesOtherwise, Proves, Stamped, HasZero, Differs;
    if |a| == |b| && !BatchesPass(p, a, b, c, d, batch, draws, which) && Balanced(p, a, d, b, c) {
      BalancedIsRatio(p, a, d, b, c);
      ElementsPass(p, a, b, c, d, batch, draws, which);
    }
  }

  lemma FixedRejection(suite: Suite, before: Params, after: Params)
    requires suite.Valid()
    ensures Justified(suite, before, after, HeaderVerdict(before.key, after.key))
    ensures Justified(suite, before, after, SameVector(before.key.aQuery, after.key.aQuery, AlphaG1Query))
    ensures Justified(suite, before, after, SameVector(before.key.bG1Query, after.key.bG1Query, BetaG1Query))
    ensures Justified(suite, before, after, SameVector(before.key.bG2Query, after.key.bG2Query, BetaG2Query))
  {
    hide Balanced, MovesOtherwise, Proves, Stamped, HasZero;
  }

  /** The verdict is no panic, and a rejection for a reason that is there. */
  ghost predicate Justified(suite: Suite, before: Params, after: Params, verdict: Verdict<()>)
    requires suite.Valid()
  {
    !verdict.Panicked? && (verdict.Rejected? ==> Wrong(suite, before, after, verdict.reason))
  }

  lemma KeysRejection(suite: Suite, before: Params, after: Params)
    requires suite.Valid() && ParamsIn(suite.p, before) && ParamsIn(suite.p, after)
    ensures var verdict := KeysVerdict(suite, before, after);
      && (verdict.Rejected? ==> Wrong(suite, before, after, verdict.reason))
      && (verdict.Panicked? ==> |before.contributions| > |after.contributions|)
  {
    TranscriptRejection(suite, before, after, |after.contributions|);
    if after.contributions != [] {
      DeltaRejection(suite, before, after);
    }
    UnreadableHasZero(before.contributions);
    UnreadableHasZero(after.contributions);
    hide TranscriptVerdict, SameRatio, Balanced, ParamsIn, Prime, Stamped, Proves, MovesOtherwise, HasZero, AllReadable;
  }

  lemma UnreadableHasZero(keys: seq<PublicKey>)
    ensures !AllReadable(keys) ==> exists key :: key in keys && HasZero(key)
  {
    if i :| 0 <= i < |keys| && !Readable(keys[i]) {
      assert keys[i] in keys && HasZero(keys[i]);
    }
  }

  /** The batched verification, too, rejects for a reason that is there, whatever is drawn. */
  lemma BatchedRejection(suite: Suite, before: Params, after: Params, batch: nat, draws: Draws)
    requires suite.Valid() && 0 < batch && ParamsIn(suite.p, before) && ParamsIn(suite.p, after)
    requires DrawsFit(suite.p, draws, HQuery, |before.key.hQuery|, batch)
    requires DrawsFit(suite.p, draws, LQuery, |before.key.lQuery|, batch)
    ensures var verdict := BatchedVerdict(suite, before, after, batch, draws);
      && (verdict.Rejected? ==> Wrong(suite, before, after, verdict.reason))
      && (verdict.Panicked? ==> |before.contributions| > |after.contributions|)
  {
    hide Prime, ParamsIn, Wrong, DrawsFit, RatioVerdict, SameVector, HeaderVerdict, KeysVerdict;
    FixedRejection(suite, before, after);
    RatioRejection(suite, before, after, batch, draws, HQuery);
    RatioRejection(suite, before, after, batch, draws, LQuery);
    KeysRejection(suite, before, after);
  }

  // ----- the batched verification accepts what the in-memory one accepts

  /** Accepted whatever randomness the batches draw. */
  ghost predicate AlwaysAcceptedInBatches(suite: Suite, before: Params, after: Params, batch: nat)
    requires suite.Valid() && 0 < batch
  {
    forall draws: Draws ::
      DrawsFit(suite.p, draws, HQuery, |before.key.hQuery|, batch) && DrawsFit(suite.p, draws, LQuery, |before.key.lQuery|, batch) ==>
        BatchedVerdict(suite, before, after, batch, draws).Accepted?
  }

  lemma BatchedSplits(suite: Suite, before: Params, after: Params, batch: nat, draws: Draws)
    requires suite.Valid() && 0 < batch
    requires DrawsFit(suite.p, draws, HQuery, |before.key.hQuery|, batch)
    requires DrawsFit(suite.p, draws, LQuery, |before.key.lQuery|, batch)
    ensures Settled(suite, before, after) ==>
      |before.key.hQuery| == |after.key.hQuery| && |before.key.lQuery| == |after.key.lQuery|
    ensures BatchedVerdict(suite, before, after, batch, draws).Accepted? <==>
      && Settled(suite, before, after)
      && AllReadable(before.contributions) && AllReadable(after.contributions)
      && var c, d := after.key.vk.deltaG2, before.key.vk.deltaG2;
      && BatchesPass(suite.p, before.key.hQuery, after.key.hQuery, c, d, batch, draws, HQuery)
      && BatchesPass(suite.p, before.key.lQuery, after.key.lQuery, c, d, batch, draws, LQuery)
    ensures BatchedVerdict(suite, before, after, batch, draws).Accepted? ==>
      BatchedVerdict(suite, before, after, batch, draws) ==
      TranscriptVerdict(suite, before.csHash, after.contributions, |after.contributions|)
  {
    hide SameRatio, BatchesPass, DrawsFit, TranscriptVerdict, AllReadable;
    UnchangedMeans(before.key, after.key);
    KeyMaterialSame(suite.p, before.key, after.key, batch, draws);
    hide CheckUnchanged, HeaderVerdict, QueriesVerdict;
  }

  lemma KeyMaterialSame(p: nat, before: ProvingKey, after: ProvingKey, batch: nat, draws: Draws)
    requires 0 < p && 0 < batch
    requires DrawsFit(p, draws, HQuery, |before.hQuery|, batch) && DrawsFit(p, draws, LQuery, |before.lQuery|, batch)
    ensures Then(HeaderVerdict(before, after), QueriesVerdict(p, before, after, batch, draws)).Accepted? <==>
      && CheckUnchanged(before, after).Accepted?
      && |before.hQuery| == |after.hQuery| && |before.lQuery| == |after.lQuery|
      && BatchesPass(p, before.hQuery, after.hQuery, after.vk.deltaG2, before.vk.deltaG2, batch, draws, HQuery)
      && BatchesPass(p, before.lQuery, after.lQuery, after.vk.deltaG2, before.vk.deltaG2, batch, draws, LQuery)
  {
    hide BatchesPass, DrawsFit;
  }

  lemma AlwaysBatchedSplits(suite: Suite, before: Params, after: Params, batch: nat)
    requires suite.Valid() && 0 < batch
    ensures AlwaysAcceptedInBatches(suite, before, after, batch) <==>
      && Settled(suite, before, after)
      && AllReadable(before.contributions) && AllReadable(after.contributions)
      && |before.key.hQuery| == |after.key.hQuery| && |before.key.lQuery| == |after.key.lQuery|
      && AlwaysPass(suite.p, before.key, after.key, batch)
  {
    hide Settled, BatchesPass, DrawsFit, BatchedVerdict, AllReadable;
    var p, nh, nl := suite.p, |before.key.hQuery|, |before.key.lQuery|;
    if AlwaysAcceptedInBatches(suite, before, after, batch) {
      var some := AnyDraws(p, nh, nl, batch);
      BatchedSplits(suite, before, after, batch, some);
      forall draws: Draws | DrawsFit(p, draws, HQuery, nh, batch) && DrawsFit(p, draws, LQuery, nl, batch)
        ensures BatchesPass(p, before.key.hQuery, after.key.hQuery, after.key.vk.deltaG2, before.key.vk.deltaG2, batch, draws, HQuery)
        ensures BatchesPass(p, before.key.lQuery, after.key.lQuery, after.key.vk.deltaG2, before.key.vk.deltaG2, batch, draws, LQuery)
      {
        BatchedSplits(suite, before, after, batch, draws);
      }
    }
    if Settled(suite, before, after) && AllReadable(before.contributions) && AllReadable(after.contributions)
       && nh == |after.key.hQuery| && nl == |after.key.lQuery| && AlwaysPass(p, before.key, after.key, batch)
    {
      forall draws: Draws | DrawsFit(p, draws, HQuery, nh, batch) && DrawsFit(p, draws, LQuery, nl, batch)
        ensures BatchedVerdict(suite, before, after, batch, draws).Accepted?
      {
        BatchedSplits(suite, before, after, batch, draws);
      }
    }
  }

  lemma AnyDraws(p: nat, nh: nat, nl: nat, batch: nat) returns (draws: Draws)
    requires 1 < p && 0 < batch
    ensures DrawsFit(p, draws, HQuery, nh, batch) && DrawsFit(p, draws, LQuery, nl, batch)
  {
    draws := (w: Check, i: nat) =>
      var n := if w == HQuery then nh else nl;
      if Low(batch, i) <= High(n, batch, i) then seq(High(n, batch, i) - Low(batch, i), _ => 0) else [];
    forall i: nat | i < Chunks(nh, batch) ensures DrawFits(p, draws(HQuery, i), nh, batch, i) {
      ChunkNonempty(nh, batch, i);
    }
    forall i: nat | i < Chunks(nl, batch) ensures DrawFits(p, draws(LQuery, i), nl, batch, i) {
      ChunkNonempty(nl, batch, i);
    }
  }

  /**
    The batched verification refines the in-memory one: for every batch size it accepts, under all
    randomness, exactly the parameters that the in-memory verification accepts under all
    randomness and whose keys the reader lets pass.
   */
  lemma BatchingIrrelevant(suite: Suite, before: Params, after: Params, batch: nat)
    requires suite.Valid() && 0 < batch && ParamsIn(suite.p, before) && ParamsIn(suite.p, after)
    ensures AlwaysAcceptedInBatches(suite, before, after, batch) <==>
      AlwaysAccepted(suite, before, after) && AllReadable(before.contributions) && AllReadable(after.contributions)
  {
    AlwaysBatchedSplits(suite, before, after, batch);
    AlwaysSplits(suite, before, after);
    hide AlwaysAccepted, AlwaysAcceptedInBatches, Settled, AllReadable, AlwaysPass, MergesAlways, KeysIn;
    if |before.key.hQuery| == |after.key.hQuery| && |before.key.lQuery| == |after.key.lQuery| {
      AlwaysPassIff(suite.p, before.key, after.key, batch);
      MergeIffElementwise(suite.p, before.key.hQuery, after.key.hQuery, after.key.vk.deltaG2, before.key.vk.deltaG2);
      MergeIffElementwise(suite.p, before.key.lQuery, after.key.lQuery, after.key.vk.deltaG2, before.key.vk.deltaG2);
    }
    hide SameRatios;
  }

  /**
    An honest contribution whose random point is zero: accepted in memory under all randomness,
    refused in batches, because the reader does not let its key pass.
   */
  lemma ZeroPointRefused(suite: Suite, m: Params, delta: Scalar, batch: nat)
    requires suite.Valid() && ParamsIn(suite.p, m) && Initial(m) && 0 < delta < suite.p && 0 < batch
    ensures var m' := Contributed(suite, m, delta, 0).value;
      AlwaysAccepted(suite, m, m') && !AlwaysAcceptedInBatches(suite, m, m', batch)
  {
    hide Mul, Inv, Prime, AlwaysAcceptedInBatches;
    var m' := Contributed(suite, m, delta, 0).value;
    assert Accounted(suite, m, []);
    ContributeAccounts(suite, m, delta, 0, []);
    ContributeIn(suite, m, delta, 0);
    ContributeFollows(suite, m, delta, 0);
    VerifyMeaning(suite, m, m');
    assert !Readable(m'.contributions[|m'.contributions| - 1]);
    BatchingIrrelevant(suite, m, m', batch);
  }

  // ----- the same on bytes

  lemma ChunkCount(n: nat, batch: nat)
    requires 0 < batch
    ensures Chunks(n, batch) == n / batch + if n % batch > 0 then 1 else 0
    ensures forall i: nat :: i < n / batch ==> High(n, batch, i) == Low(batch, i) + batch
    ensures n % batch > 0 ==> High(n, batch, n / batch) == n == Low(batch, n / batch) + n % batch
  {
    var q, r := n / batch, n % batch;
    assert n == Low(batch, q) + r;
    if r > 0 {
      DivUnique(n - 1, batch, q, r - 1);
    } else if n > 0 {
      assert (q - 1) * batch == q * batch - batch;
      DivUnique(n - 1, batch, q - 1, batch - 1);
    }
    forall i: nat | i < q ensures High(n, batch, i) == Low(batch, i) + batch {
      FullChunk(n, batch, i, q);
    }
  }

  lemma FullChunk(n: nat, batch: nat, i: nat, q: nat)
    requires i < q && Low(batch, q) <= n
    ensures High(n, batch, i) == Low(batch, i) + batch
  {
    MulMonotone(i + 1, q, batch);
    assert (i + 1) * batch == i * batch + batch;
  }

  /** Reads the points from index `lo` to index `hi` of a serialized query. */
  method ReadBatch(c: PointCode, p: nat, bytes: Bytes, lo: nat, hi: nat, ghost points: seq<nat>) returns (r: seq<nat>)
    requires c.Valid(p) && AllIn(p, points) && bytes == EncodeAll(c, points) && lo <= hi <= |points|
    ensures r == points[lo..hi]
  {
    ghost var pre, post := EncodeAll(c, points[..lo]), EncodeAll(c, points[hi..]);
    EncodeAllSize(c, p, points[..lo]);
    assert points == points[..lo] + points[lo..];
    EncodeAllAppend(c, points[..lo], points[lo..]);
    assert points[lo..] == points[lo..hi] + points[hi..];
    EncodeAllAppend(c, points[lo..hi], points[hi..]);
    hide EncodeAll;
    ghost var middle := EncodeAll(c, points[lo..hi]);
    assert pre + (middle + post) == pre + middle + post;
    r := ReadPoints(c, p, bytes, lo * c.size, hi - lo, pre, points[lo..hi], post);
  }

  method SerializedLength(c: PointCode, p: nat, bytes: Bytes, ghost points: seq<nat>) returns (n: nat)
    requires c.Valid(p) && AllIn(p, points) && bytes == EncodeAll(c, points)
    ensures n == |points|
  {
    EncodeAllSize(c, p, points);
    DivUnique(|bytes|, c.size, |points|, 0);
    n := |bytes| / c.size;
  }

  /** Compares two serialized queries batch by batch. */
  method CheckUnchangedVec(c: PointCode, p: nat, before: Bytes, after: Bytes, batch: nat, what: Invariant,
                           ghost a: seq<nat>, ghost b: seq<nat>)
    returns (r: Verdict<()>)
    requires c.Valid(p) && 0 < batch && AllIn(p, a) && AllIn(p, b) && before == EncodeAll(c, a) && after == EncodeAll(c, b)
    ensures r == SameVector(a, b, what)
  {
    hide EncodeAll, AllIn;
    var n := SerializedLength(c, p, before, a);
    var m := SerializedLength(c, p, after, b);
    if n != m { return Rejected(BrokenInvariant(what)); }
    var done := 0;
    while done < n
      invariant done <= n && a[..done] == b[..done]
    {
      var next := Min(n, done + batch);
      var left := ReadBatch(c, p, before, done, next, a);
      var right := ReadBatch(c, p, after, done, next, b);
      if left != right {
        assert a != b;
        return Rejected(BrokenInvariant(what));
      }
      assert a[..next] == a[..done] + a[done..next] && b[..next] == b[..done] + b[done..next];
      done := next;
    }
    assert a == a[..n] && b == b[..n];
    return Accepted(());
  }

  /** How wide the windows and how large the thread chunks are, depending on the number of bases. */
  datatype Tuning = Tuning(bits: nat, window: nat -> nat, chunk: nat -> nat) {
    ghost predicate Valid(p: nat) {
      p <= Pow2(bits) && (forall n :: 0 < window(n) < 64) && forall n :: 0 < chunk(n)
    }
  }

  method CheckBatch(code: PointCode, p: nat, before: Bytes, after: Bytes, c: G2, d: G2, batch: nat, draw: seq<Scalar>,
                    i: nat, size: nat, tuning: Tuning, ghost a: seq<G1>, ghost b: seq<G1>)
    returns (ok: bool)
    requires code.Valid(p) && tuning.Valid(p) && 0 < p && AllIn(p, a) && AllIn(p, b) && |a| == |b|
    requires before == EncodeAll(code, a) && after == EncodeAll(code, b)
    requires DrawFits(p, draw, |a|, batch, i) && size == |draw|
    ensures ok <==> BatchPasses(p, a, b, c, d, batch, draw, i)
  {
    var lo := Low(batch, i);
    var hi := lo + size;
    assert hi == High(|a|, batch, i) <= |a|;
    hide Low, High, EncodeAll, Pow2;
    var left := ReadBatch(code, p, before, lo, hi, a);
    var right := ReadBatch(code, p, after, lo, hi, b);
    assert Fit(draw, tuning.bits);
    var s, sx := MergePairs(p, left, right, draw, tuning.bits, tuning.window(size), tuning.chunk(size));
    ok := SameRatio(p, s, sx, c, d);
  }

  /** Ratio-checks two serialized queries batch by batch, with a smaller last batch for the leftovers. */
  method CheckRatio(code: PointCode, p: nat, before: Bytes, after: Bytes, c: G2, d: G2, batch: nat, draws: Draws, which: Check,
                    tuning: Tuning, ghost a: seq<G1>, ghost b: seq<G1>)
    returns (r: Verdict<()>)
    requires code.Valid(p) && tuning.Valid(p) && 0 < p && 0 < batch && AllIn(p, a) && AllIn(p, b)
    requires before == EncodeAll(code, a) && after == EncodeAll(code, b) && DrawsFit(p, draws, which, |a|, batch)
    ensures r == RatioVerdict(p, a, b, c, d, batch, draws, which)
  {
    hide EncodeAll, AllIn, BatchPasses, Low, High, DrawFits;
    var n := SerializedLength(code, p, before, a);
    var m := SerializedLength(code, p, after, b);
    if n != m { return Rejected(InvalidLength); }
    ChunkCount(n, batch);
    var iters, leftovers := n / batch, n % batch;
    for i := 0 to iters
      invariant forall k: nat :: k < i ==> BatchPasses(p, a, b, c, d, batch, draws(which, k), k)
    {
      FullDraw(p, draws(which, i), n, batch, i);
      var ok := CheckBatch(code, p, before, after, c, d, batch, draws(which, i), i, batch, tuning, a, b);
      if !ok { return Rejected(InvalidRatio(which)); }
    }
    if leftovers > 0 {
      LastDraw(p, draws(which, iters), n, batch);
      var ok := CheckBatch(code, p, before, after, c, d, batch, draws(which, iters), iters, leftovers, tuning, a, b);
      if !ok { return Rejected(InvalidRatio(which)); }
    }
    return Accepted(());
  }

  lemma FullDraw(p: nat, draw: seq<Scalar>, n: nat, batch: nat, i: nat)
    requires 0 < batch && DrawFits(p, draw, n, batch, i) && i < n / batch
    ensures |draw| == batch
  {
    ChunkCount(n, batch);
  }

  lemma LastDraw(p: nat, draw: seq<Scalar>, n: nat, batch: nat)
    requires 0 < batch && n % batch > 0 && DrawFits(p, draw, n, batch, n / batch)
    ensures |draw| == n % batch
  {
    ChunkCount(n, batch);
  }

  /** The bytes of a vector, without its length, and the position behind it. */
  method SliceVec(c: PointCode, p: nat, buffer: Bytes, at: nat, ghost segs: seq<Bytes>, ghost i: nat, ghost points: seq<nat>)
    returns (bytes: Bytes, next: nat)
    requires c.Valid(p) && buffer == Concat(segs) && VectorAt(c, p, segs, i, points) && at == Offset(segs, i)
    ensures bytes == EncodeAll(c, points) && next == at + 8 + |bytes| == Offset(segs, i + 2)
  {
    hide Capacity, LittleEndian;
    var len := ReadLength(buffer, at, segs, i, |points|);
    EncodeAllSize(c, p, points);
    bytes := ReadSegment(buffer, at + 8, len * c.size, segs, i + 1);
    next := at + 8 + len * c.size;
  }

  datatype Slices = Slices(a: Bytes, b1: Bytes, b2: Bytes, h: Bytes, l: Bytes)

  ghost predicate SlicesOf(f: Format, key: ProvingKey, s: Slices) {
    && s.a == EncodeAll(f.g1, key.aQuery) && s.b1 == EncodeAll(f.g1, key.bG1Query) && s.b2 == EncodeAll(f.g2, key.bG2Query)
    && s.h == EncodeAll(f.g1, key.hQuery) && s.l == EncodeAll(f.g1, key.lQuery)
  }

  function Span(s: Slices): nat { 40 + |s.a| + |s.b1| + |s.b2| + |s.h| + |s.l| }

  method SplitTranscript(f: Format, p: nat, buffer: Bytes, at: nat, ghost m: Params, ghost segs: seq<Bytes>) returns (s: Slices)
    requires Holds(f, p, m, segs) && buffer == Concat(segs) && at == Offset(segs, 8)
    ensures SlicesOf(f, m.key, s) && at + Span(s) == Offset(segs, 18)
  {
    QuerySegments(f, p, m, segs);
    hide Holds, Concat, Offset, VectorAt, EncodeAll;
    var a, next := SliceVec(f.g1, p, buffer, at, segs, 8, m.key.aQuery);
    var b1, b2, h, l;
    b1, next := SliceVec(f.g1, p, buffer, next, segs, 10, m.key.bG1Query);
    b2, next := SliceVec(f.g2, p, buffer, next, segs, 12, m.key.bG2Query);
    h, next := SliceVec(f.g1, p, buffer, next, segs, 14, m.key.hQuery);
    l, next := SliceVec(f.g1, p, buffer, next, segs, 16, m.key.lQuery);
    s := Slices(a, b1, b2, h, l);
  }

  method ReadBetaG1(f: Format, p: nat, buffer: Bytes, at: nat, ghost m: Params, ghost segs: seq<Bytes>) returns (r: G1)
    requires Holds(f, p, m, segs) && buffer == Concat(segs) && at == Offset(segs, 6)
    ensures r == m.key.betaG1 && at + f.g1.size == Offset(segs, 7) && at + 2 * f.g1.size == Offset(segs, 8)
  {
    HeaderSegments(f, p, m, segs);
    hide Holds, Concat, Offset, VectorAt;
    OffsetStep(segs, 7);
    r := ReadPoint(f.g1, p, buffer, at, segs, 6, m.key.betaG1);
  }

  method CheckHeader(beforeVk: VerifyingKey, beforeBeta: G1, afterVk: VerifyingKey, afterBeta: G1,
                     ghost before: ProvingKey, ghost after: ProvingKey)
    returns (r: Verdict<()>)
    requires beforeVk == before.vk && beforeBeta == before.betaG1 && afterVk == after.vk && afterBeta == after.betaG1
    ensures r == HeaderVerdict(before, after)
  {
    if beforeVk.alphaG1 != afterVk.alphaG1 { return Rejected(BrokenInvariant(AlphaG1)); }
    if beforeBeta != afterBeta { return Rejected(BrokenInvariant(BetaG1)); }
    if beforeVk.betaG2 != afterVk.betaG2 { return Rejected(BrokenInvariant(BetaG2)); }
    if beforeVk.gammaG2 != afterVk.gammaG2 { return Rejected(BrokenInvariant(GammaG2)); }
    r := CheckVector(beforeVk.gammaAbcG1, afterVk.gammaAbcG1, GammaAbcG1);
  }

  /** The five query checks; a later one runs as well, but the first failure is what is reported. */
  method CheckQueries(f: Format, p: nat, s: Slices, t: Slices, c: G2, d: G2, batch: nat, draws: Draws, tuning: Tuning,
                      ghost before: ProvingKey, ghost after: ProvingKey)
    returns (r: Verdict<()>)
    requires f.Valid(p) && tuning.Valid(p) && 0 < p && 0 < batch && VectorsIn(p, before) && VectorsIn(p, after)
    requires SlicesOf(f, before, s) && SlicesOf(f, after, t) && c == after.vk.deltaG2 && d == before.vk.deltaG2
    requires DrawsFit(p, draws, HQuery, |before.hQuery|, batch) && DrawsFit(p, draws, LQuery, |before.lQuery|, batch)
    ensures r == QueriesVerdict(p, before, after, batch, draws)
  {
    hide EncodeAll, AllIn, DrawsFit, RatioVerdict, SameVector;
    var a := CheckUnchangedVec(f.g1, p, s.a, t.a, batch, AlphaG1Query, before.aQuery, after.aQuery);
    var b1 := CheckUnchangedVec(f.g1, p, s.b1, t.b1, batch, BetaG1Query, before.bG1Query, after.bG1Query);
    var b2 := CheckUnchangedVec(f.g2, p, s.b2, t.b2, batch, BetaG2Query, before.bG2Query, after.bG2Query);
    var h := CheckRatio(f.g1, p, s.h, t.h, c, d, batch, draws, HQuery, tuning, before.hQuery, after.hQuery);
    var l := CheckRatio(f.g1, p, s.l, t.l, c, d, batch, draws, LQuery, tuning, before.lQuery, after.lQuery);
    if !a.Accepted? { return a; }
    if !b1.Accepted? { return b1; }
    if !b2.Accepted? { return b2; }
    if !h.Accepted? { return h; }
    return l;
  }

  /** The position behind the queries is the same in both buffers once the lengths agree. */
  lemma SamePosition(f: Format, p: nat, before: Params, after: Params, s: Slices, t: Slices,
                     segs: seq<Bytes>, segs': seq<Bytes>, batch: nat, draws: Draws)
    requires Holds(f, p, before, segs) && Holds(f, p, after, segs') && SlicesOf(f, before.key, s) && SlicesOf(f, after.key, t)
    requires 0 < p && 0 < batch
    requires DrawsFit(p, draws, HQuery, |before.key.hQuery|, batch) && DrawsFit(p, draws, LQuery, |before.key.lQuery|, batch)
    requires HeaderVerdict(before.key, after.key).Accepted? && QueriesVerdict(p, before.key, after.key, batch, draws).Accepted?
    ensures Span(s) == Span(t) && Offset(segs, 8) == Offset(segs', 8)
  {
    assert |before.key.hQuery| == |after.key.hQuery| && |before.key.lQuery| == |after.key.lQuery| by {
      hide DrawsFit, BatchesPass;
    }
    assert before.key.aQuery == after.key.aQuery && before.key.bG1Query == after.key.bG1Query
        && before.key.bG2Query == after.key.bG2Query by {
      hide DrawsFit, RatioVerdict;
    }
    hide QueriesVerdict, DrawsFit;
    QuerySegments(f, p, before, segs);
    QuerySegments(f, p, after, segs');
    EncodeAllSize(f.g1, p, before.key.hQuery);
    EncodeAllSize(f.g1, p, after.key.hQuery);
    EncodeAllSize(f.g1, p, before.key.lQuery);
    EncodeAllSize(f.g1, p, after.key.lQuery);
    hide EncodeAll, AllIn, Concat, Offset, VectorAt;
    HeaderSpan(f, p, before, segs);
    HeaderSpan(f, p, after, segs');
  }

  lemma HeaderSpan(f: Format, p: nat, m: Params, segs: seq<Bytes>)
    requires Holds(f, p, m, segs)
    ensures Offset(segs, 8) == 3 * f.g1.size + 3 * f.g2.size + 8 + |m.key.vk.gammaAbcG1| * f.g1.size
  {
    HeaderSegments(f, p, m, segs);
    EncodeAllSize(f.g1, p, m.key.vk.gammaAbcG1);
    assert Offset(segs, 0) == 0;
    hide Holds, Concat, Offset, Capacity, LittleEndian, EncodeAll, AllIn;
    OffsetStep(segs, 0);
    OffsetStep(segs, 1);
    OffsetStep(segs, 2);
    OffsetStep(segs, 3);
    OffsetStep(segs, 4);
    OffsetStep(segs, 5);
    OffsetStep(segs, 6);
    OffsetStep(segs, 7);
  }

  /** The checks on both transcripts, once the bytes are read. */
  method CheckKeys(suite: Suite, beforeHash: Hash, afterHash: Hash, beforeKeys: Option<seq<PublicKey>>,
                   afterKeys: Option<seq<PublicKey>>, deltaG1: G1, deltaG2: G2, ghost before: Params, ghost after: Params)
    returns (r: Verdict<seq<Hash>>)
    requires suite.Valid() && beforeHash == before.csHash && afterHash == after.csHash
    requires beforeKeys == if AllReadable(before.contributions) then Some(before.contributions) else None
    requires afterKeys == if AllReadable(after.contributions) then Some(after.contributions) else None
    requires deltaG1 == after.key.deltaG1 && deltaG2 == after.key.vk.deltaG2
    ensures r == KeysVerdict(suite, before, after)
  {
    hide AllReadable, SameRatio;
    if beforeHash != afterHash { return Rejected(BrokenInvariant(CsHash)); }
    if beforeKeys.None? || afterKeys.None? { return Rejected(UnreadableKey); }
    var n := |afterKeys.value|;
    if |beforeKeys.value| > n { return Panicked; }
    if beforeKeys.value != afterKeys.value[..|beforeKeys.value|] { return Rejected(BrokenInvariant(Contributions)); }
    if n == 0 { return Rejected(NoContributions); }
    var key := afterKeys.value[n - 1];
    if key.deltaAfter != deltaG1 { return Rejected(BrokenInvariant(DeltaG1)); }
    if !SameRatio(suite.p, 1, key.deltaAfter, 1, deltaG2) { return Rejected(InvalidRatio(DeltaInG2)); }
    r := VerifyTranscript(suite, beforeHash, afterKeys.value);
  }

  /** Verifies one serialized version against another, reading the large vectors in batches. */
  method VerifyBuffers(suite: Suite, f: Format, beforeBytes: Bytes, afterBytes: Bytes, batch: nat, draws: Draws, tuning: Tuning,
                       ghost before: Params, ghost after: Params, ghost rest: Bytes, ghost rest': Bytes)
    returns (r: Verdict<seq<Hash>>)
    requires suite.Valid() && f.Valid(suite.p) && tuning.Valid(suite.p) && 0 < batch
    requires Serializable(suite.p, before) && Serializable(suite.p, after)
    requires beforeBytes == Encode(f, before) + rest && afterBytes == Encode(f, after) + rest'
    requires DrawsFit(suite.p, draws, HQuery, |before.key.hQuery|, batch)
    requires DrawsFit(suite.p, draws, LQuery, |before.key.lQuery|, batch)
    ensures r == BatchedVerdict(suite, before, after, batch, draws)
  {
    assert 0 < suite.p;
    hide Encode, Holds, Concat, Offset, Segments, DrawsFit, Prime, AllIn, Serializable, HeaderVerdict, QueriesVerdict, KeysVerdict;
    ghost var segs, segs' := Segments(f, before) + [[], rest], Segments(f, after) + [[], rest'];
    assert Encode(f, before) + [] + rest == beforeBytes && Encode(f, after) + [] + rest' == afterBytes;
    EncodedHolds(f, suite.p, before, [], rest);
    EncodedHolds(f, suite.p, after, [], rest');
    var vk, at := ReadVk(f, suite.p, beforeBytes, before, segs);
    var beta := ReadBetaG1(f, suite.p, beforeBytes, at, before, segs);
    at := at + 2 * f.g1.size;
    var vk', deltaG1, at' := ReadHeader(f, suite.p, afterBytes, after, segs');
    var beta' := ReadBetaG1(f, suite.p, afterBytes, at' - 2 * f.g1.size, after, segs') by {
      BetaPosition(f, suite.p, after, segs');
    }
    var header := CheckHeader(vk, beta, vk', beta', before.key, after.key);
    var queries, pos := VerifyQueries(f, suite.p, beforeBytes, afterBytes, at, at', vk'.deltaG2, vk.deltaG2, batch, draws, tuning,
                                      before, after, segs, segs');
    if header.Rejected? { return Rejected(header.reason); }
    if header.Panicked? { return Panicked; }
    if queries.Rejected? { return Rejected(queries.reason); }
    if queries.Panicked? { return Panicked; }
    var csHash, keys := ReadTranscript(f, suite.p, beforeBytes, pos, before, segs);
    var csHash', keys' := ReadTranscript(f, suite.p, afterBytes, pos, after, segs');
    r := CheckKeys(suite, csHash, csHash', keys, keys', deltaG1, vk'.deltaG2, before, after);
  }

  lemma BetaPosition(f: Format, p: nat, m: Params, segs: seq<Bytes>)
    requires Holds(f, p, m, segs)
    ensures Offset(segs, 8) == Offset(segs, 6) + 2 * f.g1.size
  {
    HeaderSegments(f, p, m, segs);
    hide Concat, Offset, Holds;
    OffsetStep(segs, 6);
    OffsetStep(segs, 7);
  }

  /** Splits both buffers, runs the query checks, and computes the position behind the queries. */
  method VerifyQueries(f: Format, p: nat, beforeBytes: Bytes, afterBytes: Bytes, at: nat, at': nat, c: G2, d: G2,
                       batch: nat, draws: Draws, tuning: Tuning,
                       ghost before: Params, ghost after: Params, ghost segs: seq<Bytes>, ghost segs': seq<Bytes>)
    returns (r: Verdict<()>, pos: nat)
    requires tuning.Valid(p) && 0 < p && 0 < batch && Holds(f, p, before, segs) && Holds(f, p, after, segs')
    requires beforeBytes == Concat(segs) && afterBytes == Concat(segs') && at == Offset(segs, 8) && at' == Offset(segs', 8)
    requires c == after.key.vk.deltaG2 && d == before.key.vk.deltaG2
    requires DrawsFit(p, draws, HQuery, |before.key.hQuery|, batch) && DrawsFit(p, draws, LQuery, |before.key.lQuery|, batch)
    ensures r == QueriesVerdict(p, before.key, after.key, batch, draws)
    ensures HeaderVerdict(before.key, after.key).Accepted? && r.Accepted? ==> pos == Offset(segs, 18) == Offset(segs', 18)
  {
    assert f.Valid(p) && VectorsIn(p, before.key) && VectorsIn(p, after.key);
    hide Concat, Offset, Holds, DrawsFit, SlicesOf, Span, HeaderVerdict, QueriesVerdict, VectorsIn;
    var s := SplitTranscript(f, p, beforeBytes, at, before, segs);
    var t := SplitTranscript(f, p, afterBytes, at', after, segs');
    pos := at' + Span(s);
    r := CheckQueries(f, p, s, t, c, d, batch, draws, tuning, before.key, after.key);
    if HeaderVerdict(before.key, after.key).Accepted? && r.Accepted? {
      SamePosition(f, p, before, after, s, t, segs, segs', batch, draws);
    }
  }
}
