/**
  The hash chain of the ceremony. A response is accepted only if it starts with the hash of the
  challenge before it, a new challenge only if it starts with the hash of the response before it,
  and the last challenge of a round is the first of the next: the accepted files of each chunk form
  one unbroken chain across all rounds.
 */
module HashChain {
  import opened Wrappers
  import opened Tasks
  import opened Participants
  import opened Ceremony
  import opened Phase2
  import opened Codec
  import opened Stores

  // ----- the invariant

  /** Both links of contribution `i`, the second once it is verified. */
  ghost predicate ContributionLinked(hash: Bytes -> Hash, t: Store, r: nat, c: nat, i: nat)
    requires 1 <= i && r in t.rounds && c < |t.rounds[r].chunks|
  {
    var response := Locator(r, c, i, false);
    && Linked(hash, t.files, Locator(r, c, i - 1, true), response)
    && (t.rounds[r].chunks[c].Verified(i) ==>
          Linked(hash, t.files, response, NextChallenge(r, c, i, |t.rounds[r].contributors|)))
  }

  ghost predicate RoundLinked(hash: Bytes -> Hash, t: Store, r: nat, c: nat)
    requires r in t.rounds && c < |t.rounds[r].chunks|
  {
    forall i :: 1 <= i < |t.rounds[r].chunks[c].verified| ==> ContributionLinked(hash, t, r, c, i)
  }

  /** Every accepted contribution is linked. */
  ghost predicate Chained(hash: Bytes -> Hash, t: Store, chunks: nat) {
    && Orderly(t, chunks)
    && forall r: nat, c: nat :: 1 <= r <= t.height && c < chunks ==> RoundLinked(hash, t, r, c)
  }

  /** Files that are part of the transcript: challenges in use and accepted responses. */
  ghost predicate InTranscript(t: Store, file: Locator) {
    var r, c, i := file.round, file.chunk, file.contribution;
    || (&& r in t.rounds && c < |t.rounds[r].chunks| && i < |t.rounds[r].chunks[c].verified|
        && (if file.verified then t.rounds[r].chunks[c].verified[i] else 1 <= i))
    || (&& file.verified && i == 0 && r >= 1 && r - 1 in t.rounds && c < |t.rounds[r - 1].chunks|
        && t.rounds[r - 1].chunks[c].Verified(|t.rounds[r - 1].contributors|))
  }

  // ----- every operation keeps the chain

  /** The files of the transcript are as they were. */
  ghost predicate KeepsTranscript(t: Store, files: map<Locator, Bytes>) {
    forall f :: InTranscript(t, f) && f in t.files ==> f in files && files[f] == t.files[f]
  }

  lemma FilesChained(hash: Bytes -> Hash, t: Store, chunks: nat, files: map<Locator, Bytes>)
    requires Chained(hash, t, chunks) && KeepsTranscript(t, files)
    ensures Chained(hash, t.(files := files), chunks)
  {
    var t' := t.(files := files);
    FilesOrderly(t, chunks, files);
    forall r: nat, c: nat | 1 <= r <= t.height && c < chunks ensures RoundLinked(hash, t', r, c) {
      assert RoundLinked(hash, t, r, c);
      var chunk := t.rounds[r].chunks[c];
      forall i | 1 <= i < |chunk.verified| ensures ContributionLinked(hash, t', r, c, i) {
        assert ContributionLinked(hash, t, r, c, i);
        assert Sequential(t.rounds[r], chunk);
        assert InTranscript(t, Locator(r, c, i, false)) && InTranscript(t, Locator(r, c, i - 1, true));
        if chunk.Verified(i) {
          assert InTranscript(t, NextChallenge(r, c, i, |t.rounds[r].contributors|));
        }
      }
    }
  }

  lemma SameLinks(hash: Bytes -> Hash, t: Store, t': Store, r: nat, c: nat)
    requires r in t.rounds && c < |t.rounds[r].chunks| && RoundLinked(hash, t, r, c)
    requires r in t'.rounds && c < |t'.rounds[r].chunks| && t'.files == t.files
    requires t'.rounds[r].chunks[c].verified == t.rounds[r].chunks[c].verified
    requires t'.rounds[r].contributors == t.rounds[r].contributors
    ensures RoundLinked(hash, t', r, c)
  {
    forall i | 1 <= i < |t'.rounds[r].chunks[c].verified| ensures ContributionLinked(hash, t', r, c, i) {
      assert ContributionLinked(hash, t, r, c, i);
    }
  }

  /** A change to one chunk of the current round, with its own contributions linked, keeps the chain. */
  lemma ChunkChained(hash: Bytes -> Hash, t: Store, chunks: nat, c: nat, chunk: Chunk)
    requires Chained(hash, t, chunks) && c < chunks && Orderly(WithChunk(t, c, chunk), chunks)
    requires t.height >= 1 ==> RoundLinked(hash, WithChunk(t, c, chunk), t.height, c)
    ensures Chained(hash, WithChunk(t, c, chunk), chunks)
  {
    var t' := WithChunk(t, c, chunk);
    forall r: nat, d: nat | 1 <= r <= t.height && d < chunks ensures RoundLinked(hash, t', r, d) {
      if r != t.height || d != c {
        assert RoundLinked(hash, t, r, d);
        SameLinks(hash, t, t', r, d);
      }
    }
  }

  lemma LockChained(env: Environment, hash: Bytes -> Hash, t: Store, chunks: nat, c: nat, p: Participant, blank: Bytes)
    requires Chained(hash, t, chunks)
    ensures Chained(hash, WithLock(env, t, c, p, blank), chunks)
  {
    if CanLock(env, t, c, p) {
      var chunk := t.rounds[t.height].chunks[c].(holder := Some(p));
      var t1 := WithChunk(t, c, chunk);
      AggregatedChunk(t, chunks, c);
      ChunkOrderly(t, chunks, c, chunk);
      if t.height >= 1 {
        assert RoundLinked(hash, t, t.height, c);
        SameLinks(hash, t, t1, t.height, c);
      }
      ChunkChained(hash, t, chunks, c, chunk);
      var files := t.files[Locator(t.height, c, |chunk.verified|, false) := blank];
      assert KeepsTranscript(t1, files);
      FilesChained(hash, t1, chunks, files);
    }
  }

  /** The contributions up to the newest keep their links when one is added or verified. */
  lemma ExtendLinks(hash: Bytes -> Hash, t: Store, c: nat, chunk: Chunk, k: nat)
    requires t.HasChunk(c) && RoundLinked(hash, t, t.height, c)
    requires var was := t.rounds[t.height].chunks[c].verified;
      && k < |chunk.verified| <= |was| + 1 && k <= |was|
      && forall i :: 0 <= i < |chunk.verified| && i != k ==> i < |was| && chunk.verified[i] == was[i]
    requires 1 <= k ==> ContributionLinked(hash, WithChunk(t, c, chunk), t.height, c, k)
    ensures RoundLinked(hash, WithChunk(t, c, chunk), t.height, c)
  {
    var t' := WithChunk(t, c, chunk);
    forall i | 1 <= i < |chunk.verified| ensures ContributionLinked(hash, t', t.height, c, i) {
      var now := chunk.verified[i];
      if i != k {
        assert ContributionLinked(hash, t, t.height, c, i);
      }
    }
  }

  lemma ResponseChained(hash: Bytes -> Hash, t: Store, chunks: nat, c: nat, p: Participant, signed: bool)
    requires Chained(hash, t, chunks)
    ensures Chained(hash, WithResponse(hash, t, c, p, signed), chunks)
  {
    ResponseOrderly(hash, t, chunks, c, p, signed);
    if CanContribute(hash, t, c, p, signed) {
      var was := t.rounds[t.height].chunks[c];
      var chunk := Chunk(None, was.verified + [false], was.makers + [p]);
      if t.height >= 1 {
        assert RoundLinked(hash, t, t.height, c);
        ExtendLinks(hash, t, c, chunk, |was.verified|);
      }
      ChunkChained(hash, t, chunks, c, chunk);
    }
  }

  lemma ChallengeChained(hash: Bytes -> Hash, t: Store, chunks: nat, task: Task, p: Participant, signed: bool)
    requires Chained(hash, t, chunks)
    ensures Chained(hash, WithChallenge(hash, t, task, p, signed), chunks)
  {
    ChallengeOrderly(hash, t, chunks, task, p, signed);
    if CanVerify(hash, t, task, p, signed) {
      var was, c := t.rounds[t.height].chunks[task.chunk], task.chunk;
      var chunk := was.(holder := None, verified := was.verified[task.contribution := true]);
      if t.height >= 1 {
        assert RoundLinked(hash, t, t.height, c);
        ExtendLinks(hash, t, c, chunk, task.contribution);
      }
      ChunkChained(hash, t, chunks, c, chunk);
    }
  }

  lemma AggregateChained(hash: Bytes -> Hash, t: Store, chunks: nat, succeeds: bool)
    requires Chained(hash, t, chunks)
    ensures Chained(hash, WithAggregate(t, succeeds), chunks)
  {
    AggregateOrderly(t, chunks, succeeds);
    var t' := WithAggregate(t, succeeds);
    forall r: nat, c: nat | 1 <= r <= t.height && c < chunks ensures RoundLinked(hash, t', r, c) {
      assert RoundLinked(hash, t, r, c);
      SameLinks(hash, t, t', r, c);
    }
  }

  lemma AdvanceChained(env: Environment, hash: Bytes -> Hash, t: Store, contributors: seq<Participant>)
    requires Chained(hash, t, env.chunks)
    ensures Chained(hash, WithNextRound(env, t, contributors), env.chunks)
  {
    AdvanceOrderly(env, t, contributors);
    var t' := WithNextRound(env, t, contributors);
    forall r: nat, c: nat | 1 <= r <= t'.height && c < env.chunks ensures RoundLinked(hash, t', r, c) {
      if r <= t.height {
        assert RoundLinked(hash, t, r, c);
        SameLinks(hash, t, t', r, c);
      }
    }
  }

  /** A rollback leaves the chain up to the first challenges of the round it takes back. */
  lemma RollbackChained(hash: Bytes -> Hash, t: Store, chunks: nat, removed: seq<Participant>)
    requires Chained(hash, t, chunks) && 0 < t.height
    ensures Chained(hash, WithReset(t, ResetAction(removed, true)).0, chunks)
  {
    var t' := WithReset(t, ResetAction(removed, true)).0;
    ResetOrderly(t, chunks, ResetAction(removed, true));
    forall r: nat, c: nat | 1 <= r <= t'.height && c < chunks ensures RoundLinked(hash, t', r, c) {
      assert RoundLinked(hash, t, r, c);
      forall i | 1 <= i < |t'.rounds[r].chunks[c].verified| ensures ContributionLinked(hash, t', r, c, i) {
        assert ContributionLinked(hash, t, r, c, i);
      }
    }
  }

  // ----- runs

  datatype Op =
    | Upload(file: Locator, content: Bytes)
    | Erase(file: Locator)
    | Lock(chunk: nat, p: Participant, blank: Bytes)
    | Contribute(chunk: nat, p: Participant, signed: bool)
    | Verify(task: Task, p: Participant, signed: bool)
    | Aggregate(succeeds: bool)
    | Advance(contributors: seq<Participant>)
    | RollBack(removed: seq<Participant>)

  function Apply(env: Environment, hash: Bytes -> Hash, t: Store, op: Op): Store {
    match op
    case Upload(file, content) => t.(files := t.files[file := content])
    case Erase(file) => Erased(t, file)
    case Lock(chunk, p, blank) => WithLock(env, t, chunk, p, blank)
    case Contribute(chunk, p, signed) => WithResponse(hash, t, chunk, p, signed)
    case Verify(task, p, signed) => WithChallenge(hash, t, task, p, signed)
    case Aggregate(succeeds) => WithAggregate(t, succeeds)
    case Advance(contributors) => WithNextRound(env, t, contributors)
    case RollBack(removed) => if t.height == 0 then t else WithReset(t, ResetAction(removed, true)).0
  }

  /** Accepted files are neither rewritten nor erased. */
  ghost predicate Honest(t: Store, op: Op) {
    && (op.Upload? ==> !InTranscript(t, op.file))
    && (op.Erase? ==> !InTranscript(t, op.file))
  }

  lemma StepChained(env: Environment, hash: Bytes -> Hash, t: Store, op: Op)
    requires Chained(hash, t, env.chunks) && Honest(t, op)
    ensures Chained(hash, Apply(env, hash, t, op), env.chunks)
  {
    hide Chained;
    match op
    case Upload(file, content) => FilesChained(hash, t, env.chunks, t.files[file := content]);
    case Erase(file) => FilesChained(hash, t, env.chunks, t.files - {file});
    case Lock(chunk, p, blank) => LockChained(env, hash, t, env.chunks, chunk, p, blank);
    case Contribute(chunk, p, signed) => ResponseChained(hash, t, env.chunks, chunk, p, signed);
    case Verify(task, p, signed) => ChallengeChained(hash, t, env.chunks, task, p, signed);
    case Aggregate(succeeds) => AggregateChained(hash, t, env.chunks, succeeds);
    case Advance(contributors) => AdvanceChained(env, hash, t, contributors);
    case RollBack(removed) =>
      if t.height > 0 {
        RollbackChained(hash, t, env.chunks, removed);
      }
  }

  /** A run from initialization, without drops, in which accepted files stay as they are. */
  ghost predicate Run(env: Environment, hash: Bytes -> Hash, stores: seq<Store>, ops: seq<Op>) {
    && |stores| == |ops| + 1
    && Initial(stores[0], env.chunks)
    && forall i :: 0 <= i < |ops| ==> Honest(stores[i], ops[i]) && stores[i + 1] == Apply(env, hash, stores[i], ops[i])
  }

  lemma {:induction false} RunChained(env: Environment, hash: Bytes -> Hash, stores: seq<Store>, ops: seq<Op>, i: nat)
    requires Run(env, hash, stores, ops) && i < |stores|
    ensures Chained(hash, stores[i], env.chunks)
  {
    if i > 0 {
      RunChained(env, hash, stores, ops, i - 1);
      StepChained(env, hash, stores[i - 1], ops[i - 1]);
    }
  }

  /** The files of the first `k` contributions of a round: each response and the challenge after it. */
  ghost function RoundFiles(r: nat, c: nat, n: nat, k: nat): seq<Locator> {
    if k == 0 then [] else RoundFiles(r, c, n, k - 1) + [Locator(r, c, k, false), NextChallenge(r, c, k, n)]
  }

  /** All files of a chunk from the first challenge of round 1 to the first challenge of round `r`. */
  ghost function Files(t: Store, c: nat, r: nat): seq<Locator>
    requires 1 <= r && forall q: nat :: q < r ==> q in t.rounds
  {
    if r == 1 then [Locator(1, c, 0, true)]
    else
      var n := |t.rounds[r - 1].contributors|;
      Files(t, c, r - 1) + RoundFiles(r - 1, c, n, n)
  }

  /** Each file but the first starts with the hash of the one before. */
  ghost predicate Unbroken(hash: Bytes -> Hash, files: map<Locator, Bytes>, chain: seq<Locator>) {
    forall i :: 0 <= i < |chain| - 1 ==> Linked(hash, files, chain[i], chain[i + 1])
  }

  /** The files of a round continue the chain that ends in its first challenge. */
  lemma {:induction false} RoundContinues(hash: Bytes -> Hash, t: Store, chunks: nat, c: nat, r: nat, chain: seq<Locator>, k: nat)
    requires Chained(hash, t, chunks) && c < chunks && 1 <= r <= t.height && k <= |t.rounds[r].contributors|
    requires forall i: nat :: i <= k ==> t.rounds[r].chunks[c].Verified(i)
    requires chain != [] && chain[|chain| - 1] == Locator(r, c, 0, true) && Unbroken(hash, t.files, chain)
    ensures var n := |t.rounds[r].contributors|;
      var longer := chain + RoundFiles(r, c, n, k);
      && Unbroken(hash, t.files, longer)
      && longer[|longer| - 1] == if k == 0 then Locator(r, c, 0, true) else NextChallenge(r, c, k, n)
  {
    var n := |t.rounds[r].contributors|;
    if k == 0 {
      assert chain + [] == chain;
    } else {
      RoundContinues(hash, t, chunks, c, r, chain, k - 1);
      var shorter := chain + RoundFiles(r, c, n, k - 1);
      assert RoundLinked(hash, t, r, c);
      assert t.rounds[r].chunks[c].Verified(k);
      assert ContributionLinked(hash, t, r, c, k);
      assert chain + RoundFiles(r, c, n, k) == shorter + [Locator(r, c, k, false), NextChallenge(r, c, k, n)];
    }
  }

  lemma {:induction false} FilesUnbroken(hash: Bytes -> Hash, t: Store, chunks: nat, c: nat, r: nat)
    requires Chained(hash, t, chunks) && c < chunks && 1 <= r <= t.height
    ensures Unbroken(hash, t.files, Files(t, c, r))
    ensures Files(t, c, r) != [] && Files(t, c, r)[|Files(t, c, r)| - 1] == Locator(r, c, 0, true)
  {
    if r > 1 {
      FilesUnbroken(hash, t, chunks, c, r - 1);
      assert Finished(t, r - 1);
      var n := |t.rounds[r - 1].contributors|;
      assert t.rounds[r - 1].CompleteAt(c);
      assert t.rounds[r - 1].chunks[c].Verified(n);
      RoundContinues(hash, t, chunks, c, r - 1, Files(t, c, r - 1), n);
    }
  }

  /** The newest verified contribution of a chunk in the current round. */
  ghost function Newest(t: Store, c: nat): nat
    requires t.height in t.rounds && c < |t.rounds[t.height].chunks| && 1 <= |t.rounds[t.height].chunks[c].verified|
  {
    var n := |t.rounds[t.height].chunks[c].verified| - 1;
    if t.rounds[t.height].chunks[c].verified[n] || n == 0 then n else n - 1
  }

  /**
    The accepted files of a chunk form one unbroken hash chain: from the first challenge of round
    1, through every response and challenge of every round, to the newest verified contribution
    of the current round; and a response that waits for verification continues it.
   */
  ghost predicate OneChain(hash: Bytes -> Hash, t: Store, c: nat) {
    && (forall q: nat :: q <= t.height ==> q in t.rounds)
    && 1 <= t.height && t.HasChunk(c) && 1 <= |t.rounds[t.height].chunks[c].verified|
    && var n, k := |t.rounds[t.height].contributors|, Newest(t, c);
    && var chain := Files(t, c, t.height) + RoundFiles(t.height, c, n, k);
    && chain != [] && Unbroken(hash, t.files, chain)
    && (k + 1 < |t.rounds[t.height].chunks[c].verified| ==>
          Linked(hash, t.files, chain[|chain| - 1], Locator(t.height, c, k + 1, false)))
  }

  lemma ChainedUnbroken(hash: Bytes -> Hash, t: Store, chunks: nat, c: nat)
    requires Chained(hash, t, chunks) && c < chunks && 1 <= t.height
    ensures OneChain(hash, t, c)
  {
    assert Sequential(t.rounds[t.height], t.rounds[t.height].chunks[c]);
    var n, k := |t.rounds[t.height].contributors|, Newest(t, c);
    FilesUnbroken(hash, t, chunks, c, t.height);
    RoundContinues(hash, t, chunks, c, t.height, Files(t, c, t.height), k);
    if k + 1 < |t.rounds[t.height].chunks[c].verified| {
      assert RoundLinked(hash, t, t.height, c);
      assert ContributionLinked(hash, t, t.height, c, k + 1);
    }
  }

  /** In every run in which accepted files stay as they are, the transcript of every chunk is unbroken. */
  lemma TranscriptUnbroken(env: Environment, hash: Bytes -> Hash, stores: seq<Store>, ops: seq<Op>, i: nat, c: nat)
    requires Run(env, hash, stores, ops) && i < |stores| && c < env.chunks && 1 <= stores[i].height
    ensures OneChain(hash, stores[i], c)
  {
    hide Run, Chained, OneChain;
    RunChained(env, hash, stores, ops, i);
    ChainedUnbroken(hash, stores[i], env.chunks, c);
  }

  // ----- erased challenges

  /** The challenge after the task: what a verification of the task writes, and a refused one may erase. */
  function Discarded(t: Store, task: Task): Locator
    requires t.height in t.rounds
  {
    NextChallenge(t.height, task.chunk, task.contribution, |t.rounds[t.height].contributors|)
  }

  /** The chain runs through the challenge after the task. */
  ghost predicate InUse(t: Store, task: Task)
    requires t.HasChunk(task.chunk)
  {
    var chunk := t.rounds[t.height].chunks[task.chunk];
    if task.contribution == 0 then 1 < t.height || 1 < |chunk.verified| else chunk.Verified(task.contribution)
  }

  /**
    The chain survives the erasure of a challenge exactly when that is not in use: when the task is
    not verified, or, for the initial contribution, when nothing precedes or follows it.
   */
  lemma ErasureKeepsChainIff(hash: Bytes -> Hash, t: Store, chunks: nat, task: Task)
    requires Chained(hash, t, chunks) && 1 <= t.height && task.chunk < chunks && t.HasChunk(task.chunk)
    ensures Chained(hash, Erased(t, Discarded(t, task)), chunks) <==> !InUse(t, task)
  {
    var r, c, k, n := t.height, task.chunk, task.contribution, |t.rounds[t.height].contributors|;
    var t', file := Erased(t, Discarded(t, task)), Discarded(t, task);
    assert Sequential(t.rounds[r], t.rounds[r].chunks[c]);
    if InUse(t, task) {
      UsedBreaks(hash, t, chunks, task);
    } else {
      assert !InTranscript(t, file) || (k == 0 && r == 1);
      if k == 0 && r == 1 {
        FirstErased(hash, t, chunks, c);
      } else {
        FilesChained(hash, t, chunks, t.files - {file});
      }
    }
  }

  lemma UsedBreaks(hash: Bytes -> Hash, t: Store, chunks: nat, task: Task)
    requires Chained(hash, t, chunks) && 1 <= t.height && task.chunk < chunks && t.HasChunk(task.chunk) && InUse(t, task)
    ensures !Chained(hash, Erased(t, Discarded(t, task)), chunks)
  {
    var r, c, k := t.height, task.chunk, task.contribution;
    var t' := Erased(t, Discarded(t, task));
    if 1 <= k {
      assert !ContributionLinked(hash, t', r, c, k);
      assert !RoundLinked(hash, t', r, c);
    } else if 1 < |t.rounds[r].chunks[c].verified| {
      assert !ContributionLinked(hash, t', r, c, 1);
      assert !RoundLinked(hash, t', r, c);
    } else {
      var n := |t.rounds[r - 1].contributors|;
      assert Finished(t, r - 1) && t.rounds[r - 1].CompleteAt(c);
      assert !ContributionLinked(hash, t', r - 1, c, n);
      assert !RoundLinked(hash, t', r - 1, c);
    }
  }

  /** Before any contribution, no link of round 1 needs the first challenge of the chunk. */
  lemma FirstErased(hash: Bytes -> Hash, t: Store, chunks: nat, c: nat)
    requires Chained(hash, t, chunks) && t.height == 1 && c < chunks && |t.rounds[1].chunks[c].verified| == 1
    ensures Chained(hash, Erased(t, Locator(1, c, 0, true)), chunks)
  {
    var t' := Erased(t, Locator(1, c, 0, true));
    FilesOrderly(t, chunks, t'.files);
    forall d: nat | d < chunks ensures RoundLinked(hash, t', 1, d) {
      assert RoundLinked(hash, t, 1, d);
      forall i | 1 <= i < |t.rounds[1].chunks[d].verified| ensures ContributionLinked(hash, t', 1, d, i) {
        assert ContributionLinked(hash, t, 1, d, i);
      }
    }
  }
}
