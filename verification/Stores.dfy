/**
  The ceremony in storage: the rounds with the progress and locks of their chunks, the challenge
  and response files, and the rounds that are aggregated. Every operation maps a store to the store
  it leaves behind; a refusal leaves the store as it is, unless the text says otherwise.
 */
module Stores {
  import opened Wrappers
  import opened Tasks
  import opened Lists
  import opened Participants
  import opened Ceremony
  import opened Phase2
  import opened Codec

  /** The place of a contribution file; a verified one is the challenge for the next contribution. */
  datatype Locator = Locator(round: nat, chunk: nat, contribution: nat, verified: bool)

  /**
    Who holds the lock of a chunk, which of its contributions, the initial one included, are
    verified, and who made them.
   */
  datatype Chunk = Chunk(holder: Option<Participant>, verified: seq<bool>, makers: seq<Participant>) {
    predicate Verified(i: nat) { i < |verified| && verified[i] }

    /** The newest contribution is verified, so that the next one may be made. */
    predicate Open() { verified != [] && verified[|verified| - 1] }
  }

  const NEW_CHUNK := Chunk(None, [true], [])

  datatype Round = Round(contributors: seq<Participant>, chunks: seq<Chunk>) {
    function Expected(): nat { |contributors| + 1 }

    predicate Complete() {
      forall c :: 0 <= c < |chunks| ==> CompleteAt(c)
    }

    predicate CompleteAt(c: nat)
      requires c < |chunks|
    {
      && chunks[c].holder.None?
      && |chunks[c].verified| == Expected()
      && forall i :: 0 <= i < |chunks[c].verified| ==> chunks[c].verified[i]
    }

    /** The chunks that the participant has locked. */
    function LocksOf(p: Participant): set<int> {
      set c | 0 <= c < |chunks| && chunks[c].holder == Some(p)
    }
  }

  datatype Store = Store(height: nat, rounds: map<nat, Round>, files: map<Locator, Bytes>, aggregated: set<nat>) {
    predicate HasChunk(c: nat) { height in rounds && c < |rounds[height].chunks| }
  }

  /** The file that follows verified contribution `i` of `n`: the last one opens the next round. */
  function NextChallenge(round: nat, chunk: nat, i: nat, n: nat): Locator {
    if i == n then Locator(round + 1, chunk, 0, true) else Locator(round, chunk, i, true)
  }

  /** File `b` exists and starts with the hash of file `a`. */
  predicate Linked(hash: Bytes -> Hash, files: map<Locator, Bytes>, a: Locator, b: Locator) {
    a in files && b in files && |files[b]| >= 64 && files[b][..64] == hash(files[a])
  }

  function WithChunk(t: Store, c: nat, chunk: Chunk): Store
    requires t.HasChunk(c)
  {
    var round := t.rounds[t.height];
    t.(rounds := t.rounds[t.height := round.(chunks := round.chunks[c := chunk])])
  }

  // ----- contributions

  /** The contributor may lock the chunk, to make its next contribution. */
  predicate CanLock(env: Environment, t: Store, c: nat, p: Participant) {
    && c <= env.chunks && p.Contributor? && t.HasChunk(c)
    && var round := t.rounds[t.height];
    && var chunk := round.chunks[c];
    && p in round.contributors
    && |round.LocksOf(p)| < env.lockLimit
    && chunk.Open() && |chunk.verified| != round.Expected()
    && Locator(t.height, c, |chunk.verified|, false) !in t.files
    && chunk.holder.None? && p !in chunk.makers
  }

  /** Locks the chunk and puts a blank response file in place. */
  function WithLock(env: Environment, t: Store, c: nat, p: Participant, blank: Bytes): Store {
    if !CanLock(env, t, c, p) then t
    else
      var chunk := t.rounds[t.height].chunks[c];
      WithChunk(t, c, chunk.(holder := Some(p))).(files := t.files[Locator(t.height, c, |chunk.verified|, false) := blank])
  }

  /** The response to the current challenge of the chunk is acceptable. */
  predicate CanContribute(hash: Bytes -> Hash, t: Store, c: nat, p: Participant, signed: bool) {
    && t.HasChunk(c)
    && var round := t.rounds[t.height];
    && var chunk := round.chunks[c];
    && p in round.contributors && chunk.holder == Some(p)
    && chunk.Open() && |chunk.verified| != round.Expected()
    && Linked(hash, t.files, Locator(t.height, c, |chunk.verified| - 1, true), Locator(t.height, c, |chunk.verified|, false))
    && signed
  }

  function WithResponse(hash: Bytes -> Hash, t: Store, c: nat, p: Participant, signed: bool): Store {
    if !CanContribute(hash, t, c, p, signed) then t
    else
      var chunk := t.rounds[t.height].chunks[c];
      WithChunk(t, c, Chunk(None, chunk.verified + [false], chunk.makers + [p]))
  }

  /** The next challenge for the newest response of the chunk is acceptable. */
  predicate CanVerify(hash: Bytes -> Hash, t: Store, task: Task, p: Participant, signed: bool) {
    && p.Verifier? && t.HasChunk(task.chunk)
    && var round, c := t.rounds[t.height], task.chunk;
    && var chunk := round.chunks[c];
    && var id := |chunk.verified| - 1;
    && id == task.contribution && id != 0
    && Linked(hash, t.files, Locator(t.height, c, id - 1, true), Locator(t.height, c, id, false))
    && Linked(hash, t.files, Locator(t.height, c, id, false), NextChallenge(t.height, c, id, |round.contributors|))
    && signed && !chunk.verified[id]
  }

  function WithChallenge(hash: Bytes -> Hash, t: Store, task: Task, p: Participant, signed: bool): Store {
    if !CanVerify(hash, t, task, p, signed) then t
    else
      var chunk := t.rounds[t.height].chunks[task.chunk];
      WithChunk(t, task.chunk, chunk.(holder := None, verified := chunk.verified[task.contribution := true]))
  }

  function Erased(t: Store, file: Locator): Store {
    t.(files := t.files - {file})
  }

  /** Releases the lock of a chunk and erases the response that is not wanted any more. */
  function Disposed(t: Store, task: Task): Store {
    var t1 := Erased(t, Locator(t.height, task.chunk, task.contribution, false));
    if !t1.HasChunk(task.chunk) then t1
    else WithChunk(t1, task.chunk, t1.rounds[t1.height].chunks[task.chunk].(holder := None))
  }

  // ----- rounds

  /** The final response of every chunk, and the challenge after it, are there. */
  predicate FinalFiles(t: Store, round: Round) {
    forall c :: 0 <= c < |round.chunks| ==> FinalPair(t.files, t.height, c, |round.contributors|)
  }

  predicate FinalPair(files: map<Locator, Bytes>, round: nat, chunk: nat, n: nat) {
    Locator(round, chunk, n, false) in files && Locator(round + 1, chunk, 0, true) in files
  }

  /**
    Aggregates the current round, if it is complete and the aggregation itself succeeds. An older
    aggregate is removed first, and stays removed if the new one fails.
   */
  function WithAggregate(t: Store, succeeds: bool): Store {
    if t.height == 0 || t.height !in t.rounds || t.height + 1 in t.rounds then t
    else
      var cleared := t.(aggregated := t.aggregated - {t.height});
      if !FinalFiles(t, t.rounds[t.height]) || !t.rounds[t.height].Complete() || !succeeds then cleared
      else cleared.(aggregated := cleared.aggregated + {t.height})
  }

  function FirstChallenge(round: nat, chunk: nat): Locator { Locator(round, chunk, 0, true) }

  /** The first challenge of every chunk of the round is there. */
  predicate Opened(t: Store, round: nat, chunks: nat) {
    forall c :: 0 <= c < chunks ==> FirstChallenge(round, c) in t.files
  }

  predicate Repeats(contributors: seq<Participant>) {
    exists i, j :: 0 <= i < j < |contributors| && contributors[i] == contributors[j]
  }

  /** The next round may open: the current one is aggregated, unless it is the initial one. */
  predicate CanOpen(env: Environment, t: Store, contributors: seq<Participant>) {
    && contributors != []
    && (t.height != 0 ==> t.height in t.aggregated)
    && t.height + 1 !in t.rounds
    && Opened(t, t.height + 1, env.chunks)
    && env.chunks != 0 && env.coordinatorVerifiers != []
    && !Repeats(contributors) && forall p :: p in contributors ==> p.Contributor?
  }

  function WithNextRound(env: Environment, t: Store, contributors: seq<Participant>): Store {
    if !CanOpen(env, t, contributors) then t
    else t.(height := t.height + 1,
            rounds := t.rounds[t.height + 1 := Round(contributors, seq(env.chunks, _ => NEW_CHUNK))])
  }

  /** The files that a reset of round `height` leaves: those of earlier rounds, and its own first challenges. */
  predicate Survives(file: Locator, height: nat) {
    file.round != height + 1 && (file.round == height ==> file.contribution == 0)
  }

  /** The round from its start, without the contributors that are removed. */
  function Restarted(round: Round, removed: seq<Participant>): Round {
    Round(Filter(round.contributors, (p: Participant) => p !in removed),
          seq(|round.chunks|, i requires 0 <= i < |round.chunks| => NEW_CHUNK))
  }

  /** Clears the current round; with a rollback the round itself goes, too. */
  function WithReset(t: Store, action: ResetAction): (Store, Outcome<()>) {
    if t.height !in t.rounds then (t, Err(RoundDoesNotExist))
    else
      var cleared := t.(rounds := t.rounds[t.height := Restarted(t.rounds[t.height], action.removed)],
                        files := map f | f in t.files && Survives(f, t.height) :: t.files[f],
                        aggregated := t.aggregated - {t.height, t.height + 1});
      if !action.rollback then (cleared, Ok(()))
      else if t.height == 0 then (cleared, Err(RoundHeightIsZero))
      else (cleared.(height := t.height - 1, rounds := cleared.rounds - {t.height}), Ok(()))
  }

  /** Everything from contribution `k` on is gone. */
  function Truncated(chunk: Chunk, k: nat): Chunk {
    if k >= |chunk.verified| then chunk
    else chunk.(verified := chunk.verified[..k], makers := if 1 <= k <= |chunk.makers| then chunk.makers[..k - 1] else chunk.makers)
  }

  /** The lock of the dropped contributor is released, and its contribution removed with all after it. */
  function WithoutWork(chunk: Chunk, c: nat, dropped: Participant, locked: set<nat>, lost: map<nat, nat>): Chunk {
    var free := if c in locked && chunk.holder == Some(dropped) then chunk.(holder := None) else chunk;
    if c in lost then Truncated(free, lost[c]) else free
  }

  /** Files that go with the dropped contributor: of the contributions it was making and of those it had made. */
  predicate Abandoned(t: Store, dropped: Participant, locked: set<nat>, lost: map<nat, nat>, file: Locator) {
    && t.HasChunk(file.chunk)
    && var round := t.rounds[t.height];
    && var chunk := round.chunks[file.chunk];
    && var n := |chunk.verified|;
    || (&& file.chunk in locked && chunk.holder == Some(dropped)
        && (file == Locator(t.height, file.chunk, n, false)
            || (1 < n && chunk.Open() && file == NextChallenge(t.height, file.chunk, n - 1, |round.contributors|))))
    || (&& file.chunk in lost && lost[file.chunk] < n
        && (file == Locator(t.height, file.chunk, lost[file.chunk], false)
            || (chunk.verified[lost[file.chunk]]
                && file == NextChallenge(t.height, file.chunk, lost[file.chunk], |round.contributors|))))
  }

  function Others(contributors: seq<Participant>, dropped: Participant): seq<Participant> {
    Filter(contributors, (p: Participant) => p != dropped)
  }

  /** The round with another contributor in the place of the dropped one. */
  function WithReplacement(t: Store, dropped: Participant, locked: set<nat>, lost: map<nat, nat>, replacement: Participant): Store {
    if t.height !in t.rounds then t
    else
      var round := t.rounds[t.height];
      var chunks := seq(|round.chunks|, c requires 0 <= c < |round.chunks| =>
        WithoutWork(round.chunks[c], c, dropped, locked, lost));
      var contributors := Others(round.contributors, dropped) + [replacement];
      t.(rounds := t.rounds[t.height := Round(contributors, chunks)],
         files := map f | f in t.files && !Abandoned(t, dropped, locked, lost, f) :: t.files[f])
  }

  /** What a drop does in storage: nothing, a replacement, or a reset. */
  function StoredDrop(t: Store, p: Participant, action: DropAction): (Store, Outcome<()>) {
    match action
    case DropQueue => (t, Ok(()))
    case Replace(_, locked, tasks, replacement) => (WithReplacement(t, p, locked, ByChunk(tasks), replacement), Ok(()))
    case Reset(removed, rollback) => WithReset(t, ResetAction(removed, rollback))
  }

  // ----- what every operation keeps

  /** At least the initial contribution, no more than expected, and all but the newest verified. */
  ghost predicate Sequential(round: Round, chunk: Chunk) {
    && 1 <= |chunk.verified| <= round.Expected()
    && forall i :: 0 <= i < |chunk.verified| - 1 || i == 0 ==> chunk.verified[i]
  }

  /** Rounds up to the current one, each with one entry per chunk. */
  ghost predicate Shaped(t: Store, chunks: nat) {
    && (forall r: nat :: r in t.rounds <==> r <= t.height)
    && (forall r :: r in t.rounds ==> |t.rounds[r].chunks| == chunks && (r != 0 <==> t.rounds[r].contributors != []))
    && (forall r, c :: r in t.rounds && 0 <= c < chunks ==> Sequential(t.rounds[r], t.rounds[r].chunks[c]))
  }

  /** Nothing is added to the round any more: all contributions are there and verified, and nobody holds a lock. */
  ghost predicate Finished(t: Store, r: nat) {
    r in t.rounds && t.rounds[r].Complete()
  }

  /** Every round that was left, and every aggregated one, is finished. */
  ghost predicate Orderly(t: Store, chunks: nat) {
    Shaped(t, chunks) && forall r: nat :: 1 <= r < t.height || r in t.aggregated ==> Finished(t, r)
  }

  /** The store after initialization: round 0, with the first challenges in place. */
  ghost predicate Initial(t: Store, chunks: nat) {
    t.height == 0 && t.aggregated == {} && t.rounds == map[0 := Round([], seq(chunks, _ => NEW_CHUNK))]
  }

  /** A change of one chunk of the current round, while that is not aggregated. */
  lemma ChunkOrderly(t: Store, chunks: nat, c: nat, chunk: Chunk)
    requires Orderly(t, chunks) && c < chunks && t.HasChunk(c) && Sequential(t.rounds[t.height], chunk)
    requires t.height !in t.aggregated
    ensures Orderly(WithChunk(t, c, chunk), chunks)
  {
    var t' := WithChunk(t, c, chunk);
    assert Shaped(t', chunks);
    forall r: nat | 1 <= r < t'.height || r in t'.aggregated ensures Finished(t', r) {
      assert Finished(t, r);
    }
  }

  /** In an aggregated round every chunk is complete. */
  lemma AggregatedChunk(t: Store, chunks: nat, c: nat)
    requires Orderly(t, chunks) && t.HasChunk(c)
    ensures t.height in t.aggregated ==> t.rounds[t.height].CompleteAt(c)
    ensures Sequential(t.rounds[t.height], t.rounds[t.height].chunks[c])
  {
    assert t.height in t.aggregated ==> Finished(t, t.height);
  }

  lemma LockOrderly(env: Environment, t: Store, chunks: nat, c: nat, p: Participant, blank: Bytes)
    requires Orderly(t, chunks)
    ensures Orderly(WithLock(env, t, c, p, blank), chunks)
  {
    if CanLock(env, t, c, p) {
      AggregatedChunk(t, chunks, c);
      var chunk := t.rounds[t.height].chunks[c].(holder := Some(p));
      ChunkOrderly(t, chunks, c, chunk);
      FilesOrderly(WithChunk(t, c, chunk), chunks, WithLock(env, t, c, p, blank).files);
    }
  }

  /** Files matter to no round. */
  lemma FilesOrderly(t: Store, chunks: nat, files: map<Locator, Bytes>)
    requires Orderly(t, chunks)
    ensures Orderly(t.(files := files), chunks)
  {
    var t' := t.(files := files);
    assert Shaped(t', chunks);
    forall r: nat | 1 <= r < t'.height || r in t'.aggregated ensures Finished(t', r) {
      assert Finished(t, r);
    }
  }

  lemma ResponseOrderly(hash: Bytes -> Hash, t: Store, chunks: nat, c: nat, p: Participant, signed: bool)
    requires Orderly(t, chunks)
    ensures Orderly(WithResponse(hash, t, c, p, signed), chunks)
  {
    if CanContribute(hash, t, c, p, signed) {
      AggregatedChunk(t, chunks, c);
      var chunk := t.rounds[t.height].chunks[c];
      ChunkOrderly(t, chunks, c, Chunk(None, chunk.verified + [false], chunk.makers + [p]));
    }
  }

  lemma ChallengeOrderly(hash: Bytes -> Hash, t: Store, chunks: nat, task: Task, p: Participant, signed: bool)
    requires Orderly(t, chunks)
    ensures Orderly(WithChallenge(hash, t, task, p, signed), chunks)
  {
    if CanVerify(hash, t, task, p, signed) {
      AggregatedChunk(t, chunks, task.chunk);
      var chunk := t.rounds[t.height].chunks[task.chunk];
      ChunkOrderly(t, chunks, task.chunk, chunk.(holder := None, verified := chunk.verified[task.contribution := true]));
    }
  }

  lemma AggregateOrderly(t: Store, chunks: nat, succeeds: bool)
    requires Orderly(t, chunks)
    ensures Orderly(WithAggregate(t, succeeds), chunks)
  {
    var t' := WithAggregate(t, succeeds);
    assert Shaped(t', chunks);
    forall r: nat | 1 <= r < t'.height || r in t'.aggregated ensures Finished(t', r) {
      if r in t.aggregated || r < t.height {
        assert Finished(t, r);
      }
    }
  }

  lemma AdvanceOrderly(env: Environment, t: Store, contributors: seq<Participant>)
    requires Orderly(t, env.chunks)
    ensures Orderly(WithNextRound(env, t, contributors), env.chunks)
  {
    var t' := WithNextRound(env, t, contributors);
    if CanOpen(env, t, contributors) {
      assert Shaped(t', env.chunks);
      forall r: nat | 1 <= r < t'.height || r in t'.aggregated ensures Finished(t', r) {
        assert Finished(t, r);
      }
    }
  }

  /** A reset keeps order, unless it keeps a round without contributors. */
  lemma ResetOrderly(t: Store, chunks: nat, action: ResetAction)
    requires Orderly(t, chunks) && 0 < t.height
    requires action.rollback || exists p :: p in t.rounds[t.height].contributors && p !in action.removed
    ensures WithReset(t, action).1.Ok? && Orderly(WithReset(t, action).0, chunks)
  {
    var t' := WithReset(t, action).0;
    if !action.rollback {
      var p :| p in t.rounds[t.height].contributors && p !in action.removed;
      FilterMember(t.rounds[t.height].contributors, (q: Participant) => q !in action.removed, p);
    }
    assert Shaped(t', chunks);
    forall r: nat | 1 <= r < t'.height || r in t'.aggregated ensures Finished(t', r) {
      assert Finished(t, r);
    }
  }
}
