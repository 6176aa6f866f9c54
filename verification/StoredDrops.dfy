/**
  What dropping a contributor does to storage. Its contributions go, with all that were built on
  them, and so do the files of the work it was doing: the hash chain may break, and a chunk may be
  left without a way to continue.
 */
module StoredDrops {
  import opened Wrappers
  import opened Tasks
  import opened Participants
  import opened Ceremony
  import opened Phase2
  import opened Codec
  import opened Stores
  import opened HashChain
  import Lists

  // ----- the chain after a drop

  /** The contributor is listed once in a round that is not aggregated, and its locks are on open chunks. */
  ghost predicate Droppable(t: Store, dropped: Participant) {
    && t.height in t.rounds && t.height !in t.aggregated
    && var round := t.rounds[t.height];
    && |Others(round.contributors, dropped)| + 1 == |round.contributors|
    && forall c :: 0 <= c < |round.chunks| && round.chunks[c].holder == Some(dropped) ==>
         round.chunks[c].Open() && |round.chunks[c].verified| <= |round.contributors|
  }

  /** The lost contributions are contributions of somebody. */
  ghost predicate RealIds(lost: map<nat, nat>) { forall c :: c in lost ==> 1 <= lost[c] }

  /** The dropped contributor was answering the challenge after another's contribution, which stays. */
  predicate AnswersOther(t: Store, dropped: Participant, locked: set<nat>, lost: map<nat, nat>, c: nat)
    requires t.HasChunk(c)
  {
    var chunk := t.rounds[t.height].chunks[c];
    c in locked && chunk.holder == Some(dropped) && 1 < |chunk.verified| && (c in lost ==> |chunk.verified| <= lost[c])
  }

  lemma DropOrderly(t: Store, chunks: nat, dropped: Participant, locked: set<nat>, lost: map<nat, nat>, q: Participant)
    requires Orderly(t, chunks) && Droppable(t, dropped) && RealIds(lost) && 1 <= t.height
    ensures Orderly(WithReplacement(t, dropped, locked, lost, q), chunks)
  {
    var t', h := WithReplacement(t, dropped, locked, lost, q), t.height;
    hide Others;
    forall c | 0 <= c < chunks ensures Sequential(t'.rounds[h], t'.rounds[h].chunks[c]) {
      assert Sequential(t.rounds[h], t.rounds[h].chunks[c]);
    }
    assert Shaped(t', chunks);
    forall r: nat | 1 <= r < t'.height || r in t'.aggregated ensures Finished(t', r) {
      assert Finished(t, r);
    }
  }

  /** The contributions of a chunk before the lost one. */
  function Cut(v: seq<bool>, lost: map<nat, nat>, c: nat): seq<bool> {
    if c in lost && lost[c] < |v| then v[..lost[c]] else v
  }

  /** What stays of a chunk after the drop. */
  lemma DropKeeps(t: Store, dropped: Participant, locked: set<nat>, lost: map<nat, nat>, q: Participant, c: nat)
    requires t.HasChunk(c)
    ensures var t' := WithReplacement(t, dropped, locked, lost, q);
      && t'.height == t.height && t'.HasChunk(c)
      && t'.rounds[t.height].chunks[c].verified == Cut(t.rounds[t.height].chunks[c].verified, lost, c)
  {
  }

  /** A link between files that the drop leaves alone. */
  lemma LinkKept(hash: Bytes -> Hash, t: Store, dropped: Participant, locked: set<nat>, lost: map<nat, nat>, q: Participant,
                 a: Locator, b: Locator)
    requires Linked(hash, t.files, a, b) && t.height in t.rounds
    requires !Abandoned(t, dropped, locked, lost, a) && !Abandoned(t, dropped, locked, lost, b)
    ensures Linked(hash, WithReplacement(t, dropped, locked, lost, q).files, a, b)
  {
    hide Abandoned, Others;
  }

  lemma OldLinksKept(hash: Bytes -> Hash, t: Store, dropped: Participant, locked: set<nat>, lost: map<nat, nat>, q: Participant,
                     r: nat, c: nat)
    requires t.height in t.rounds && RealIds(lost) && r < t.height && r in t.rounds && c < |t.rounds[r].chunks|
    requires RoundLinked(hash, t, r, c)
    ensures RoundLinked(hash, WithReplacement(t, dropped, locked, lost, q), r, c)
  {
    var t' := WithReplacement(t, dropped, locked, lost, q);
    assert t'.rounds[r] == t.rounds[r];
    forall i | 1 <= i < |t.rounds[r].chunks[c].verified| ensures ContributionLinked(hash, t', r, c, i) {
      assert ContributionLinked(hash, t, r, c, i);
      var n := |t.rounds[r].contributors|;
      LinkKept(hash, t, dropped, locked, lost, q, Locator(r, c, i - 1, true), Locator(r, c, i, false));
      if t.rounds[r].chunks[c].Verified(i) {
        LinkKept(hash, t, dropped, locked, lost, q, Locator(r, c, i, false), NextChallenge(r, c, i, n));
      }
    }
  }

  lemma NewLinksKept(hash: Bytes -> Hash, t: Store, chunks: nat, dropped: Participant, locked: set<nat>, lost: map<nat, nat>,
                     q: Participant, c: nat)
    requires Orderly(t, chunks) && Droppable(t, dropped) && RealIds(lost) && c < chunks
    requires RoundLinked(hash, t, t.height, c) && !AnswersOther(t, dropped, locked, lost, c)
    ensures RoundLinked(hash, WithReplacement(t, dropped, locked, lost, q), t.height, c)
  {
    var t', h, n := WithReplacement(t, dropped, locked, lost, q), t.height, |t.rounds[t.height].contributors|;
    assert |t'.rounds[h].contributors| == n by { hide Abandoned, Others; }
    hide Others;
    DropKeeps(t, dropped, locked, lost, q, c);
    forall i | 1 <= i < |t'.rounds[h].chunks[c].verified| ensures ContributionLinked(hash, t', h, c, i) {
      assert ContributionLinked(hash, t, h, c, i);
      LinkKept(hash, t, dropped, locked, lost, q, Locator(h, c, i - 1, true), Locator(h, c, i, false));
      if t'.rounds[h].chunks[c].Verified(i) {
        LinkKept(hash, t, dropped, locked, lost, q, Locator(h, c, i, false), NextChallenge(h, c, i, n));
      }
    }
  }

  /**
    A drop erases the challenge that the dropped contributor was answering. The chain survives
    exactly when none of its locks was on a chunk with an earlier contribution of somebody else:
    there the verified challenge goes although the contribution before it stays.
   */
  lemma DropKeepsChainIff(hash: Bytes -> Hash, t: Store, chunks: nat, dropped: Participant, locked: set<nat>,
                          lost: map<nat, nat>, q: Participant)
    requires Chained(hash, t, chunks) && 1 <= t.height && Droppable(t, dropped) && RealIds(lost)
    ensures Chained(hash, WithReplacement(t, dropped, locked, lost, q), chunks) <==>
      forall c :: 0 <= c < chunks ==> !AnswersOther(t, dropped, locked, lost, c)
  {
    var t' := WithReplacement(t, dropped, locked, lost, q);
    DropOrderly(t, chunks, dropped, locked, lost, q);
    if c :| 0 <= c < chunks && AnswersOther(t, dropped, locked, lost, c) {
      AnsweredLost(hash, t, chunks, dropped, locked, lost, q, c);
    } else {
      hide Orderly, Droppable, AnswersOther;
      forall r: nat, c: nat | 1 <= r <= t'.height && c < chunks ensures RoundLinked(hash, t', r, c) {
        assert RoundLinked(hash, t, r, c);
        if r < t.height {
          OldLinksKept(hash, t, dropped, locked, lost, q, r, c);
        } else {
          NewLinksKept(hash, t, chunks, dropped, locked, lost, q, c);
        }
      }
    }
  }

  /** The lost challenge leaves a verified contribution without its link, and its chunk stuck. */
  lemma AnsweredLost(hash: Bytes -> Hash, t: Store, chunks: nat, dropped: Participant, locked: set<nat>, lost: map<nat, nat>,
                     q: Participant, c: nat)
    requires Orderly(t, chunks) && 1 <= t.height && Droppable(t, dropped) && c < chunks && AnswersOther(t, dropped, locked, lost, c)
    ensures var t' := WithReplacement(t, dropped, locked, lost, q);
      && !Chained(hash, t', chunks)
      && Stuck(t', t.height, c, t.rounds[t.height].chunks[c].verified)
  {
    var t', h, i := WithReplacement(t, dropped, locked, lost, q), t.height, |t.rounds[t.height].chunks[c].verified| - 1;
    hide Others;
    DropKeeps(t, dropped, locked, lost, q, c);
    assert Abandoned(t, dropped, locked, lost, Locator(h, c, i, true));
    assert |t'.rounds[h].contributors| == |t.rounds[h].contributors|;
    assert !ContributionLinked(hash, t', h, c, i);
    assert !RoundLinked(hash, t', h, c);
  }

  /** Two contributors and one chunk: the second is dropped while it answers the first. */
  lemma LockedDropExists(hash: Bytes -> Hash) returns (t: Store, p: Participant)
    ensures Chained(hash, t, 1) && 1 <= t.height && Droppable(t, p)
    ensures t.HasChunk(0) && t.rounds[t.height].chunks[0].verified == [true, true]
    ensures forall q :: !Chained(hash, WithReplacement(t, p, {0}, map[], q), 1)
  {
    p := Contributor("p");
    var a := Contributor("a");
    var response := hash([]);
    var challenge := hash(response);
    var rounds := map[0 := Round([], [NEW_CHUNK]), 1 := Round([a, p], [Chunk(Some(p), [true, true], [a])])];
    var files := map[Locator(1, 0, 0, true) := [], Locator(1, 0, 1, false) := response, Locator(1, 0, 1, true) := challenge];
    t := Store(1, rounds, files, {});
    assert "a"[0] != "p"[0];
    OtherOfTwo(a, p);
    assert Droppable(t, p);
    OneContribution(hash, t);
    forall q ensures !Chained(hash, WithReplacement(t, p, {0}, map[], q), 1) {
      AnsweredLost(hash, t, 1, p, {0}, map[], q, 0);
    }
  }

  lemma OtherOfTwo(a: Participant, p: Participant)
    requires a != p
    ensures Others([a, p], p) == [a]
  {
    var keep := (q: Participant) => q != p;
    assert [a, p][1..] == [p] && [p][1..] == [];
    assert Lists.Filter([p], keep) == [];
  }

  lemma OneContribution(hash: Bytes -> Hash, t: Store)
    requires t.height == 1 && t.rounds.Keys == {0, 1} && t.aggregated == {}
    requires t.rounds[0] == Round([], [NEW_CHUNK]) && |t.rounds[1].contributors| == 2 && |t.rounds[1].chunks| == 1
    requires t.rounds[1].chunks[0].verified == [true, true]
    requires Linked(hash, t.files, Locator(1, 0, 0, true), Locator(1, 0, 1, false))
    requires Linked(hash, t.files, Locator(1, 0, 1, false), Locator(1, 0, 1, true))
    ensures Chained(hash, t, 1)
  {
    assert Shaped(t, 1);
    assert ContributionLinked(hash, t, 1, 0, 1);
    assert RoundLinked(hash, t, 1, 0);
  }

  // ----- what may happen afterwards

  /** Anything that can happen in storage, further drops included. */
  datatype Change =
    | Step(op: Op)
    | Discard(task: Task)
    | Exchange(dropped: Participant, locked: set<nat>, lost: map<nat, nat>, replacement: Participant)

  function After(env: Environment, hash: Bytes -> Hash, t: Store, e: Change): Store {
    match e
    case Step(op) => Apply(env, hash, t, op)
    case Discard(task) => Disposed(t, task)
    case Exchange(dropped, locked, lost, replacement) => WithReplacement(t, dropped, locked, lost, replacement)
  }

  /** The round is not taken back, and nobody is dropped that the round lists more than once. */
  ghost predicate KeepsRound(t: Store, e: Change) {
    match e
    case Step(op) => !op.RollBack?
    case Discard(_) => true
    case Exchange(dropped, _, _, _) =>
      t.height in t.rounds ==> |Others(t.rounds[t.height].contributors, dropped)| + 1 >= |t.rounds[t.height].contributors|
  }

  ghost predicate Continues(env: Environment, hash: Bytes -> Hash, stores: seq<Store>, changes: seq<Change>) {
    && |stores| == |changes| + 1
    && forall i :: 0 <= i < |changes| ==>
         KeepsRound(stores[i], changes[i]) && stores[i + 1] == After(env, hash, stores[i], changes[i])
  }

  // ----- a lost challenge

  /** Chunk `c` of round `r` stands at the verified contributions `v`, and the challenge after the last of them is gone. */
  ghost predicate Stuck(t: Store, r: nat, c: nat, v: seq<bool>) {
    && 1 <= r == t.height && t.HasChunk(c) && r !in t.aggregated
    && t.rounds[r].chunks[c].verified == v && 1 < |v| <= |t.rounds[r].contributors| && v[|v| - 1]
    && Locator(r, c, |v| - 1, true) !in t.files
  }

  /** The change brings the challenge back, or takes the contribution before it away. */
  predicate Revives(e: Change, r: nat, c: nat, v: seq<bool>) {
    match e
    case Step(op) => op.Upload? && v != [] && op.file == Locator(r, c, |v| - 1, true)
    case Discard(_) => false
    case Exchange(_, _, lost, _) => c in lost && lost[c] < |v|
  }

  lemma StuckStays(env: Environment, hash: Bytes -> Hash, t: Store, e: Change, r: nat, c: nat, v: seq<bool>)
    requires Stuck(t, r, c, v) && KeepsRound(t, e) && !Revives(e, r, c, v)
    ensures Stuck(After(env, hash, t, e), r, c, v)
  {
    assert !t.rounds[r].CompleteAt(c);
    hide Others;
  }

  lemma {:induction false} StuckThroughout(env: Environment, hash: Bytes -> Hash, stores: seq<Store>, changes: seq<Change>,
                                           i: nat, r: nat, c: nat, v: seq<bool>)
    requires Continues(env, hash, stores, changes) && i < |stores| && Stuck(stores[0], r, c, v)
    requires forall j :: 0 <= j < |changes| ==> !Revives(changes[j], r, c, v)
    ensures Stuck(stores[i], r, c, v)
  {
    hide Stuck;
    if i > 0 {
      StuckThroughout(env, hash, stores, changes, i - 1, r, c, v);
      StuckStays(env, hash, stores[i - 1], changes[i - 1], r, c, v);
    }
  }

  /**
    A contributor is dropped while it answers the challenge after another's contribution. Whatever
    happens then, until that challenge is written again, the contribution before it is dropped, or
    the round is taken back: nobody's response to the chunk is accepted, and the round is never
    complete, aggregated or left.
   */
  lemma ChunkStaysStuck(env: Environment, hash: Bytes -> Hash, t: Store, dropped: Participant, locked: set<nat>,
                        lost: map<nat, nat>, q: Participant, c: nat, stores: seq<Store>, changes: seq<Change>, i: nat)
    requires Orderly(t, env.chunks) && 1 <= t.height && Droppable(t, dropped) && c < env.chunks
    requires t.HasChunk(c) && AnswersOther(t, dropped, locked, lost, c)
    requires Continues(env, hash, stores, changes) && i < |stores| && stores[0] == WithReplacement(t, dropped, locked, lost, q)
    requires forall j :: 0 <= j < |changes| ==> !Revives(changes[j], t.height, c, t.rounds[t.height].chunks[c].verified)
    ensures stores[i].height == t.height && stores[i].HasChunk(c) && t.height !in stores[i].aggregated
    ensures stores[i].rounds[t.height].chunks[c].verified == t.rounds[t.height].chunks[c].verified
    ensures forall p, signed :: !CanContribute(hash, stores[i], c, p, signed)
    ensures !stores[i].rounds[t.height].CompleteAt(c)
  {
    assert t.HasChunk(c);
    hide Orderly, Droppable, Chained, Continues, AnswersOther;
    AnsweredLost(hash, t, env.chunks, dropped, locked, lost, q, c);
    StuckThroughout(env, hash, stores, changes, i, t.height, c, t.rounds[t.height].chunks[c].verified);
  }

  // ----- responses that stay behind

  /**
    Where the dropped contributor had made contribution k of n - 1, its response is removed. No
    response from k on is left behind exactly when nobody had contributed after it.
   */
  lemma NothingStaleIff(hash: Bytes -> Hash, t: Store, chunks: nat, dropped: Participant, locked: set<nat>,
                        lost: map<nat, nat>, q: Participant, c: nat)
    requires Chained(hash, t, chunks) && 1 <= t.height && c < chunks && t.HasChunk(c)
    requires c in lost && 1 <= lost[c] < |t.rounds[t.height].chunks[c].verified|
    ensures var t', k, n := WithReplacement(t, dropped, locked, lost, q), lost[c], |t.rounds[t.height].chunks[c].verified|;
      (forall j: nat :: k <= j < n ==> Locator(t.height, c, j, false) !in t'.files) <==> k + 1 == n
  {
    var t', k, n := WithReplacement(t, dropped, locked, lost, q), lost[c], |t.rounds[t.height].chunks[c].verified|;
    assert Abandoned(t, dropped, locked, lost, Locator(t.height, c, k, false));
    if k + 1 < n {
      ResponseLeft(hash, t, chunks, dropped, locked, lost, q, c);
    }
  }

  lemma ResponseLeft(hash: Bytes -> Hash, t: Store, chunks: nat, dropped: Participant, locked: set<nat>,
                     lost: map<nat, nat>, q: Participant, c: nat)
    requires Chained(hash, t, chunks) && 1 <= t.height && c < chunks && t.HasChunk(c)
    requires c in lost && 1 <= lost[c] && lost[c] + 1 < |t.rounds[t.height].chunks[c].verified|
    ensures Locator(t.height, c, lost[c] + 1, false) in WithReplacement(t, dropped, locked, lost, q).files
  {
    assert RoundLinked(hash, t, t.height, c);
    assert ContributionLinked(hash, t, t.height, c, lost[c] + 1);
    assert !Abandoned(t, dropped, locked, lost, Locator(t.height, c, lost[c] + 1, false));
  }

  /** The response file after contribution `k` is in the way: the chunk has no more than that, and nobody is past it. */
  ghost predicate Blocked(t: Store, r: nat, c: nat, k: nat) {
    && 1 <= r == t.height && t.HasChunk(c) && r !in t.aggregated
    && var chunk := t.rounds[r].chunks[c];
    && |chunk.verified| <= k + 1 <= |t.rounds[r].contributors| && (|chunk.verified| == k + 1 ==> chunk.holder.None?)
    && Locator(r, c, k + 1, false) in t.files
  }

  /** The change erases response `i` of the chunk. */
  predicate Removes(e: Change, r: nat, c: nat, i: nat) {
    e == Step(Erase(Locator(r, c, i, false))) || e == Discard(Task(c, i))
  }

  lemma BlockedStays(env: Environment, hash: Bytes -> Hash, t: Store, e: Change, r: nat, c: nat, k: nat)
    requires Blocked(t, r, c, k) && KeepsRound(t, e) && !Removes(e, r, c, k + 1)
    ensures Blocked(After(env, hash, t, e), r, c, k)
  {
    assert !t.rounds[r].CompleteAt(c);
    hide Others;
  }

  lemma {:induction false} BlockedThroughout(env: Environment, hash: Bytes -> Hash, stores: seq<Store>, changes: seq<Change>,
                                             i: nat, r: nat, c: nat, k: nat)
    requires Continues(env, hash, stores, changes) && i < |stores| && Blocked(stores[0], r, c, k)
    requires forall j :: 0 <= j < |changes| ==> !Removes(changes[j], r, c, k + 1)
    ensures Blocked(stores[i], r, c, k)
  {
    hide Blocked;
    if i > 0 {
      BlockedThroughout(env, hash, stores, changes, i - 1, r, c, k);
      BlockedStays(env, hash, stores[i - 1], changes[i - 1], r, c, k);
    }
  }

  /**
    Contribution k is dropped after others had contributed. Whatever happens then, further drops
    included, until the response k + 1 that stayed behind is erased or the round is taken back:
    the chunk never gets past contribution k, where nobody can lock it any more, and the round is
    never complete, aggregated or left.
   */
  lemma ChunkStaysBlocked(env: Environment, hash: Bytes -> Hash, t: Store, dropped: Participant, locked: set<nat>,
                          lost: map<nat, nat>, q: Participant, c: nat, stores: seq<Store>, changes: seq<Change>, i: nat)
    requires Chained(hash, t, env.chunks) && 1 <= t.height && Droppable(t, dropped) && c < env.chunks && t.HasChunk(c)
    requires c in lost && 1 <= lost[c] && lost[c] + 1 < |t.rounds[t.height].chunks[c].verified|
    requires Continues(env, hash, stores, changes) && i < |stores| && stores[0] == WithReplacement(t, dropped, locked, lost, q)
    requires forall j :: 0 <= j < |changes| ==> !Removes(changes[j], t.height, c, lost[c] + 1)
    ensures stores[i].height == t.height && stores[i].HasChunk(c) && t.height !in stores[i].aggregated
    ensures var v := stores[i].rounds[t.height].chunks[c].verified;
      |v| <= lost[c] + 1 && (|v| == lost[c] + 1 ==> forall p :: !CanLock(env, stores[i], c, p))
    ensures !stores[i].rounds[t.height].CompleteAt(c)
  {
    StartsBlocked(hash, t, env.chunks, dropped, locked, lost, q, c);
    hide Chained, Droppable, Continues;
    BlockedThroughout(env, hash, stores, changes, i, t.height, c, lost[c]);
  }

  lemma StartsBlocked(hash: Bytes -> Hash, t: Store, chunks: nat, dropped: Participant, locked: set<nat>,
                      lost: map<nat, nat>, q: Participant, c: nat)
    requires Chained(hash, t, chunks) && 1 <= t.height && Droppable(t, dropped) && c < chunks && t.HasChunk(c)
    requires c in lost && 1 <= lost[c] && lost[c] + 1 < |t.rounds[t.height].chunks[c].verified|
    ensures Blocked(WithReplacement(t, dropped, locked, lost, q), t.height, c, lost[c])
  {
    ResponseLeft(hash, t, chunks, dropped, locked, lost, q, c);
    DropKeeps(t, dropped, locked, lost, q, c);
    assert Sequential(t.rounds[t.height], t.rounds[t.height].chunks[c]);
    hide Others, Abandoned;
  }

  /** Two contributors and one chunk: the first is dropped after the second has answered it. */
  lemma StaleDropExists(hash: Bytes -> Hash) returns (t: Store, p: Participant)
    ensures Chained(hash, t, 1) && 1 <= t.height && Droppable(t, p)
    ensures forall q :: Blocked(WithReplacement(t, p, {}, map[0 := 1], q), 1, 0, 1)
  {
    p := Contributor("p");
    var a := Contributor("a");
    var first := hash([]);
    var challenge := hash(first);
    var second := hash(challenge);
    var rounds := map[0 := Round([], [NEW_CHUNK]), 1 := Round([a, p], [Chunk(None, [true, true, false], [p, a])])];
    var files := map[Locator(1, 0, 0, true) := [], Locator(1, 0, 1, false) := first, Locator(1, 0, 1, true) := challenge,
                     Locator(1, 0, 2, false) := second];
    t := Store(1, rounds, files, {});
    assert "a"[0] != "p"[0];
    OtherOfTwo(a, p);
    assert Droppable(t, p);
    OneAndAHalf(hash, t);
    forall q ensures Blocked(WithReplacement(t, p, {}, map[0 := 1], q), 1, 0, 1) {
      StartsBlocked(hash, t, 1, p, {}, map[0 := 1], q, 0);
    }
  }

  lemma OneAndAHalf(hash: Bytes -> Hash, t: Store)
    requires t.height == 1 && t.rounds.Keys == {0, 1} && t.aggregated == {}
    requires t.rounds[0] == Round([], [NEW_CHUNK]) && |t.rounds[1].contributors| == 2 && |t.rounds[1].chunks| == 1
    requires t.rounds[1].chunks[0].verified == [true, true, false]
    requires Linked(hash, t.files, Locator(1, 0, 0, true), Locator(1, 0, 1, false))
    requires Linked(hash, t.files, Locator(1, 0, 1, false), Locator(1, 0, 1, true))
    requires Linked(hash, t.files, Locator(1, 0, 1, true), Locator(1, 0, 2, false))
    ensures Chained(hash, t, 1)
  {
    assert Shaped(t, 1);
    assert ContributionLinked(hash, t, 1, 0, 1) && ContributionLinked(hash, t, 1, 0, 2);
    assert RoundLinked(hash, t, 1, 0);
  }
}
