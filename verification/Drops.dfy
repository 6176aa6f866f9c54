/**
  What a drop and a reset do to the progress of a round: per-chunk progress stays a prefix of the
  contribution ids, and a reset loses nobody.
 */
module Drops {
  import opened Wrappers
  import opened Arith
  import opened Tasks
  import opened Lists
  import opened Participants
  import opened Ceremony
  import opened Rounds
  import opened Conservation

  // ----- a drop keeps per-chunk progress a prefix

  /** Some contributor on the roster has completed contribution `id` of the chunk. */
  ghost predicate HasDone(roster: Roster, chunk: nat, id: nat) {
    exists p :: p in roster && Task(chunk, id) in roster[p].completedTasks
  }

  /** The completed contributions of the chunk are exactly 1 .. m. */
  ghost predicate Prefix(roster: Roster, chunk: nat, m: nat) {
    forall id: nat :: HasDone(roster, chunk, id) <==> 1 <= id <= m
  }

  lemma {:induction false} ByChunkLookup(tasks: seq<Task>, t: Task)
    requires forall u, v :: u in tasks && v in tasks && u.chunk == v.chunk ==> u == v
    ensures t.chunk in ByChunk(tasks) && ByChunk(tasks)[t.chunk] == t.contribution <==> t in tasks
    ensures t.chunk in ByChunk(tasks) <==> HasChunk(tasks, t.chunk)
  {
    if tasks != [] {
      var rest, last := tasks[..|tasks| - 1], tasks[|tasks| - 1];
      assert tasks == rest + [last];
      ByChunkLookup(rest, t);
      assert last in tasks;
      if HasChunk(tasks, t.chunk) && !HasChunk(rest, t.chunk) {
        assert last.chunk == t.chunk;
      }
    }
  }

  /** The lost contributions of a covered round's member: one id per chunk it completed. */
  lemma LostIds(env: Environment, s: State, n: nat, bucket: map<Participant, nat>, p: Participant, t: Task)
    requires Covered(env, s, n, bucket) && p in s.current
    ensures var lost := ByChunk(s.current[p].completedTasks);
      && (t.chunk in lost <==> HasChunk(s.current[p].completedTasks, t.chunk))
      && (t in s.current[p].completedTasks <==> t.chunk in lost && lost[t.chunk] == t.contribution)
  {
    var info := s.current[p];
    assert Active(env, p, info, bucket[p], n, s.height.value);
    hide Covered;
    forall u, v | u in info.completedTasks && v in info.completedTasks && u.chunk == v.chunk ensures u == v {
      HeldInBucket(info, bucket[p], env.chunks, n, u);
      HeldInBucket(info, bucket[p], env.chunks, n, v);
      TaskInBucket(bucket[p], u, env.chunks, n);
      TaskInBucket(bucket[p], v, env.chunks, n);
    }
    ByChunkLookup(info.completedTasks, t);
  }

  /** Two members never complete the same task. */
  lemma CompletedApart(env: Environment, s: State, n: nat, bucket: map<Participant, nat>, p: Participant, q: Participant, t: Task)
    requires Covered(env, s, n, bucket) && p in s.current && q in s.current
    requires t in s.current[p].completedTasks && t in s.current[q].completedTasks
    ensures p == q
  {
    assert Active(env, p, s.current[p], bucket[p], n, s.height.value);
    assert Active(env, q, s.current[q], bucket[q], n, s.height.value);
    assert Bijection(bucket, n);
    hide Covered;
    HeldInBucket(s.current[p], bucket[p], env.chunks, n, t);
    HeldInBucket(s.current[q], bucket[q], env.chunks, n, t);
    EveryPairOnce(t.chunk, t.contribution, bucket[p], env.chunks, n);
    EveryPairOnce(t.chunk, t.contribution, bucket[q], env.chunks, n);
  }

  /** What stays completed after a drop: everything in other chunks, and what came before in the lost ones. */
  lemma CompletedAfterDrop(env: Environment, s: State, n: nat, bucket: map<Participant, nat>, p: Participant, now: Time,
                           chunk: nat, id: nat)
    requires Covered(env, s, n, bucket)
    requires DropGuard(s, p).Ok? && BucketsKnown(env, s.current, s.metrics.value.contributors)
    ensures var lost := ByChunk(s.current[p].completedTasks);
      HasDone(AfterDrop(env, s, p, now).current, chunk, id) <==>
        HasDone(s.current, chunk, id) && (chunk in lost ==> id < lost[chunk])
  {
    var lost, s1, t := ByChunk(s.current[p].completedTasks), AfterDrop(env, s, p, now), Task(chunk, id);
    LostIds(env, s, n, bucket, p, t);
    forall q | q in s.current && q != p ensures
      t in s1.current[q].completedTasks <==> t in s.current[q].completedTasks && !BuiltOn(lost, t)
    {
      FilterMember(s.current[q].completedTasks, (u: Task) => !BuiltOn(lost, u), t);
    }
    if HasDone(s1.current, chunk, id) {
      var q :| q in s1.current && t in s1.current[q].completedTasks;
      if t in s.current[p].completedTasks {
        CompletedApart(env, s, n, bucket, p, q, t);
      }
    }
    if HasDone(s.current, chunk, id) && (chunk in lost ==> id < lost[chunk]) {
      var q :| q in s.current && t in s.current[q].completedTasks;
      assert q != p;
      assert q in s1.current && t in s1.current[q].completedTasks;
    }
  }

  /** What a drop leaves of a chunk: the ids before the dropped one's, and no pending task. */
  ghost predicate Progress(before: Roster, after: Roster, lost: map<nat, nat>, chunk: nat) {
    && (forall id: nat :: HasDone(after, chunk, id) <==>
          HasDone(before, chunk, id) && (chunk in lost ==> id < lost[chunk]))
    && (chunk in lost ==> forall q :: q in after ==> !HasChunk(after[q].pendingTasks, chunk))
  }

  lemma DropProgress(env: Environment, s: State, n: nat, bucket: map<Participant, nat>, p: Participant, now: Time, chunk: nat)
    requires Covered(env, s, n, bucket)
    requires DropGuard(s, p).Ok? && BucketsKnown(env, s.current, s.metrics.value.contributors)
    ensures Progress(s.current, AfterDrop(env, s, p, now).current, ByChunk(s.current[p].completedTasks), chunk)
  {
    var lost, s1 := ByChunk(s.current[p].completedTasks), AfterDrop(env, s, p, now);
    forall id: nat ensures HasDone(s1.current, chunk, id) <==>
      HasDone(s.current, chunk, id) && (chunk in lost ==> id < lost[chunk])
    {
      CompletedAfterDrop(env, s, n, bucket, p, now, chunk, id);
    }
    if chunk in lost {
      PendingAfterDrop(env, s, p, now, chunk);
    }
  }

  lemma ReplaceProgress(env: Environment, s: State, n: nat, bucket: map<Participant, nat>, p: Participant, now: Time, chunk: nat)
    requires Covered(env, s, n, bucket)
    requires env.Valid() && env.coordinatorContributors != []
    requires DropGuard(s, p).Ok? && BucketsKnown(env, s.current, n) && OutsideRound(s, p, Replacement(env, s, p, now))
    ensures Progress(s.current, AddReplacement(env, AfterDrop(env, s, p, now), s.current[p].bucket, now).0.current,
                     ByChunk(s.current[p].completedTasks), chunk)
  {
    ReplaceResult(env, s, n, bucket, p, now);
    DropProgress(env, s, n, bucket, p, now, chunk);
    var lost, s1, q := ByChunk(s.current[p].completedTasks), AfterDrop(env, s, p, now), Replacement(env, s, p, now);
    var s' := AddReplacement(env, s1, s.current[p].bucket, now).0;
    hide AfterDrop, AddReplacement, Covered, AllActive, Active, Replacement;
    assert q !in s1.current;
    InstallProgress(s.current, s1.current, s'.current, q, lost, chunk);
  }

  /** Adding a record with nothing done or pending changes no chunk's progress. */
  lemma InstallProgress(before: Roster, a: Roster, b: Roster, q: Participant, lost: map<nat, nat>, chunk: nat)
    requires Progress(before, a, lost, chunk)
    requires q !in a && q in b && b[q].completedTasks == [] && b[q].pendingTasks == [] && b == a[q := b[q]]
    ensures Progress(before, b, lost, chunk)
  {
    forall id: nat ensures HasDone(b, chunk, id) <==> HasDone(a, chunk, id) {
      SameProgress(a, b, q, chunk, id);
    }
  }

  /** A finished contributor has completed a contribution of the chunk after contribution `k`. */
  ghost predicate FinishedLater(s: State, chunk: nat, k: nat) {
    exists id: nat :: k < id && HasDone(s.Finished(), chunk, id)
  }

  /**
    A drop looks at the current contributors only. Where the dropped one had completed contribution
    k of a chunk, the round's progress becomes 1 .. k-1 exactly when no finished contributor has
    completed a later one: such work keeps standing on a contribution that is gone. Other chunks
    keep their progress, and nobody is left with a pending task in an affected chunk.
   */
  lemma DropKeepsPrefix(env: Environment, s: State, n: nat, bucket: map<Participant, nat>, p: Participant, now: Time,
                        chunk: nat, m: nat)
    requires Covered(env, s, n, bucket)
    requires env.Valid() && env.coordinatorContributors != []
    requires DropGuard(s, p).Ok? && BucketsKnown(env, s.current, n) && FreeReplacement(env, s, p)
    requires Prefix(Everyone(s), chunk, m)
    ensures s.metrics.Some? && s.metrics.value.contributors == n
    ensures var s' := AddReplacement(env, AfterDrop(env, s, p, now), s.current[p].bucket, now).0;
      && (!HasChunk(s.current[p].completedTasks, chunk) ==> Prefix(Everyone(s'), chunk, m))
      && forall k: nat :: Task(chunk, k) in s.current[p].completedTasks ==>
           && 1 <= k <= m
           && (Prefix(Everyone(s'), chunk, k - 1) <==> !FinishedLater(s, chunk, k))
           && !HasDone(Everyone(s'), chunk, k)
           && forall q :: q in s'.current ==> !HasChunk(s'.current[q].pendingTasks, chunk)
  {
    hide Covered, Prefix, AfterDrop, AddReplacement, Replacement, BucketsKnown, OutsideRound, FreeReplacement;
    assert p in s.current;
    hide DropGuard;
    CoveredApart(env, s, n, bucket);
    ReplacementIff(env, s, n, bucket, p, now);
    hide Progress, Prefix, FinishedLater, HasDone, HasChunk, ByChunk, Everyone;
    var s' := AddReplacement(env, AfterDrop(env, s, p, now), s.current[p].bucket, now).0;
    ReplaceProgress(env, s, n, bucket, p, now, chunk);
    ReplaceApart(env, s, n, bucket, p, now);
    LostInRound(env, s, n, bucket, p, chunk, m);
    PrefixLost(s, s', s.current[p].completedTasks, chunk, m);
  }

  lemma CoveredApart(env: Environment, s: State, n: nat, bucket: map<Participant, nat>)
    requires Covered(env, s, n, bucket)
    ensures s.current.Keys !! s.Finished().Keys
  {
    hide Bijection, AllActive, AllDone, Numbered;
  }

  lemma PrefixLost(s: State, s': State, done: seq<Task>, chunk: nat, m: nat)
    requires Progress(s.current, s'.current, ByChunk(done), chunk) && Prefix(Everyone(s), chunk, m)
    requires s'.Finished() == s.Finished() && s.current.Keys !! s.Finished().Keys && s'.current.Keys !! s.Finished().Keys
    requires chunk in ByChunk(done) <==> HasChunk(done, chunk)
    requires forall k: nat :: Task(chunk, k) in done ==>
      chunk in ByChunk(done) && ByChunk(done)[chunk] == k && 1 <= k <= m && !HasDone(s.Finished(), chunk, k)
    ensures !HasChunk(done, chunk) ==> Prefix(Everyone(s'), chunk, m)
    ensures forall k: nat :: Task(chunk, k) in done ==>
      && 1 <= k <= m
      && (Prefix(Everyone(s'), chunk, k - 1) <==> !FinishedLater(s, chunk, k))
      && !HasDone(Everyone(s'), chunk, k)
      && forall q :: q in s'.current ==> !HasChunk(s'.current[q].pendingTasks, chunk)
  {
    hide Progress, Prefix, FinishedLater, HasDone, HasChunk, ByChunk, Everyone;
    PrefixLeft(s, s', ByChunk(done), chunk, m);
  }

  /** The lost contribution of a chunk is within the round's progress, and nobody else has it. */
  lemma LostInRound(env: Environment, s: State, n: nat, bucket: map<Participant, nat>, p: Participant, chunk: nat, m: nat)
    requires Covered(env, s, n, bucket) && p in s.current && Prefix(Everyone(s), chunk, m)
    ensures var done, lost := s.current[p].completedTasks, ByChunk(s.current[p].completedTasks);
      && (chunk in lost <==> HasChunk(done, chunk))
      && forall k: nat :: Task(chunk, k) in done ==>
           chunk in lost && lost[chunk] == k && 1 <= k <= m && !HasDone(s.Finished(), chunk, k)
  {
    CoveredApart(env, s, n, bucket);
    hide Covered, ByChunk;
    LostIds(env, s, n, bucket, p, Task(chunk, 0));
    forall k: nat | Task(chunk, k) in s.current[p].completedTasks
      ensures var lost := ByChunk(s.current[p].completedTasks);
        chunk in lost && lost[chunk] == k && 1 <= k <= m && !HasDone(s.Finished(), chunk, k)
    {
      LostIds(env, s, n, bucket, p, Task(chunk, k));
      FinishedApart(env, s, n, bucket, p, Task(chunk, k));
      assert HasDone(s.current, chunk, k);
      DoneInRound(s.current, s.Finished(), chunk, k);
    }
  }

  lemma ReplaceApart(env: Environment, s: State, n: nat, bucket: map<Participant, nat>, p: Participant, now: Time)
    requires env.Valid() && env.coordinatorContributors != []
    requires Covered(env, s, n, bucket) && DropGuard(s, p).Ok? && BucketsKnown(env, s.current, n)
    requires OutsideRound(s, p, Replacement(env, s, p, now))
    ensures var s' := AddReplacement(env, AfterDrop(env, s, p, now), s.current[p].bucket, now).0;
      s'.Finished() == s.Finished() && s'.current.Keys !! s'.Finished().Keys
  {
    assert s.metrics.Some? && s.metrics.value.contributors == n;
    hide Covered;
    assert p in s.current;
    hide BucketsKnown, DropGuard, AfterDrop, AddReplacement, Replacement;
    CoveredApart(env, s, n, bucket);
    ReplaceKeys(env, s, n, bucket, p, now);
    var s', q := AddReplacement(env, AfterDrop(env, s, p, now), s.current[p].bucket, now).0, Replacement(env, s, p, now);
    assert q !in s.Finished();
    hide OutsideRound;
    KeysApart(s.current.Keys, s'.current.Keys, s.Finished().Keys, p, q);
  }

  lemma KeysApart<T>(before: set<T>, after: set<T>, finished: set<T>, p: T, q: T)
    requires before !! finished && after == (before - {p}) + {q} && q !in finished
    ensures after !! finished
  {
  }

  lemma DoneInRound(current: Roster, finished: Roster, chunk: nat, id: nat)
    requires current.Keys !! finished.Keys
    ensures HasDone(current + finished, chunk, id) <==> HasDone(current, chunk, id) || HasDone(finished, chunk, id)
  {
    if p :| p in current && Task(chunk, id) in current[p].completedTasks {
      assert p in current + finished && (current + finished)[p] == current[p];
    }
    if p :| p in finished && Task(chunk, id) in finished[p].completedTasks {
      assert p in current + finished && (current + finished)[p] == finished[p];
    }
  }

  /** What a current member has completed, no finished one has. */
  lemma FinishedApart(env: Environment, s: State, n: nat, bucket: map<Participant, nat>, p: Participant, t: Task)
    requires Covered(env, s, n, bucket) && p in s.current && t in s.current[p].completedTasks
    ensures !HasDone(s.Finished(), t.chunk, t.contribution)
  {
    var done := s.finished[s.height.value];
    assert Active(env, p, s.current[p], bucket[p], n, s.height.value);
    forall q | q in done && t in done[q].completedTasks ensures false {
      assert Done(env, done[q], bucket[q], n, s.height.value);
      assert bucket[q] != bucket[p];
      HeldInBucket(s.current[p], bucket[p], env.chunks, n, t);
      HeldInBucket(done[q], bucket[q], env.chunks, n, t);
      EveryPairOnce(t.chunk, t.contribution, bucket[p], env.chunks, n);
      EveryPairOnce(t.chunk, t.contribution, bucket[q], env.chunks, n);
    }
    assert t == Task(t.chunk, t.contribution);
  }

  /** What progress among the current members says of the progress of the round. */
  lemma PrefixLeft(s: State, s': State, lost: map<nat, nat>, chunk: nat, m: nat)
    requires Progress(s.current, s'.current, lost, chunk) && Prefix(Everyone(s), chunk, m)
    requires s'.Finished() == s.Finished() && s.current.Keys !! s.Finished().Keys && s'.current.Keys !! s.Finished().Keys
    ensures chunk !in lost ==> Prefix(Everyone(s'), chunk, m)
    ensures chunk in lost && 1 <= lost[chunk] <= m && !HasDone(s.Finished(), chunk, lost[chunk]) ==>
      && (Prefix(Everyone(s'), chunk, lost[chunk] - 1) <==> !FinishedLater(s, chunk, lost[chunk]))
      && !HasDone(Everyone(s'), chunk, lost[chunk])
      && forall q :: q in s'.current ==> !HasChunk(s'.current[q].pendingTasks, chunk)
  {
    forall id: nat
      ensures HasDone(Everyone(s), chunk, id) <==> HasDone(s.current, chunk, id) || HasDone(s.Finished(), chunk, id)
      ensures HasDone(Everyone(s'), chunk, id) <==> HasDone(s'.current, chunk, id) || HasDone(s.Finished(), chunk, id)
    {
      DoneInRound(s.current, s.Finished(), chunk, id);
      DoneInRound(s'.current, s.Finished(), chunk, id);
    }
    hide HasDone, HasChunk, Everyone;
  }

  /**
    A round of two over two chunks: the fast contributor has finished, its contribution 2 of chunk
    0 built on contribution 1 of the slow one, who is dropped. Contribution 2 stays on the books
    and contribution 1 has to be made again.
   */
  lemma StrandedWorkExists(now: Time)
    returns (env: Environment, s: State, bucket: map<Participant, nat>, p: Participant)
    ensures env.Valid() && env.coordinatorContributors != []
    ensures Covered(env, s, 2, bucket) && DropGuard(s, p).Ok? && BucketsKnown(env, s.current, 2) && FreeReplacement(env, s, p)
    ensures Prefix(Everyone(s), 0, 2) && Task(0, 1) in s.current[p].completedTasks
    ensures s.metrics.Some? && s.metrics.value.contributors == 2
    ensures var s' := AddReplacement(env, AfterDrop(env, s, p, now), s.current[p].bucket, now).0;
      !HasDone(Everyone(s'), 0, 1) && HasDone(Everyone(s'), 0, 2)
  {
    p := Contributor("p");
    var q, c := Contributor("q"), Contributor("c");
    env := Environment(2, 1, [c], [Verifier("v")], 1, 2, false, 0);
    bucket := map[p := 0, q := 1];
    var slow := NewInfo(p, 1, 10, 0).(startedAt := Some(0), assignedTasks := [Task(1, 2)], completedTasks := [Task(0, 1)]);
    var fast := NewInfo(q, 1, 10, 1).(startedAt := Some(0), finishedAt := Some(1), completedTasks := [Task(1, 1), Task(0, 2)]);
    s := Initialize(NEW_STATE, 1).(current := map[p := slow], finished := map[1 := map[q := fast]],
                                   metrics := Some(NEW_METRICS.(contributors := 2)));
    assert s.current.Keys == {p} && s.Finished() == s.finished[1] && s.finished[1].Keys == {q};
    assert env.Valid() && DropGuard(s, p).Ok? && OutsideRound(s, p, c);
    assert Task(0, 1) in s.current[p].completedTasks && Task(0, 2) in s.Finished()[q].completedTasks;
    hide Covered, DropGuard, BucketsKnown, OutsideRound, Prefix, AfterDrop, AddReplacement, HasDone, Everyone, FinishedLater;
    assert FreeReplacement(env, s, p) by { FirstFree(env, s, p, c); }
    hide FreeReplacement;
    StrandedCovered(env, s, bucket, p, q);
    DoneByTwo(s, p, q);
    StrandedAfterDrop(env, s, bucket, p, q, now);
  }

  lemma FirstFree(env: Environment, s: State, p: Participant, c: Participant)
    requires p in s.current && env.coordinatorContributors == [c] && OutsideRound(s, p, c)
    ensures FreeReplacement(env, s, p)
  {
    hide LoadAfterDrop, OutsideRound;
    assert OutsideRound(s, p, env.coordinatorContributors[0]);
  }

  lemma StrandedAfterDrop(env: Environment, s: State, bucket: map<Participant, nat>, p: Participant, q: Participant, now: Time)
    requires env.Valid() && env.coordinatorContributors != []
    requires Covered(env, s, 2, bucket) && DropGuard(s, p).Ok? && BucketsKnown(env, s.current, 2) && FreeReplacement(env, s, p)
    requires Prefix(Everyone(s), 0, 2) && Task(0, 1) in s.current[p].completedTasks
    requires q in s.Finished() && Task(0, 2) in s.Finished()[q].completedTasks
    ensures s.metrics.Some? && s.metrics.value.contributors == 2
    ensures var s' := AddReplacement(env, AfterDrop(env, s, p, now), s.current[p].bucket, now).0;
      !HasDone(Everyone(s'), 0, 1) && HasDone(Everyone(s'), 0, 2)
  {
    assert p in s.current;
    hide Covered, DropGuard, BucketsKnown, FreeReplacement, AfterDrop, AddReplacement, Replacement, OutsideRound;
    DropKeepsPrefix(env, s, 2, bucket, p, now, 0, 2);
    ReplacementIff(env, s, 2, bucket, p, now);
    ReplaceApart(env, s, 2, bucket, p, now);
    var s' := AddReplacement(env, AfterDrop(env, s, p, now), s.current[p].bucket, now).0;
    assert HasDone(s'.Finished(), 0, 2);
    DoneInRound(s'.current, s'.Finished(), 0, 2);
  }

  lemma StrandedCovered(env: Environment, s: State, bucket: map<Participant, nat>, p: Participant, q: Participant)
    requires p != q && bucket == map[p := 0, q := 1] && env.chunks == 2 && p.Contributor?
    requires s.height == Some(1) && s.current.Keys == {p} && s.finished.Keys == {1} && s.finished[1].Keys == {q}
    requires s.metrics == Some(NEW_METRICS.(contributors := 2))
    requires var slow, fast := s.current[p], s.finished[1][q];
      && slow == NewInfo(p, 1, 10, 0).(startedAt := Some(0), assignedTasks := [Task(1, 2)], completedTasks := [Task(0, 1)])
      && fast.roundHeight == 1 && fast.assignedTasks == [] && fast.pendingTasks == []
      && fast.completedTasks == [Task(1, 1), Task(0, 2)]
    ensures Covered(env, s, 2, bucket) && BucketsKnown(env, s.current, 2)
  {
    TwoByTwo();
    var slow, fast := s.current[p], s.finished[1][q];
    assert Conserved(slow, 0, 2, 2) by {
      assert multiset([Task(0, 1), Task(1, 2)]) == multiset([Task(1, 2)]) + multiset([Task(0, 1)]);
    }
    assert Conserved(fast, 1, 2, 2);
    hide BucketTasks, Conserved;
    TwoTaken(bucket, p, q);
    hide Bijection;
    assert bucket.Keys == s.current.Keys + s.finished[1].Keys;
  }

  lemma DoneByTwo(s: State, p: Participant, q: Participant)
    requires p != q && s.current.Keys == {p} && s.Finished().Keys == {q}
    requires s.current[p].completedTasks == [Task(0, 1)] && s.Finished()[q].completedTasks == [Task(1, 1), Task(0, 2)]
    ensures Prefix(Everyone(s), 0, 2) && FinishedLater(s, 0, 1)
  {
    forall id: nat ensures HasDone(Everyone(s), 0, id) <==> 1 <= id <= 2 {
      DoneInRound(s.current, s.Finished(), 0, id);
      assert Task(0, 1) in s.current[p].completedTasks && Task(0, 2) in s.Finished()[q].completedTasks;
    }
    assert HasDone(s.Finished(), 0, 2);
  }

  /** The task lists of two contributors over two chunks. */
  lemma TwoByTwo()
    ensures BucketTasks(0, 2, 2) == [Task(0, 1), Task(1, 2)] && BucketTasks(1, 2, 2) == [Task(1, 1), Task(0, 2)]
  {
    TwoBuckets();
    hide BucketSize, Start, BucketOf;
    var a, b := BucketTasks(0, 2, 2), BucketTasks(1, 2, 2);
    assert a[0] == Task(0, 1) && a[1] == Task(1, 2);
    assert b[0] == Task(1, 1) && b[1] == Task(0, 2);
  }

  lemma TwoBuckets()
    ensures Start(0, 2, 2) == 0 && Start(1, 2, 2) == 1 && BucketOf(0, 2, 2) == 0 && BucketOf(1, 2, 2) == 1
  {
    DivUnique(2, 2, 1, 0);
    DivUnique(0, 1, 0, 0);
    DivUnique(1, 1, 1, 0);
  }

  lemma PendingAfterDrop(env: Environment, s: State, p: Participant, now: Time, chunk: nat)
    requires DropGuard(s, p).Ok? && BucketsKnown(env, s.current, s.metrics.value.contributors)
    requires chunk in ByChunk(s.current[p].completedTasks)
    ensures forall q :: q in AfterDrop(env, s, p, now).current ==>
      !HasChunk(AfterDrop(env, s, p, now).current[q].pendingTasks, chunk)
  {
    var lost, s1 := ByChunk(s.current[p].completedTasks), AfterDrop(env, s, p, now);
    forall q, t | q in s1.current && t in s1.current[q].pendingTasks ensures t.chunk != chunk {
      FilterMember(s.current[q].pendingTasks, (u: Task) => u.chunk !in lost, t);
    }
  }

  lemma SameProgress(a: Roster, b: Roster, q: Participant, chunk: nat, id: nat)
    requires q !in a && q in b && b[q].completedTasks == [] && b == a[q := b[q]]
    ensures HasDone(a, chunk, id) <==> HasDone(b, chunk, id)
  {
    if HasDone(a, chunk, id) {
      var p :| p in a && Task(chunk, id) in a[p].completedTasks;
      assert p in b && Task(chunk, id) in b[p].completedTasks;
    }
  }

  // ----- a reset loses nobody

  /** The members of a round and of the staging area join a queue that otherwise stays, as reliable as they are. */
  ghost predicate JoinedQueue(queue: map<Participant, QueueEntry>, round: Roster, next: Roster,
                              queue': map<Participant, QueueEntry>, height: nat, now: Time)
  {
    && queue'.Keys == queue.Keys + round.Keys + next.Keys
    && (forall p :: p in round && p !in next ==> queue'[p] == QueueEntry(round[p].reliability, Some(height), now, now))
    && (forall p :: p in next ==> queue'[p] == QueueEntry(next[p].reliability, Some(next[p].roundHeight), now, now))
    && (forall p :: p in queue && p !in round && p !in next ==> queue'[p] == queue[p])
  }

  /**
    A forced reset of a round at height h >= 1 always succeeds: it ends at height h - 1, finished
    and aggregated, with everyone of the round and of the staging area in the queue, members of
    the round for round h again. Who is banned stays banned, and the next round has to wait.
   */
  lemma RollbackLosesNobody(env: Environment, s: State, working: seq<Participant>, done: seq<Participant>, now: Time)
    requires Sound(env, s) && Restartable(env, s) && ResetOrder(s, working, done)
    ensures var (s', r) := ResetCurrentRound(env, s, true, working, done, now);
      && r == Ok(ResetAction(working + done, true))
      && s'.height == Some(s.height.value - 1)
      && s'.IsRoundFinished() && s'.IsRoundAggregated() && s'.status == Initialized
      && s'.banned == s.banned && s'.metrics.value.nextRoundAfter == Some(now + env.queueWaitTime)
      && JoinedQueue(s.queue, Everyone(s), s.next, s'.queue, s.height.value, now)
  {
    assert Listed(s.current) && Listed(s.finished[s.height.value]) && s.height.Some? && 0 < s.height.value;
    hide Sound, Restartable, ResetOrder, ResetCurrentRound, Requeued, JoinedQueue, Everyone, Listed, Owners;
    var restarted := RollbackShape(env, s, working, done, now);
    RequeueAll(s.queue, Everyone(s), restarted, s.next, now, s.height.value);
  }

  /** The restarted members are those of the round, with their reliability. */
  ghost predicate Owners(round: Roster, restarted: Roster, height: nat) {
    restarted.Keys == round.Keys && forall p :: p in round ==>
      restarted[p].roundHeight == height && restarted[p].reliability == round[p].reliability && restarted[p].id == round[p].id
  }

  lemma RestartOwners(env: Environment, s: State, working: seq<Participant>, done: seq<Participant>, now: Time)
    requires ResetOrder(s, working, done) && Restartable(env, s)
    requires Listed(s.current) && Listed(s.finished[s.height.value])
    ensures var r := Restart(env, working + done, Members(s, working, done), now, |working + done|);
      r.Ok? && Owners(Everyone(s), r.value, s.height.value)
  {
    assert s.height.Some?;
    hide Restartable, Members, ResetOrder, Restart, Listed, Paired, Owners, Everyone;
    ResetMembers(env, s, working, done);
    MembersAre(env, s, working, done);
    var keys, members := working + done, Members(s, working, done);
    RestartAll(env, keys, members, now, |keys|);
    assert keys[..|keys|] == keys;
    OwnersOf(env, keys, members, Restart(env, keys, members, now, |keys|).value, Everyone(s), s.height.value);
  }

  /** The members in the order of a reset are those of the round. */
  lemma MembersAre(env: Environment, s: State, working: seq<Participant>, done: seq<Participant>)
    requires ResetOrder(s, working, done) && Restartable(env, s)
    ensures var keys, members := working + done, Members(s, working, done);
      && |keys| == |members|
      && (forall p :: p in keys <==> p in Everyone(s))
      && forall i :: 0 <= i < |keys| ==> keys[i] in Everyone(s) && members[i] == Everyone(s)[keys[i]]
  {
    assert s.current.Keys !! s.Finished().Keys;
    hide Restartable, ResetOrder, Distinct, Everyone;
    var keys := working + done;
    forall i | 0 <= i < |keys| ensures keys[i] in Everyone(s) && Members(s, working, done)[i] == Everyone(s)[keys[i]] {
      MemberAt(s, working, done, i);
    }
    forall p ensures p in keys <==> p in Everyone(s) {
      MemberListed(s, working, done, p);
    }
  }

  lemma MemberAt(s: State, working: seq<Participant>, done: seq<Participant>, i: nat)
    requires (forall p :: p in working ==> p in s.current) && (forall p :: p in done ==> p in s.Finished())
    requires s.current.Keys !! s.Finished().Keys && i < |working + done|
    ensures (working + done)[i] in Everyone(s) && Members(s, working, done)[i] == Everyone(s)[(working + done)[i]]
  {
    if i < |working| {
      assert working[i] in working;
    } else {
      assert done[i - |working|] in done;
    }
  }

  lemma MemberListed(s: State, working: seq<Participant>, done: seq<Participant>, p: Participant)
    requires ResetOrder(s, working, done)
    ensures p in working + done <==> p in Everyone(s)
  {
    hide Distinct;
  }

  lemma OwnersOf(env: Environment, keys: seq<Participant>, members: seq<ParticipantInfo>,
                 restarted: Roster, round: Roster, height: nat)
    requires |keys| == |members| && (forall p :: p in keys <==> p in round) && (forall p :: p in restarted <==> p in keys)
    requires forall i :: 0 <= i < |keys| ==> keys[i] in round && members[i] == round[keys[i]] && members[i].roundHeight == height
    requires forall i: nat :: i < |keys| ==> RestartedAt(env, keys, members, restarted, i)
    ensures Owners(round, restarted, height)
  {
    hide Fresh;
    forall p | p in round ensures p in restarted
      && restarted[p].roundHeight == height && restarted[p].reliability == round[p].reliability && restarted[p].id == round[p].id
    {
      var i := Position(keys, p);
      assert RestartedAt(env, keys, members, restarted, i);
    }
  }

  lemma RollbackShape(env: Environment, s: State, working: seq<Participant>, done: seq<Participant>, now: Time)
    returns (restarted: Roster)
    requires Restartable(env, s) && ResetOrder(s, working, done)
    requires Listed(s.current) && Listed(s.finished[s.height.value])
    ensures Owners(Everyone(s), restarted, s.height.value)
    ensures var (s', r) := ResetCurrentRound(env, s, true, working, done, now);
      && r == Ok(ResetAction(working + done, true))
      && s'.height == Some(s.height.value - 1)
      && s'.IsRoundFinished() && s'.IsRoundAggregated() && s'.status == Initialized && s'.banned == s.banned
      && s'.metrics.value.nextRoundAfter == Some(now + env.queueWaitTime)
      && s'.queue == s.queue + Requeued(restarted, now) + Requeued(s.next, now)
  {
    RestartOwners(env, s, working, done, now);
    assert s.height.Some? && 0 < s.height.value && |Members(s, working, done)| == |working + done|;
    hide Owners, Everyone, Restart, Listed, ResetOrder, Members, Restartable, RolledBack;
    restarted := Restart(env, working + done, Members(s, working, done), now, |working + done|).value;
    assert ResetCurrentRound(env, s, true, working, done, now) ==
      (RolledBack(env, s, restarted, now), Ok(ResetAction(working + done, true)));
    hide ResetCurrentRound;
    RolledBackIs(env, s, restarted, now);
  }

  lemma RolledBackIs(env: Environment, s: State, restarted: Roster, now: Time)
    requires s.height.Some? && 0 < s.height.value
    ensures var s' := RolledBack(env, s, restarted, now);
      && s'.height == Some(s.height.value - 1)
      && s'.IsRoundFinished() && s'.IsRoundAggregated() && s'.status == Initialized && s'.banned == s.banned
      && s'.metrics.value.nextRoundAfter == Some(now + env.queueWaitTime)
      && s'.queue == s.queue + Requeued(restarted, now) + Requeued(s.next, now)
  {
    hide Requeued;
  }

  lemma FreshKeys(env: Environment, roster: Roster, keys: seq<Participant>, all: set<Participant>, height: nat)
    requires FreshRoster(env, roster, keys, all, height)
    ensures roster.Keys == all
    ensures forall p :: p in roster ==> roster[p].roundHeight == height
  {
  }

  lemma RequeueAll(queue: map<Participant, QueueEntry>, round: Roster, restarted: Roster, next: Roster, now: Time, height: nat)
    requires Owners(round, restarted, height)
    ensures JoinedQueue(queue, round, next, queue + Requeued(restarted, now) + Requeued(next, now), height, now)
  {
  }

  /**
    A reset that keeps the round gives the M remaining contributors all of its work again: no
    locks, and every (chunk, id in 1 .. M) task assigned to exactly one of them. The queue, who is
    banned and who was dropped stay as they are.
   */
  lemma ResetReassignsAll(env: Environment, s: State, working: seq<Participant>, done: seq<Participant>, now: Time, t: Task)
    requires Sound(env, s) && Restartable(env, s) && ResetOrder(s, working, done) && working + done != []
    ensures var (s', r) := ResetCurrentRound(env, s, false, working, done, now); var m := |working + done|;
      && r == Ok(ResetAction([], false))
      && s'.current.Keys == Everyone(s).Keys
      && s'.height == s.height && s'.status == Initialized && s'.pendingVerification == map[] && s'.Finished() == map[]
      && s'.queue == s.queue && s'.banned == s.banned && s'.dropped == s.dropped
      && (forall p :: p in s'.current ==> s'.current[p].reliability == Everyone(s)[p].reliability && s'.current[p].locked == {})
      && (InRange(env, m, t) <==> exists p :: p in s'.current && t in s'.current[p].assignedTasks)
      && (forall p, q :: p in s'.current && q in s'.current ==>
            t in s'.current[p].assignedTasks && t in s'.current[q].assignedTasks ==> p == q)
  {
    assert Listed(s.current) && Listed(s.finished[s.height.value]);
    assert s.Finished() == s.finished[s.height.value];
    hide Sound;
    ResetCovers(env, s, false, working, done, now);
    RerunShape(env, s, working, done, now);
    var s', keys := ResetCurrentRound(env, s, false, working, done, now).0, working + done;
    hide ResetCurrentRound, ResetOrder, Restartable;
    FreshShares(env, s'.current, keys, s.current.Keys + s.Finished().Keys, s.height.value, t);
    FreshKeys(env, s'.current, keys, s.current.Keys + s.Finished().Keys, s.height.value);
    hide FreshRoster;
  }

  lemma RerunShape(env: Environment, s: State, working: seq<Participant>, done: seq<Participant>, now: Time)
    requires Restartable(env, s) && ResetOrder(s, working, done) && working + done != []
    requires Listed(s.current) && Listed(s.finished[s.height.value])
    ensures var s' := ResetCurrentRound(env, s, false, working, done, now).0;
      && Owners(Everyone(s), s'.current, s.height.value) && s'.status == Initialized
      && s'.queue == s.queue && s'.banned == s.banned && s'.dropped == s.dropped
  {
    RestartOwners(env, s, working, done, now);
    hide Owners, Everyone, Restart, Listed, ResetOrder;
    assert |Members(s, working, done)| == |working + done|;
    hide Members;
  }

  lemma FreshShares(env: Environment, roster: Roster, keys: seq<Participant>, all: set<Participant>, height: nat, t: Task)
    requires FreshRoster(env, roster, keys, all, height) && keys != []
    ensures forall p :: p in roster ==> roster[p].locked == {}
    ensures InRange(env, |keys|, t) <==> exists p :: p in roster && t in roster[p].assignedTasks
    ensures forall p, q :: p in roster && q in roster && t in roster[p].assignedTasks && t in roster[q].assignedTasks ==> p == q
  {
    var n := |keys|;
    forall p | p in roster ensures roster[p].locked == {} && n <= env.chunks
    ensures t in roster[p].assignedTasks <==>
      InRange(env, n, t) && Indices(keys)[p] == Owner(t.chunk, t.contribution, env.chunks, n)
    {
      assert Fresh(env, p, roster[p], Indices(keys)[p], n, height);
      EveryPairOnce(t.chunk, t.contribution, Indices(keys)[p], env.chunks, n);
    }
    if InRange(env, n, t) {
      assert keys[0] in roster;
      assert Taken(Indices(keys), Owner(t.chunk, t.contribution, env.chunks, n));
      var p :| p in Indices(keys) && Indices(keys)[p] == Owner(t.chunk, t.contribution, env.chunks, n);
      assert p in roster && t in roster[p].assignedTasks;
    }
  }
}
