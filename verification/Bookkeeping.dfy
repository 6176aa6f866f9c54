/**
  What is written down and taken back: locks and tasks that are rolled back, work that is disposed
  after a drop, who was dropped and who replaces them, aggregations that are cancelled, bans that
  are lifted, and the same for locks and aggregates in storage.
 */
module Bookkeeping {
  import opened Wrappers
  import opened Tasks
  import opened Lists
  import opened Participants
  import opened Ceremony
  import opened Conservation
  import opened Phase2
  import opened Codec
  import opened Stores
  import opened Joint
  import opened WorkOrder
  import opened Progress

  // ----- locks and tasks of one contributor

  /** A chunk is locked only for a task that is at work on it and not completed yet. */
  lemma LocksOwnWork(info: ParticipantInfo, chunk: nat)
    requires info.id.Contributor?
    ensures info.AcquiredLock(chunk).Ok? <==>
      && info.Activity().Ok? && chunk !in info.locked
      && (exists t :: t in info.pendingTasks && t.chunk == chunk) && forall t :: t in info.completedTasks ==> t.chunk != chunk
  {
    hide ParticipantInfo.Activity;
  }

  /** A contributor completes a task that is at work and not to do, on a chunk it has locked and completed nothing of. */
  lemma CompletesOwnWork(info: ParticipantInfo, task: Task)
    requires info.id.Contributor?
    ensures info.CompletedTask(task).Ok? <==>
      && info.Activity().Ok? && task.chunk in info.locked && task in info.pendingTasks && task !in info.assignedTasks
      && forall t :: t in info.completedTasks ==> t.chunk != task.chunk
  {
    hide ParticipantInfo.Activity, Without;
  }

  /** A contributor is done when it has completed something and has nothing to do, at work, locked or to dispose. */
  lemma FinishesIff(info: ParticipantInfo, now: Time)
    requires info.id.Contributor?
    ensures info.Finish(now).Ok? <==>
      && info.Activity().Ok? && info.locked == {} && info.completedTasks != []
      && info.assignedTasks == [] && info.pendingTasks == [] && info.disposingTasks == []
    ensures info.Finish(now).Ok? ==> info.Finish(now).value.IsFinished() && info.Finish(now).value.Activity().Err?
  {
  }

  /** A completion whose task waits for verification already is refused, after the record has changed. */
  lemma SecondCompletion(env: Environment, s: State, p: Participant, task: Task)
    requires p.Contributor? && p in s.current && task.chunk <= env.chunks && s.current[p].CompletedTask(task).Ok?
    ensures var (s', r) := CompletedTask(env, s, p, task);
      && p in s'.current && task in s'.current[p].completedTasks && task.chunk !in s'.current[p].locked
      && (r.Ok? <==> task !in s.pendingVerification && env.coordinatorVerifiers != [])
      && (r.Err? ==> s'.pendingVerification == s.pendingVerification)
      && (r.Ok? ==> s'.pendingVerification == s.pendingVerification[task := env.coordinatorVerifiers[0]])
  {
    hide Without, ParticipantInfo.Activity;
  }

  /** Fetching a task, locking its chunk and rolling the lock back leaves the record as it was. */
  lemma LockRolledBack(info: ParticipantInfo, b: nat, chunks: nat, n: nat)
    requires Conserved(info, b, chunks, n) && info.id.Contributor? && info.Activity().Ok? && info.assignedTasks != []
    requires info.assignedTasks[0].chunk !in info.locked
    ensures var task := info.assignedTasks[0];
      var locked := info.PopTask().value.0.AcquiredLock(task.chunk);
      locked.Ok? && locked.value.locked == info.locked + {task.chunk} && locked.value.RollbackLockedTask(task) == (info, Ok(()))
  {
    var task := info.assignedTasks[0];
    FirstAlone(info, b, chunks, n);
    hide Conserved;
    PutBack(info);
    var popped := info.PopTask().value.0;
    assert task in popped.pendingTasks && popped.pendingTasks == info.pendingTasks + [task];
    DroppedLast(info.pendingTasks, task);
    var locked := popped.(locked := info.locked + {task.chunk});
    assert popped.AcquiredLock(task.chunk) == Ok(locked);
    assert info.locked + {task.chunk} - {task.chunk} == info.locked;
    assert locked.(locked := info.locked) == popped;
    assert info.assignedTasks == [task] + info.assignedTasks[1..];
    hide Without, HasChunk;
  }

  /** The first assigned task is the only one of the record on its chunk. */
  lemma FirstAlone(info: ParticipantInfo, b: nat, chunks: nat, n: nat)
    requires Conserved(info, b, chunks, n) && info.assignedTasks != []
    ensures var task := info.assignedTasks[0];
      && task !in info.pendingTasks && task !in info.completedTasks && task !in info.assignedTasks[1..]
      && !HasChunk(info.completedTasks, task.chunk)
  {
    var task := info.assignedTasks[0];
    BucketCount(b, chunks, n, task);
    InMultiset(info.pendingTasks, task);
    InMultiset(info.completedTasks, task);
    InMultiset(info.assignedTasks[1..], task);
    assert info.assignedTasks == [task] + info.assignedTasks[1..];
    assert multiset(info.assignedTasks)[task] == 1 + multiset(info.assignedTasks[1..])[task];
    assert Held(info)[task] <= 1;
    forall u | u in info.completedTasks && u.chunk == task.chunk ensures false {
      HeldInBucket(info, b, chunks, n, u);
      HeldInBucket(info, b, chunks, n, task);
      TaskInBucket(b, u, chunks, n);
      TaskInBucket(b, task, chunks, n);
    }
  }

  // ----- work that is disposed

  ghost function Times(tasks: seq<Task>, t: Task): nat { multiset(tasks)[t] }

  /**
    A drop sorts the work of everybody else. What was at work stays so or is to be disposed, as its
    chunk is not, or is, among the lost ones; what was completed stays so or is disposed of, as it
    was not, or was, built on a lost contribution; nothing is lost or doubled.
   */
  lemma DropSortsWork(env: Environment, lost: map<nat, nat>, n: nat, info: ParticipantInfo, t: Task)
    requires TaskList(info.bucket, env.chunks, n).TaskOk?
    ensures var info' := Affected(env, lost, n, info);
      && Times(info'.pendingTasks, t) + Times(info'.disposingTasks, t) == Times(info.pendingTasks, t)
      && (t in info'.pendingTasks ==> t.chunk !in lost) && (t in info'.disposingTasks ==> t.chunk in lost)
      && Times(info'.completedTasks, t) + Times(info'.disposedTasks, t)
           == Times(info.completedTasks, t) + Times(info.disposedTasks, t)
      && (t in info'.completedTasks && t.chunk in lost ==> t.contribution <= lost[t.chunk])
      && (Times(info'.disposedTasks, t) > Times(info.disposedTasks, t) ==> t.chunk in lost && lost[t.chunk] < t.contribution)
      && info' == info.(assignedTasks := info'.assignedTasks, pendingTasks := info'.pendingTasks,
                        completedTasks := info'.completedTasks, disposingTasks := info'.disposingTasks,
                        disposedTasks := info'.disposedTasks)
  {
    FilterCount(info.pendingTasks, (u: Task) => u.chunk in lost, t);
    FilterCount(info.pendingTasks, (u: Task) => u.chunk !in lost, t);
    FilterCount(info.completedTasks, (u: Task) => !BuiltOn(lost, u), t);
    FilterCount(info.completedTasks, (u: Task) => BuiltOn(lost, u), t);
    InMultiset(Affected(env, lost, n, info).pendingTasks, t);
    InMultiset(Affected(env, lost, n, info).disposingTasks, t);
    InMultiset(Affected(env, lost, n, info).completedTasks, t);
    hide Filter, TaskList, HasChunk;
  }

  /** Disposing of a task takes it off the list of those to dispose, once and for all, and releases its chunk. */
  lemma DisposalEnds(info: ParticipantInfo, task: Task, t: Task)
    ensures info.DisposeTask(task).Ok? <==> info.Activity().Ok? && task.chunk in info.locked && task in info.disposingTasks
    ensures info.DisposeTask(task).Ok? ==>
      var info' := info.DisposeTask(task).value;
      && task.chunk !in info'.locked && info'.locked + {task.chunk} == info.locked
      && Times(info'.disposingTasks, t) == (if t == task then 0 else Times(info.disposingTasks, t))
      && Times(info'.disposedTasks, t) == Times(info.disposedTasks, t) + (if t == task then 1 else 0)
      && info' == info.(locked := info'.locked, disposingTasks := info'.disposingTasks, disposedTasks := info'.disposedTasks)
  {
    FilterCount(info.disposingTasks, (u: Task) => u != task, t);
    hide Filter, ParticipantInfo.Activity;
  }

  // ----- who was dropped, and who comes instead

  /** The record of the dropped contributor, marked with the time. */
  ghost predicate Remembers(s: State, s': State, p: Participant, now: Time) {
    && p in s.current && |s'.dropped| == |s.dropped| + 1 && s'.dropped[..|s.dropped|] == s.dropped
    && s'.dropped[|s.dropped|] == s.current[p].(droppedAt := Some(now))
  }

  /**
    A successful drop of a member is remembered, unless it takes the round back; either way the rest
    of the ceremony stays: the queue, if the round goes on, and who is banned.
   */
  lemma DropRemembered(env: Environment, s: State, p: Participant, working: seq<Participant>, done: seq<Participant>, now: Time)
    requires DropOrder(env, s, p, working, done, now) && DropsMember(s, p)
    ensures var (s', r) := DropParticipant(env, s, p, working, done, now);
      r.Ok? ==>
        && (if r.value.Reset? && r.value.rollback then s'.dropped == [] else Remembers(s, s', p, now) && s'.queue == s.queue)
        && s'.banned == s.banned
  {
    var s1 := AfterDrop(env, s, p, now);
    AfterDropRemembers(env, s, p, now);
    hide AfterDrop, DropGuard, BucketsKnown;
    if env.coordinatorContributors == [] {
      ResetRemembers(env, s1, working, done, now);
    } else {
      ReplacementRemembers(env, s1, s.current[p].bucket, now);
    }
    hide ResetCurrentRound, AddReplacement, ResetOrder;
  }

  lemma AfterDropRemembers(env: Environment, s: State, p: Participant, now: Time)
    requires DropGuard(s, p).Ok? && BucketsKnown(env, s.current, s.metrics.value.contributors)
    ensures var s1 := AfterDrop(env, s, p, now); Remembers(s, s1, p, now) && s1.queue == s.queue && s1.banned == s.banned
  {
    hide Affected, TaskList;
  }

  lemma ResetRemembers(env: Environment, s: State, working: seq<Participant>, done: seq<Participant>, now: Time)
    requires ResetOrder(s, working, done)
    ensures var (s', r) := ResetCurrentRound(env, s, false, working, done, now);
      r.Ok? ==> s'.banned == s.banned
                && if r.value.rollback then s'.dropped == [] else s'.dropped == s.dropped && s'.queue == s.queue
  {
    hide Restart, Members, ResetOrder, Requeued;
  }

  lemma ReplacementRemembers(env: Environment, s: State, bucket: nat, now: Time)
    ensures var s' := AddReplacement(env, s, bucket, now).0;
      s'.dropped == s.dropped && s'.queue == s.queue && s'.banned == s.banned
  {
    hide TaskList, LeastLoaded;
  }

  /** Whoever replaces a contributor has its bucket, with the whole list of tasks to do, and reliability 10. */
  lemma ReplacementIs(env: Environment, s: State, bucket: nat, now: Time)
    requires env.Valid() && env.coordinatorContributors != [] && s.metrics.Some? && 0 < s.Height()
    requires ValidBucket(bucket, env.chunks, s.metrics.value.contributors)
    ensures var (s', r) := AddReplacement(env, s, bucket, now);
      && r.Ok? && r.value in env.coordinatorContributors && r.value in s'.current
      && var info := s'.current[r.value];
      && info.id == r.value && info.roundHeight == s.Height() && info.reliability == 10 && info.bucket == bucket
      && info.startedAt == Some(now) && info.Activity().Ok?
      && info.locked == {} && info.pendingTasks == [] && info.completedTasks == []
      && (forall t :: t in info.assignedTasks <==>
            t.chunk < env.chunks && t.contribution == ContributionId(bucket, t.chunk, env.chunks, s.metrics.value.contributors))
      && forall q :: q in s.current && q != r.value ==> q in s'.current && s'.current[q] == s.current[q]
  {
    ReplacementStarts(env, s, bucket, now);
    var n := s.metrics.value.contributors;
    forall t ensures t in BucketTasks(bucket, env.chunks, n) <==>
      t.chunk < env.chunks && t.contribution == ContributionId(bucket, t.chunk, env.chunks, n)
    {
      TaskInBucket(bucket, t, env.chunks, n);
    }
    hide BucketTasks, LeastLoaded, ContributionId;
  }

  // ----- aggregations and bans

  /** An aggregation that has started cannot start again; cancelling it leaves everything as it was. */
  lemma CancelUndoesStart(env: Environment, s: State, now: Time, later: Time)
    requires AggregatingCurrentRound(s, now).1.Ok?
    ensures var s1 := AggregatingCurrentRound(s, now).0;
      && IsAggregating(s1) && AggregatingCurrentRound(s1, later) == (s1, Err(RoundAggregationFailed))
      && RollbackAggregatingCurrentRound(s1) == (s, Ok(()))
      && AggregatedCurrentRound(env, s1, later).1.Ok?
  {
  }

  /** Once the ban is lifted, joining depends on everything but the ban; other bans stay. */
  lemma UnbanReadmits(env: Environment, s: State, p: Participant, reliability: nat, now: Time)
    ensures var s1 := UnbanParticipant(s, p);
      && (AddToQueue(env, s1, p, reliability, now).1.Ok? <==>
            p.Contributor? && p !in s.queue && p !in s.next && (env.allowCurrentInQueue || p !in s.current))
      && (forall q :: q != p ==> (q in s1.banned <==> q in s.banned))
      && s1 == s.(banned := s1.banned)
  {
  }

  // ----- storage

  /** A lock puts the response file in place, so that nobody can lock the chunk again; disposing undoes it. */
  lemma LockThenDispose(env: Environment, t: Store, c: nat, p: Participant, blank: Bytes)
    requires CanLock(env, t, c, p)
    ensures var k := |t.rounds[t.height].chunks[c].verified|;
      var t' := WithLock(env, t, c, p, blank);
      && t'.files == t.files[Locator(t.height, c, k, false) := blank]
      && (forall q :: !CanLock(env, t', c, q))
      && Disposed(t', Task(c, k)) == t
  {
    var chunk := t.rounds[t.height].chunks[c];
    var file := Locator(t.height, c, |chunk.verified|, false);
    var t' := WithLock(env, t, c, p, blank);
    assert t.files[file := blank] - {file} == t.files;
    assert t'.rounds[t.height].chunks[c].(holder := None) == chunk;
    var round := t.rounds[t.height];
    assert t'.rounds[t.height].(chunks := t'.rounds[t.height].chunks[c := chunk]) == round;
    assert t'.rounds[t.height := round] == t.rounds;
    hide Round.LocksOf;
  }

  /** Every contribution of the chunk is there and verified, nobody has it locked, and its final files are in place. */
  ghost predicate ReadyChunk(t: Store, c: nat)
    requires t.HasChunk(c)
  {
    var chunk, n := t.rounds[t.height].chunks[c], |t.rounds[t.height].contributors|;
    && chunk.holder.None? && |chunk.verified| == n + 1 && (forall i :: 0 <= i <= n ==> chunk.verified[i])
    && Locator(t.height, c, n, false) in t.files && Locator(t.height + 1, c, 0, true) in t.files
  }

  /**
    A round is aggregated after the attempt exactly when all of its chunks are ready and the
    aggregation succeeds. Other rounds are not touched, nor is a round that was left.
   */
  lemma AggregatedIff(t: Store, succeeds: bool)
    requires 0 < t.height && t.height in t.rounds
    ensures var t', h := WithAggregate(t, succeeds), t.height; var round := t.rounds[h];
      && t' == t.(aggregated := t'.aggregated) && (forall r :: r != h ==> (r in t'.aggregated <==> r in t.aggregated))
      && (h + 1 in t.rounds ==> t' == t)
      && (h + 1 !in t.rounds ==>
            (h in t'.aggregated <==> succeeds && forall c :: 0 <= c < |round.chunks| ==> ReadyChunk(t, c)))
  {
    var round := t.rounds[t.height];
    forall c | 0 <= c < |round.chunks|
      ensures ReadyChunk(t, c) <==> round.CompleteAt(c) && FinalPair(t.files, t.height, c, |round.contributors|)
    {
    }
    hide Round.CompleteAt, FinalPair, ReadyChunk;
  }

  /**
    When the next round opens, the one before is aggregated and complete, unless it is the initial one;
    every chunk of the new one has its first challenge and no work on it; its contributors are as given,
    no one twice.
   */
  lemma OpenedRound(env: Environment, t: Store, contributors: seq<Participant>)
    requires Orderly(t, env.chunks)
    ensures var t', h := WithNextRound(env, t, contributors), t.height;
      t' != t ==>
        && (h == 0 || (h in t.aggregated && t.rounds[h].Complete()))
        && t'.height == h + 1 && h + 1 !in t.rounds && t'.rounds == t.rounds[h + 1 := t'.rounds[h + 1]]
        && t'.files == t.files && t'.aggregated == t.aggregated
        && var round := t'.rounds[h + 1];
        && round.contributors == contributors != [] && Distinct(contributors) && |round.chunks| == env.chunks > 0
        && forall c :: 0 <= c < env.chunks ==>
             FirstChallenge(h + 1, c) in t.files && round.chunks[c] == Chunk(None, [true], [])
  {
    if CanOpen(env, t, contributors) {
      assert t.height == 0 || Finished(t, t.height);
    }
  }

  /** A response that is refused is erased, so that its contributor can make it again; nothing else changes. */
  lemma RefusedResponseErased(env: Environment, hash: Bytes -> Hash, b: Both, p: Participant, c: nat, signed: bool)
    requires InStep(env, b) && IsCurrent(b.x.s, p) && Working(b.x.s) && c <= env.chunks && b.t.HasChunk(c)
    requires b.x.view.Running? && b.t.rounds[b.t.height].chunks[c].holder == Some(p) && !CanContribute(hash, b.t, c, p, signed)
    ensures var b' := TryContribute(env, hash, b, p, c, signed);
      && Locator(b.t.height, c, |b.t.rounds[b.t.height].chunks[c].verified|, false) !in b'.t.files
      && b' == Both(b.x, b.t.(files := b'.t.files))
      && forall file :: file in b.t.files && file != Locator(b.t.height, c, |b.t.rounds[b.t.height].chunks[c].verified|, false) ==>
           file in b'.t.files && b'.t.files[file] == b.t.files[file]
  {
    hide InStep, CanContribute, Working, OnChunk;
    HolderPending(env, b, p, c);
  }

  /** The holder of a lock has just the next task of the chunk at work on it, and nothing to dispose. */
  lemma HolderPending(env: Environment, b: Both, p: Participant, c: nat)
    requires InStep(env, b) && p in b.x.s.current && b.t.HasChunk(c) && b.x.view.Running?
    requires b.t.rounds[b.t.height].chunks[c].holder == Some(p)
    ensures var info := b.x.s.current[p];
      && c in info.locked && OnChunk(info.disposingTasks, c) == [] && OnChunk(info.pendingTasks, c) == [NextTask(b.t, c)]
  {
    var chunk, info := b.t.rounds[b.t.height].chunks[c], b.x.s.current[p];
    assert ChunkInStep(b.x.s, chunk, c) && HoldsLock(b.x.s, chunk, c, p) by { hide Good, Orderly, Undisturbed; }
    var task := Task(c, |chunk.verified|);
    MemberInStep(env, b, p);
    hide InStep, Good, ChunkInStep, OnChunk;
    forall u | u in info.pendingTasks && u.chunk == c ensures u == task {
      OneOfChunk(env, b.x, p, u, task);
    }
    PendingOnce(env, b.x, p, task);
    OnlyOnChunk(info.pendingTasks, task);
    OnChunkEmpty(info.disposingTasks, c);
  }
}
