/**
  Scheduler and storage together. The coordinator keeps who has done what in its state, and the
  progress of every chunk in storage; each operation changes both. As long as nobody is replaced the
  two stay in step, so that a round that the state shows as finished is complete in storage.
 */
module Joint {
  import opened Wrappers
  import opened Tasks
  import opened Lists
  import opened Participants
  import opened Ceremony
  import opened Rounds
  import opened Conservation
  import opened Drops
  import opened Phase2
  import opened Codec
  import opened Stores
  import StoredDrops

  /** An execution of the scheduler and the store beside it. */
  datatype Both = Both(x: Exec, t: Store)

  // ----- the operations of the coordinator

  predicate IsAggregating(s: State) {
    && s.metrics.Some? && !s.metrics.value.aggregated
    && s.metrics.value.startedAggregation.Some? && s.metrics.value.finishedAggregation.None?
  }

  /** The round is open for work: not finished, and neither being aggregated nor aggregated. */
  predicate Working(s: State) { !s.IsRoundFinished() && !IsAggregating(s) && !s.IsRoundAggregated() }

  predicate IsCurrent(s: State, p: Participant) { p.Contributor? && p !in s.banned && p in s.current }

  /** Fetches the next task, locks its chunk in storage, and records the lock; or puts the task back. */
  ghost function TryLock(env: Environment, b: Both, p: Participant, blank: Bytes): Both {
    var s := b.x.s;
    if !IsCurrent(s, p) || !Working(s) || FetchTask(env, s, p).1.Err? then b
    else
      var task, x1 := FetchTask(env, s, p).1.value, Next(env, b.x, Fetch(p));
      if !b.t.HasChunk(task.chunk) then Both(x1, b.t)
      else if task.contribution > |b.t.rounds[b.t.height].chunks[task.chunk].verified| then
        Both(Next(env, x1, Unfetch(p, task)), b.t)
      else if !CanLock(env, b.t, task.chunk, p) then
        Both(Next(env, x1, Unfetch(p, task)), b.t)
      else LockBoth(env, Both(x1, b.t), p, task.chunk, blank)
  }

  ghost function LockBoth(env: Environment, b: Both, p: Participant, c: nat, blank: Bytes): Both {
    Both(Next(env, b.x, Lock(p, c)), WithLock(env, b.t, c, p, blank))
  }

  function OnChunk(tasks: seq<Task>, c: nat): seq<Task> {
    Filter(tasks, (t: Task) => t.chunk == c)
  }

  /** Accepts a response in storage and completes its task; a refused response is erased. */
  ghost function TryContribute(env: Environment, hash: Bytes -> Hash, b: Both, p: Participant, c: nat, signed: bool): Both {
    var s, t := b.x.s, b.t;
    if c > env.chunks || !IsCurrent(s, p) || !Working(s) || c !in s.current[p].locked then b
    else
      var disposing, pending := OnChunk(s.current[p].disposingTasks, c), OnChunk(s.current[p].pendingTasks, c);
      if |disposing| > 1 then b
      else if |disposing| == 1 then
        if DisposedTask(env, s, p, disposing[0]).1.Err? then b
        else Both(Next(env, b.x, Dispose(p, disposing[0])), Disposed(t, disposing[0]))
      else if |pending| != 1 then b
      else if CanContribute(hash, t, c, p, signed) then
        Both(Next(env, b.x, Complete(p, Task(c, |t.rounds[t.height].chunks[c].verified|))), WithResponse(hash, t, c, p, signed))
      else Both(b.x, Erased(t, Locator(t.height, c, pending[0].contribution, false)))
  }

  /** Accepts the next challenge in storage and ends the wait for it; on a refusal the challenge is erased. */
  ghost function TryVerify(env: Environment, hash: Bytes -> Hash, b: Both, v: Participant, task: Task, signed: bool): Both {
    if v.Contributor? || task.chunk > env.chunks || !Working(b.x.s) then b
    else if CanVerify(hash, b.t, task, v, signed) then
      Both(Next(env, b.x, Complete(v, task)), WithChallenge(hash, b.t, task, v, signed))
    else if b.t.height !in b.t.rounds then b
    else Both(b.x, Erased(b.t, NextChallenge(b.t.height, task.chunk, task.contribution, |b.t.rounds[b.t.height].contributors|)))
  }

  /** Aggregates a finished round in storage; a failure takes the start of the aggregation back. */
  ghost function TryAggregate(env: Environment, b: Both, succeeds: bool, now: Time): Both {
    var s := b.x.s;
    if !s.IsRoundFinished() || s.IsRoundAggregated() || AggregatingCurrentRound(s, now).1.Err? then b
    else
      var x1, t' := Next(env, b.x, StartAggregation(now)), WithAggregate(b.t, succeeds);
      if s.Height() == 0 then Both(Next(env, x1, EndAggregation(now)), b.t)
      else if b.t.height in t'.aggregated then Both(Next(env, x1, EndAggregation(now)), t')
      else Both(Next(env, x1, CancelAggregation), t')
  }

  /** Precommits, opens the next round in storage, and commits; a refusal rolls the precommit back. */
  ghost function TryAdvance(env: Environment, b: Both, order: seq<Participant>, now: Time): Both
    requires ReliabilityOrder(b.x.s.queue, b.x.s.Height() + 1, order)
  {
    var s := b.x.s;
    if b.t.height != s.Height() || !s.IsRoundFinished() || (s.Height() > 0 && !s.IsRoundAggregated()) then b
    else
      var x1 := Next(env, b.x, PrecommitRound(s.Height() + 1, order, now));
      if PrecommitNextRound(env, s, s.Height() + 1, order, now).1.Ok? && CanOpen(env, b.t, order)
      then Both(Next(env, x1, CommitRound), WithNextRound(env, b.t, order))
      else Both(Next(env, x1, RollbackRound(now)), b.t)
  }

  /** A forced reset, in the state and then in storage. */
  ghost function ForcedReset(env: Environment, b: Both, working: seq<Participant>, done: seq<Participant>, now: Time): Both
    requires ResetOrder(b.x.s, working, done)
  {
    var reset := ResetCurrentRound(env, b.x.s, true, working, done, now).1;
    if reset.Err? then b
    else Both(Next(env, b.x, ForceReset(working, done, now)), WithReset(b.t, reset.value).0)
  }

  // ----- being in step

  /** The lock of a chunk in storage is a lock in the state, on the task that is next for the chunk. */
  ghost predicate HoldsLock(s: State, chunk: Chunk, c: nat, p: Participant) {
    p in s.current && LockedFor(s.current[p], chunk, c) && chunk.Open()
  }

  /**
    The members of the round have completed exactly the contributions that storage has, and those
    that are not verified are exactly the ones waiting for verification.
   */
  ghost predicate ChunkInStep(s: State, chunk: Chunk, c: nat) {
    && 1 <= |chunk.verified|
    && Prefix(Everyone(s), c, |chunk.verified| - 1)
    && (forall id: nat :: Task(c, id) in s.pendingVerification <==> 1 <= id < |chunk.verified| && !chunk.verified[id])
    && (chunk.holder.Some? ==> HoldsLock(s, chunk, c, chunk.holder.value))
  }

  ghost predicate ChunksInStep(s: State, chunks: seq<Chunk>) {
    forall c :: 0 <= c < |chunks| ==> ChunkInStep(s, chunks[c], c)
  }

  /** Nobody has anything to dispose, and only tasks of the round wait for verification. */
  ghost predicate Undisturbed(env: Environment, s: State) {
    && (forall q :: q in s.current ==> s.current[q].disposingTasks == [])
    && forall task :: task in s.pendingVerification ==> task.chunk < env.chunks
  }

  ghost predicate InStep(env: Environment, b: Both) {
    && Good(env, b.x) && Orderly(b.t, env.chunks)
    && b.x.s.height == Some(b.t.height)
    && Undisturbed(env, b.x.s)
    && (b.x.view.Running? ==>
          && |b.t.rounds[b.t.height].contributors| == b.x.view.n
          && ChunksInStep(b.x.s, b.t.rounds[b.t.height].chunks))
    && (b.x.view.NoRound? ==> b.x.s.pendingVerification == map[] && (b.t.height == 0 || Finished(b.t, b.t.height)))
  }

  /** In step, a round that the state shows as finished is complete in storage. */
  lemma FinishedIsComplete(env: Environment, b: Both)
    requires InStep(env, b) && b.x.s.IsRoundFinished() && 0 < b.t.height
    ensures b.t.height in b.t.rounds && b.t.rounds[b.t.height].Complete()
  {
    if b.x.view.Running? {
      var round := b.t.rounds[b.t.height];
      forall c | 0 <= c < |round.chunks| ensures round.CompleteAt(c) {
        ChunkComplete(env, b, c);
      }
    }
  }

  lemma ChunkComplete(env: Environment, b: Both, c: nat)
    requires InStep(env, b) && b.x.s.IsRoundFinished() && 0 < b.t.height && b.x.view.Running? && c < env.chunks
    ensures b.t.HasChunk(c) && b.t.rounds[b.t.height].CompleteAt(c)
  {
    var round, n := b.t.rounds[b.t.height], b.x.view.n;
    var chunk := round.chunks[c];
    assert ChunkInStep(b.x.s, chunk, c) && Sequential(round, chunk) && 1 <= n;
    assert HasDone(Everyone(b.x.s), c, n) by {
      var p := HolderExists(env, b.x, Task(c, n));
      ShareInBucket(env, b.x, p, Task(c, n));
      FinishedShare(env, b.x, p, Task(c, n));
    }
    hide Good, HasDone, Everyone;
    assert |chunk.verified| == round.Expected();
    forall i | 0 <= i < |chunk.verified| ensures chunk.verified[i] {
      assert Task(c, i) !in b.x.s.pendingVerification;
    }
  }

  // ----- what keeps the two in step

  /** Nothing that matters to storage has changed. */
  lemma FrameInStep(env: Environment, b: Both, x': Exec)
    requires InStep(env, b) && Good(env, x') && x'.view == b.x.view
    requires x'.s.current == b.x.s.current && x'.s.finished == b.x.s.finished && x'.s.height == b.x.s.height
    requires x'.s.pendingVerification == b.x.s.pendingVerification
    ensures InStep(env, b.(x := x'))
  {
    hide Good, Orderly;
    assert Everyone(x'.s) == Everyone(b.x.s);
  }

  /** The same work done and the same waiting; locks that storage knows of are kept. */
  ghost predicate SameProgressOf(s: State, s': State, chunks: seq<Chunk>) {
    && s'.pendingVerification == s.pendingVerification
    && (forall c: nat, id: nat :: HasDone(Everyone(s'), c, id) <==> HasDone(Everyone(s), c, id))
    && forall c :: 0 <= c < |chunks| && chunks[c].holder.Some? && HoldsLock(s, chunks[c], c, chunks[c].holder.value) ==>
         HoldsLock(s', chunks[c], c, chunks[c].holder.value)
  }

  lemma ProgressInStep(s: State, s': State, chunks: seq<Chunk>)
    requires ChunksInStep(s, chunks) && SameProgressOf(s, s', chunks)
    ensures ChunksInStep(s', chunks)
  {
    hide HasDone, Everyone, HoldsLock;
    forall c | 0 <= c < |chunks| ensures ChunkInStep(s', chunks[c], c) {
      assert ChunkInStep(s, chunks[c], c);
    }
  }

  /** One record changed, its completed tasks as before. */
  lemma DoneSame(s: State, p: Participant, info: ParticipantInfo, c: nat, id: nat)
    requires p in s.current && p !in s.Finished() && info.completedTasks == s.current[p].completedTasks
    ensures HasDone(Everyone(WithInfo(s, p, info)), c, id) <==> HasDone(Everyone(s), c, id)
  {
    var s' := WithInfo(s, p, info);
    if q :| q in Everyone(s) && Task(c, id) in Everyone(s)[q].completedTasks {
      assert q in Everyone(s') && Task(c, id) in Everyone(s')[q].completedTasks;
    }
    if q :| q in Everyone(s') && Task(c, id) in Everyone(s')[q].completedTasks {
      assert q in Everyone(s) && Task(c, id) in Everyone(s)[q].completedTasks;
    }
  }

  /** The record keeps what storage knows of its locks. */
  ghost predicate KeepsLocks(info: ParticipantInfo, info': ParticipantInfo, chunks: seq<Chunk>, p: Participant) {
    forall c :: 0 <= c < |chunks| && chunks[c].holder == Some(p) && LockedFor(info, chunks[c], c) ==> LockedFor(info', chunks[c], c)
  }

  /** The record has the chunk locked and its next task pending. */
  predicate LockedFor(info: ParticipantInfo, chunk: Chunk, c: nat) {
    c in info.locked && Task(c, |chunk.verified|) in info.pendingTasks
  }

  lemma RecordInStep(env: Environment, b: Both, x': Exec, p: Participant, info: ParticipantInfo)
    requires InStep(env, b) && Good(env, x') && x'.view == b.x.view && b.x.view.Running?
    requires p in b.x.s.current && x'.s == WithInfo(b.x.s, p, info)
    requires info.completedTasks == b.x.s.current[p].completedTasks && info.disposingTasks == []
    requires KeepsLocks(b.x.s.current[p], info, b.t.rounds[b.t.height].chunks, p)
    ensures InStep(env, b.(x := x'))
  {
    var s, s', chunks := b.x.s, x'.s, b.t.rounds[b.t.height].chunks;
    MemberApart(env, b.x, p);
    UndisturbedRecord(env, s, p, info);
    RecordProgress(s, p, info, chunks);
    assert ChunksInStep(s, chunks);
    hide Good, Orderly, Undisturbed, ChunksInStep;
    ProgressInStep(s, s', chunks);
    assert s'.height == s.height && s'.pendingVerification == s.pendingVerification;
    hide WithInfo, SameProgressOf, KeepsLocks;
  }

  lemma UndisturbedRecord(env: Environment, s: State, p: Participant, info: ParticipantInfo)
    requires Undisturbed(env, s) && p in s.current && info.disposingTasks == []
    ensures Undisturbed(env, WithInfo(s, p, info))
  {
  }

  lemma RecordProgress(s: State, p: Participant, info: ParticipantInfo, chunks: seq<Chunk>)
    requires p in s.current && p !in s.Finished() && info.completedTasks == s.current[p].completedTasks
    requires KeepsLocks(s.current[p], info, chunks, p)
    ensures SameProgressOf(s, WithInfo(s, p, info), chunks)
  {
    var s' := WithInfo(s, p, info);
    forall c: nat, id: nat ensures HasDone(Everyone(s'), c, id) <==> HasDone(Everyone(s), c, id) {
      DoneSame(s, p, info, c, id);
    }
    hide HasDone, Everyone, LockedFor;
    forall c | 0 <= c < |chunks| && chunks[c].holder.Some? && HoldsLock(s, chunks[c], c, chunks[c].holder.value)
      ensures HoldsLock(s', chunks[c], c, chunks[c].holder.value)
    {
    }
  }

  lemma MemberApart(env: Environment, x: Exec, p: Participant)
    requires Good(env, x) && p in x.s.current
    ensures x.view.Running? && p !in x.s.Finished()
  {
    assert x.view.Running?;
    CoveredApart(env, x.s, x.view.n, x.view.bucket);
  }

  /** A task that a current member still has to do was done by nobody. */
  lemma NotYetDone(env: Environment, x: Exec, p: Participant, t: Task)
    requires Good(env, x) && p in x.s.current
    requires t in x.s.current[p].assignedTasks || t in x.s.current[p].pendingTasks
    ensures x.view.Running? && InRange(env, x.view.n, t)
    ensures !HasDone(Everyone(x.s), t.chunk, t.contribution)
  {
    MemberApart(env, x, p);
    ShareInBucket(env, x, p, t);
    var info := x.s.current[p];
    InMultiset(info.assignedTasks, t);
    InMultiset(info.pendingTasks, t);
    InMultiset(info.completedTasks, t);
    assert Share(x.s, p, t) == Held(info)[t];
    assert Bijection(x.view.bucket, x.view.n);
    assert t !in info.completedTasks;
    hide Good, Bijection;
    forall q | q in Everyone(x.s) && t in Everyone(x.s)[q].completedTasks ensures q == p {
      ShareInBucket(env, x, q, t);
      InMultiset(Everyone(x.s)[q].completedTasks, t);
    }
    assert t == Task(t.chunk, t.contribution);
  }

  // ----- locking

  /** Fetching, putting back and locking change the state and nothing else of an execution. */
  lemma NextFetch(env: Environment, x: Exec, p: Participant)
    ensures Next(env, x, Fetch(p)) == x.(s := FetchTask(env, x.s, p).0)
  {
  }

  lemma NextUnfetch(env: Environment, x: Exec, p: Participant, task: Task)
    ensures Next(env, x, Unfetch(p, task)) == x.(s := RollbackPendingTask(env, x.s, p, task).0)
  {
  }

  lemma NextLock(env: Environment, x: Exec, p: Participant, c: nat)
    ensures Next(env, x, Lock(p, c)) == x.(s := AcquiredLock(env, x.s, p, c).0)
  {
  }

  lemma FetchInStep(env: Environment, b: Both, p: Participant)
    requires InStep(env, b) && FetchTask(env, b.x.s, p).1.Ok?
    ensures InStep(env, b.(x := Next(env, b.x, Fetch(p))))
    ensures var s1, task := Next(env, b.x, Fetch(p)).s, FetchTask(env, b.x.s, p).1.value;
      && Next(env, b.x, Fetch(p)) == b.x.(s := s1) && s1.banned == b.x.s.banned
      && p in s1.current && task in s1.current[p].pendingTasks
  {
    hide Next, Good;
    var s, x1 := b.x.s, Next(env, b.x, Fetch(p));
    NextFetch(env, b.x, p);
    var task := FetchTask(env, s, p).1.value;
    var info := s.current[p].(assignedTasks := s.current[p].assignedTasks[1..], pendingTasks := s.current[p].pendingTasks + [task]);
    assert x1 == b.x.(s := WithInfo(s, p, info));
    StepGood(env, b.x, Fetch(p));
    hide Orderly, FetchTask;
    MemberApart(env, b.x, p);
    assert s.current[p].disposingTasks == [];
    assert KeepsLocks(s.current[p], info, b.t.rounds[b.t.height].chunks, p);
    RecordInStep(env, b, x1, p, info);
    hide InStep;
  }

  /** A task put back: locks that storage knows of concern other tasks. */
  lemma UnfetchInStep(env: Environment, b: Both, p: Participant, task: Task)
    requires InStep(env, b) && p in b.x.s.current && task in b.x.s.current[p].pendingTasks
    ensures InStep(env, b.(x := Next(env, b.x, Unfetch(p, task))))
  {
    hide InStep, Next, Good, KeepsLocks;
    MemberInStep(env, b, p);
    var x1, info := Next(env, b.x, Unfetch(p, task)), b.x.s.current[p];
    UnfetchGood(env, b.x, p, task);
    if task.chunk > env.chunks {
      FrameInStep(env, b, x1);
    } else {
      RollbackLocks(info, task, b.t.rounds[b.t.height].chunks, p);
      RecordInStep(env, b, x1, p, info.RollbackPendingTask(task).0);
    }
  }

  lemma MemberInStep(env: Environment, b: Both, p: Participant)
    requires InStep(env, b) && p in b.x.s.current
    ensures Good(env, b.x) && b.x.view.Running? && b.t.height in b.t.rounds && b.x.s.current[p].disposingTasks == []
  {
    MemberApart(env, b.x, p);
    hide Good, ChunksInStep;
  }

  lemma UnfetchGood(env: Environment, x: Exec, p: Participant, task: Task)
    requires Good(env, x) && p in x.s.current && task in x.s.current[p].pendingTasks
    ensures Good(env, Next(env, x, Unfetch(p, task)))
    ensures var info := x.s.current[p].RollbackPendingTask(task).0;
      Next(env, x, Unfetch(p, task)) == x.(s := if task.chunk > env.chunks then x.s else WithInfo(x.s, p, info))
  {
    NextUnfetch(env, x, p, task);
    InMultiset(x.s.current[p].pendingTasks, task);
    assert RollbackSafe(x.s.current[p], task, false);
    assert Careful(env, x.s, Unfetch(p, task));
    hide Next, Good, Careful, RollbackSafe;
    StepGood(env, x, Unfetch(p, task));
  }

  lemma RollbackLocks(info: ParticipantInfo, task: Task, chunks: seq<Chunk>, p: Participant)
    ensures var info' := info.RollbackPendingTask(task).0;
      && info'.completedTasks == info.completedTasks && info'.disposingTasks == info.disposingTasks
      && KeepsLocks(info, info', chunks, p)
  {
    var info' := info.RollbackPendingTask(task).0;
    forall c | 0 <= c < |chunks| && LockedFor(info, chunks[c], c) ensures LockedFor(info', chunks[c], c) {
      FilterMember(info.pendingTasks, t => t != task, Task(c, |chunks[c].verified|));
    }
  }

  /** A task within the next contribution of its chunk is the next contribution: all before it are done. */
  lemma NextInLine(env: Environment, b: Both, p: Participant, task: Task)
    requires InStep(env, b) && p in b.x.s.current && b.t.HasChunk(task.chunk)
    requires task in b.x.s.current[p].assignedTasks || task in b.x.s.current[p].pendingTasks
    requires task.contribution <= |b.t.rounds[b.t.height].chunks[task.chunk].verified|
    ensures task == Task(task.chunk, |b.t.rounds[b.t.height].chunks[task.chunk].verified|)
  {
    NotYetDone(env, b.x, p, task);
    var chunk := b.t.rounds[b.t.height].chunks[task.chunk];
    assert ChunkInStep(b.x.s, chunk, task.chunk);
    hide Good, Orderly, HasDone, Everyone;
  }

  /** Recording a lock: the state has it afterwards, whether it had it before or not. */
  lemma LockRecorded(env: Environment, x: Exec, p: Participant, task: Task)
    requires Good(env, x) && p.Contributor? && p in x.s.current && task in x.s.current[p].pendingTasks && task.chunk <= env.chunks
    ensures Next(env, x, Lock(p, task.chunk)) == x.(s := WithInfo(x.s, p, Locking(x.s.current[p], task.chunk)))
  {
    hide Next;
    MemberActive(env, x, p);
    var info := x.s.current[p];
    assert info.id == p && info.Activity().Ok?;
    OneTaskPerChunk(env, x, p, task);
    NextLock(env, x, p, task.chunk);
    hide Good, Active;
    LockState(env, x.s, p, task);
    hide AcquiredLock;
  }

  lemma LockState(env: Environment, s: State, p: Participant, task: Task)
    requires p.Contributor? && p in s.current && task.chunk <= env.chunks && s.current[p].id == p
    requires s.current[p].Activity().Ok?
    requires task in s.current[p].pendingTasks && !HasChunk(s.current[p].completedTasks, task.chunk)
    ensures AcquiredLock(env, s, p, task.chunk).0 == WithInfo(s, p, Locking(s.current[p], task.chunk))
  {
    var info, c := s.current[p], task.chunk;
    if c in info.locked {
      assert info.locked == info.locked + {c};
      assert s.current == s.current[p := info];
    }
  }

  /** A pending task is the only one that its contributor has on the chunk. */
  lemma OneTaskPerChunk(env: Environment, x: Exec, p: Participant, task: Task)
    requires Good(env, x) && p in x.s.current && task in x.s.current[p].pendingTasks
    ensures var info := x.s.current[p];
      && task !in info.assignedTasks && task !in info.completedTasks && !HasChunk(info.completedTasks, task.chunk)
  {
    MemberActive(env, x, p);
    var info, b, n := x.s.current[p], x.view.bucket[p], x.view.n;
    assert Conserved(info, b, env.chunks, n);
    hide Good, Active;
    RemovedOnce(info, b, env.chunks, n, task);
    forall u | u in info.completedTasks && u.chunk == task.chunk ensures u == task {
      HeldInBucket(info, b, env.chunks, n, u);
      HeldInBucket(info, b, env.chunks, n, task);
      TaskInBucket(b, u, env.chunks, n);
      TaskInBucket(b, task, env.chunks, n);
    }
  }

  /** A fetched task: its chunk locked in both places, or the task put back. */
  function PlaceLock(env: Environment, s: State, t: Store, p: Participant, task: Task, blank: Bytes): (State, Store) {
    if !t.HasChunk(task.chunk) then (s, t)
    else if task.contribution > |t.rounds[t.height].chunks[task.chunk].verified| || !CanLock(env, t, task.chunk, p)
    then (RollbackPendingTask(env, s, p, task).0, t)
    else (AcquiredLock(env, s, p, task.chunk).0, WithLock(env, t, task.chunk, p, blank))
  }

  /** What locking does, told by the operations on the state and on the store. */
  lemma LockUnfolds(env: Environment, b: Both, p: Participant, blank: Bytes)
    ensures var s, b' := b.x.s, TryLock(env, b, p, blank);
      var (s1, r) := FetchTask(env, s, p);
      && b'.x.view == b.x.view && b'.x.log == b.x.log
      && (r.Err? ==> s1 == s)
      && if !IsCurrent(s, p) || !Working(s) || r.Err? then b' == b
         else (b'.x.s, b'.t) == PlaceLock(env, s1, b.t, p, r.value, blank)
  {
    assert FetchTask(env, b.x.s, p).1.Err? ==> FetchTask(env, b.x.s, p).0 == b.x.s;
    hide Next, Working, CanLock, FetchTask, RollbackPendingTask, AcquiredLock, WithLock;
    NextFetch(env, b.x, p);
    if FetchTask(env, b.x.s, p).1.Ok? {
      var x1, task := Next(env, b.x, Fetch(p)), FetchTask(env, b.x.s, p).1.value;
      NextUnfetch(env, x1, p, task);
      NextLock(env, x1, p, task.chunk);
    }
  }

  /** The lock in both places. */
  lemma LockedInStep(env: Environment, b: Both, p: Participant, task: Task, blank: Bytes)
    requires InStep(env, b) && IsCurrent(b.x.s, p) && task in b.x.s.current[p].pendingTasks
    requires CanLock(env, b.t, task.chunk, p)
    requires task.contribution <= |b.t.rounds[b.t.height].chunks[task.chunk].verified|
    ensures InStep(env, LockBoth(env, b, p, task.chunk, blank))
  {
    var c, chunk, x1 := task.chunk, b.t.rounds[b.t.height].chunks[task.chunk], Next(env, b.x, Lock(p, task.chunk));
    assert Orderly(b.t, env.chunks) && c <= env.chunks && chunk.Open();
    hide InStep, Good, Next, Orderly, HoldsLock, CanLock;
    LockedRecord(env, b, p, task);
    WithLockInStep(env, b.(x := x1), p, c, blank);
  }

  /** The lock in storage, once the state has it. */
  lemma WithLockInStep(env: Environment, b: Both, p: Participant, c: nat, blank: Bytes)
    requires InStep(env, b) && b.x.view.Running? && CanLock(env, b.t, c, p)
    requires HoldsLock(b.x.s, b.t.rounds[b.t.height].chunks[c], c, p)
    ensures InStep(env, b.(t := WithLock(env, b.t, c, p, blank)))
  {
    hide Good, Orderly, ChunksInStep, Undisturbed, HoldsLock;
    LockOrderly(env, b.t, env.chunks, c, p, blank);
    HolderInStep(b.x.s, b.t.rounds[b.t.height].chunks, c, p);
    BothInStep(env, b, b.x, WithLock(env, b.t, c, p, blank));
  }

  ghost function WithRecord(env: Environment, b: Both, p: Participant, c: nat): Both {
    b.(x := Next(env, b.x, Lock(p, c)))
  }

  /** The lock in the state alone. */
  lemma LockedRecord(env: Environment, b: Both, p: Participant, task: Task)
    requires InStep(env, b) && p.Contributor? && p in b.x.s.current && task in b.x.s.current[p].pendingTasks
    requires b.t.HasChunk(task.chunk) && task.chunk <= env.chunks && b.t.rounds[b.t.height].chunks[task.chunk].Open()
    requires task.contribution <= |b.t.rounds[b.t.height].chunks[task.chunk].verified|
    ensures var b1 := WithRecord(env, b, p, task.chunk);
      && b1.x.view.Running? && InStep(env, b1)
      && HoldsLock(b1.x.s, b.t.rounds[b.t.height].chunks[task.chunk], task.chunk, p)
  {
    hide InStep, Good, Next, Locking, KeepsLocks;
    NextInLine(env, b, p, task);
    MemberInStep(env, b, p);
    var x1, info, chunks := Next(env, b.x, Lock(p, task.chunk)), b.x.s.current[p], b.t.rounds[b.t.height].chunks;
    StepGood(env, b.x, Lock(p, task.chunk));
    LockRecorded(env, b.x, p, task);
    LockingKeeps(info, task.chunk, chunks, p);
    RecordInStep(env, b, x1, p, Locking(info, task.chunk));
  }

  /** The record with one more lock. */
  function Locking(info: ParticipantInfo, c: nat): ParticipantInfo {
    info.(locked := info.locked + {c})
  }

  lemma LockingKeeps(info: ParticipantInfo, c: nat, chunks: seq<Chunk>, p: Participant)
    ensures var info' := Locking(info, c);
      && c in info'.locked && info'.pendingTasks == info.pendingTasks
      && info'.completedTasks == info.completedTasks && info'.disposingTasks == info.disposingTasks
      && KeepsLocks(info, info', chunks, p)
  {
  }

  lemma HolderInStep(s: State, chunks: seq<Chunk>, c: nat, p: Participant)
    requires ChunksInStep(s, chunks) && c < |chunks| && HoldsLock(s, chunks[c], c, p)
    ensures ChunksInStep(s, chunks[c := chunks[c].(holder := Some(p))])
  {
    var chunks' := chunks[c := chunks[c].(holder := Some(p))];
    hide HasDone, Everyone;
    forall d | 0 <= d < |chunks'| ensures ChunkInStep(s, chunks'[d], d) {
      assert ChunkInStep(s, chunks[d], d);
    }
  }

  lemma LockInStep(env: Environment, b: Both, p: Participant, blank: Bytes)
    requires InStep(env, b)
    ensures InStep(env, TryLock(env, b, p, blank))
  {
    hide InStep, Next, FetchTask, CanLock, Working;
    if IsCurrent(b.x.s, p) && Working(b.x.s) && FetchTask(env, b.x.s, p).1.Ok? {
      FetchInStep(env, b, p);
      var task, b1 := FetchTask(env, b.x.s, p).1.value, b.(x := Next(env, b.x, Fetch(p)));
      assert IsCurrent(b1.x.s, p);
      if b.t.HasChunk(task.chunk) {
        if task.contribution <= |b.t.rounds[b.t.height].chunks[task.chunk].verified| && CanLock(env, b.t, task.chunk, p) {
          LockedInStep(env, b1, p, task, blank);
        } else {
          UnfetchInStep(env, b1, p, task);
        }
      }
    }
  }

  // ----- contributing

  lemma NextComplete(env: Environment, x: Exec, p: Participant, task: Task)
    ensures Next(env, x, Complete(p, task)).s == CompletedTask(env, x.s, p, task).0
    ensures Next(env, x, Complete(p, task)).view == x.view
  {
  }

  /** The record after completing its pending, locked task. */
  function CompletedInfo(info: ParticipantInfo, task: Task): ParticipantInfo {
    info.(locked := info.locked - {task.chunk}, pendingTasks := Without(info.pendingTasks, task),
          completedTasks := info.completedTasks + [task])
  }

  /** A task that is next in storage and locked in the state is completed without a refusal. */
  lemma CompletionSucceeds(env: Environment, x: Exec, p: Participant, task: Task)
    requires Good(env, x) && p.Contributor? && p in x.s.current && task.chunk <= env.chunks
    requires task in x.s.current[p].pendingTasks && task.chunk in x.s.current[p].locked && task !in x.s.pendingVerification
    ensures var (s', r) := CompletedTask(env, x.s, p, task);
      && r.Ok? && task in s'.pendingVerification
      && s' == WithInfo(x.s, p, CompletedInfo(x.s.current[p], task)).(pendingVerification := s'.pendingVerification)
      && s'.pendingVerification.Keys == x.s.pendingVerification.Keys + {task}
  {
    MemberActive(env, x, p);
    OneTaskPerChunk(env, x, p, task);
    assert x.s.current[p].Activity().Ok? && env.coordinatorVerifiers != [];
    hide Good, Active;
    CompletionState(env, x.s, p, task);
    hide *;
  }

  lemma CompletionState(env: Environment, s: State, p: Participant, task: Task)
    requires p.Contributor? && p in s.current && task.chunk <= env.chunks && env.coordinatorVerifiers != []
    requires s.current[p].CompletedTask(task) == Ok(CompletedInfo(s.current[p], task)) && task !in s.pendingVerification
    ensures var (s', r) := CompletedTask(env, s, p, task);
      && r.Ok? && task in s'.pendingVerification
      && s' == WithInfo(s, p, CompletedInfo(s.current[p], task)).(pendingVerification := s'.pendingVerification)
      && s'.pendingVerification.Keys == s.pendingVerification.Keys + {task}
  {
    hide CompletedInfo;
  }

  /** What is done after a completion: what was done before, and the task. */
  lemma DoneAfter(s: State, p: Participant, task: Task, c: nat, id: nat)
    requires p in s.current && p !in s.Finished()
    ensures HasDone(Everyone(WithInfo(s, p, CompletedInfo(s.current[p], task))), c, id) <==>
      HasDone(Everyone(s), c, id) || Task(c, id) == task
  {
    var s' := WithInfo(s, p, CompletedInfo(s.current[p], task));
    hide Without;
    assert Everyone(s').Keys == Everyone(s).Keys;
    forall q | q in Everyone(s)
      ensures Task(c, id) in Everyone(s')[q].completedTasks <==>
        Task(c, id) in Everyone(s)[q].completedTasks || (q == p && Task(c, id) == task)
    {
    }
    assert p in Everyone(s);
    if q :| q in Everyone(s) && Task(c, id) in Everyone(s)[q].completedTasks {
      assert Task(c, id) in Everyone(s')[q].completedTasks;
    }
    if Task(c, id) == task {
      assert Task(c, id) in Everyone(s')[p].completedTasks;
    }
  }

  /** The chunks after the contribution: one more on its chunk, the others as they were. */
  lemma ContributedInStep(s: State, s': State, chunks: seq<Chunk>, c: nat, p: Participant, chunk: Chunk)
    requires ChunksInStep(s, chunks) && c < |chunks| && p in s.current && p !in s.Finished()
    requires var task := Task(c, |chunks[c].verified|);
      && s' == WithInfo(s, p, CompletedInfo(s.current[p], task)).(pendingVerification := s'.pendingVerification)
      && s'.pendingVerification.Keys == s.pendingVerification.Keys + {task}
    requires chunk.holder.None? && chunk.verified == chunks[c].verified + [false]
    ensures ChunksInStep(s', chunks[c := chunk])
  {
    var task, chunks' := Task(c, |chunks[c].verified|), chunks[c := chunk];
    DoneAfterAll(s, s', p, task);
    hide HasDone, Everyone, HoldsLock, WithInfo, CompletedInfo;
    forall d | 0 <= d < |chunks'| ensures ChunkInStep(s', chunks'[d], d) {
      assert ChunkInStep(s, chunks[d], d);
      if d == c {
        NewestInStep(s, s', chunks[c], chunk, c);
      } else {
        OtherHolder(s, s', p, task, chunks[d], d);
        OtherInStep(s, s', task, chunks[d], d);
      }
    }
  }

  lemma DoneAfterAll(s: State, s': State, p: Participant, task: Task)
    requires p in s.current && p !in s.Finished()
    requires s' == WithInfo(s, p, CompletedInfo(s.current[p], task)).(pendingVerification := s'.pendingVerification)
    requires s'.pendingVerification.Keys == s.pendingVerification.Keys + {task}
    ensures forall d: nat, id: nat :: HasDone(Everyone(s'), d, id) <==> HasDone(Everyone(s), d, id) || Task(d, id) == task
    ensures forall t :: t in s'.pendingVerification <==> t in s.pendingVerification || t == task
  {
    var s1 := WithInfo(s, p, CompletedInfo(s.current[p], task));
    assert Everyone(s') == Everyone(s1);
    forall d: nat, id: nat ensures HasDone(Everyone(s'), d, id) <==> HasDone(Everyone(s), d, id) || Task(d, id) == task {
      DoneAfter(s, p, task, d, id);
    }
    hide *;
    assert forall t :: t in s'.pendingVerification.Keys <==> t in s.pendingVerification.Keys || t == task;
  }

  lemma OtherInStep(s: State, s': State, task: Task, chunk: Chunk, d: nat)
    requires ChunkInStep(s, chunk, d) && d != task.chunk
    requires forall id: nat :: HasDone(Everyone(s'), d, id) <==> HasDone(Everyone(s), d, id) || Task(d, id) == task
    requires forall t :: t in s'.pendingVerification <==> t in s.pendingVerification || t == task
    requires forall q :: HoldsLock(s, chunk, d, q) ==> HoldsLock(s', chunk, d, q)
    ensures ChunkInStep(s', chunk, d)
  {
    hide HasDone, Everyone, HoldsLock;
  }

  lemma NewestInStep(s: State, s': State, was: Chunk, chunk: Chunk, c: nat)
    requires ChunkInStep(s, was, c) && chunk.holder.None? && chunk.verified == was.verified + [false]
    requires forall id: nat :: HasDone(Everyone(s'), c, id) <==> HasDone(Everyone(s), c, id) || id == |was.verified|
    requires forall t :: t in s'.pendingVerification <==> t in s.pendingVerification || t == Task(c, |was.verified|)
    ensures ChunkInStep(s', chunk, c)
  {
    hide HasDone, Everyone, HoldsLock;
  }

  /** A lock on another chunk does not notice the completion. */
  lemma OtherHolder(s: State, s': State, p: Participant, task: Task, chunk: Chunk, d: nat)
    requires p in s.current && d != task.chunk
    requires s' == WithInfo(s, p, CompletedInfo(s.current[p], task)).(pendingVerification := s'.pendingVerification)
    ensures forall q :: HoldsLock(s, chunk, d, q) ==> HoldsLock(s', chunk, d, q)
  {
    forall q | HoldsLock(s, chunk, d, q) ensures HoldsLock(s', chunk, d, q) {
      KeepsHolder(s, s', p, task, chunk, d, q);
    }
  }

  lemma KeepsHolder(s: State, s': State, p: Participant, task: Task, chunk: Chunk, d: nat, q: Participant)
    requires p in s.current && d != task.chunk && HoldsLock(s, chunk, d, q)
    requires s' == WithInfo(s, p, CompletedInfo(s.current[p], task)).(pendingVerification := s'.pendingVerification)
    ensures HoldsLock(s', chunk, d, q)
  {
    FilterMember(s.current[p].pendingTasks, t => t != task, Task(d, |chunk.verified|));
  }

  lemma OnChunkEmpty(tasks: seq<Task>, c: nat)
    ensures tasks == [] ==> OnChunk(tasks, c) == []
    ensures forall t :: t in OnChunk(tasks, c) <==> t in tasks && t.chunk == c
  {
    forall t ensures t in OnChunk(tasks, c) <==> t in tasks && t.chunk == c {
      FilterMember(tasks, (u: Task) => u.chunk == c, t);
    }
  }

  lemma AcceptedInStep(env: Environment, hash: Bytes -> Hash, b: Both, p: Participant, c: nat, signed: bool)
    requires InStep(env, b) && IsCurrent(b.x.s, p) && c <= env.chunks && CanContribute(hash, b.t, c, p, signed)
    ensures var task := Task(c, |b.t.rounds[b.t.height].chunks[c].verified|);
      InStep(env, Both(Next(env, b.x, Complete(p, task)), WithResponse(hash, b.t, c, p, signed)))
  {
    hide Good, Next;
    var chunks := b.t.rounds[b.t.height].chunks;
    var task, t' := Task(c, |chunks[c].verified|), WithResponse(hash, b.t, c, p, signed);
    var x1 := Next(env, b.x, Complete(p, task));
    MemberApart(env, b.x, p);
    assert ChunkInStep(b.x.s, chunks[c], c) && HoldsLock(b.x.s, chunks[c], c, p);
    assert task !in b.x.s.pendingVerification && c < env.chunks && b.x.s.height == Some(b.t.height);
    assert |b.t.rounds[b.t.height].contributors| == b.x.view.n && Undisturbed(env, b.x.s) && ChunksInStep(b.x.s, chunks);
    ResponseOrderly(hash, b.t, env.chunks, c, p, signed);
    var chunk := Chunk(None, chunks[c].verified + [false], chunks[c].makers + [p]);
    assert t' == WithChunk(b.t, c, chunk);
    hide InStep, Orderly, CanContribute, HasDone, Everyone, ChunksInStep, Undisturbed, WithResponse;
    StepGood(env, b.x, Complete(p, task));
    CompletionSucceeds(env, b.x, p, task);
    NextComplete(env, b.x, p, task);
    hide CompletedTask;
    ContributedInStep(b.x.s, x1.s, chunks, c, p, chunk);
    assert x1.s.height == b.x.s.height;
  }

  /** Files are no part of being in step. */
  lemma FilesInStep(env: Environment, b: Both, files: map<Locator, Bytes>)
    requires InStep(env, b)
    ensures InStep(env, b.(t := b.t.(files := files)))
  {
    FilesOrderly(b.t, env.chunks, files);
    hide Good, Orderly, ChunksInStep, Undisturbed;
  }

  lemma ContributeInStep(env: Environment, hash: Bytes -> Hash, b: Both, p: Participant, c: nat, signed: bool)
    requires InStep(env, b)
    ensures InStep(env, TryContribute(env, hash, b, p, c, signed))
  {
    if c <= env.chunks && IsCurrent(b.x.s, p) && Working(b.x.s) && c in b.x.s.current[p].locked {
      var info := b.x.s.current[p];
      assert info.disposingTasks == [];
      OnChunkEmpty(info.disposingTasks, c);
      hide InStep, Next, Working, CanContribute, OnChunk;
      if |OnChunk(info.pendingTasks, c)| == 1 {
        if CanContribute(hash, b.t, c, p, signed) {
          AcceptedInStep(env, hash, b, p, c, signed);
        } else {
          FilesInStep(env, b, b.t.files - {Locator(b.t.height, c, OnChunk(info.pendingTasks, c)[0].contribution, false)});
        }
      }
    }
  }

  // ----- verifying

  lemma VerifiedInStep(s: State, s': State, chunks: seq<Chunk>, c: nat, id: nat)
    requires ChunksInStep(s, chunks) && c < |chunks| && 1 <= id < |chunks[c].verified| && !chunks[c].verified[id]
    requires id == |chunks[c].verified| - 1
    requires s' == s.(pendingVerification := s.pendingVerification - {Task(c, id)})
    ensures ChunksInStep(s', chunks[c := chunks[c].(holder := None, verified := chunks[c].verified[id := true])])
  {
    var chunks' := chunks[c := chunks[c].(holder := None, verified := chunks[c].verified[id := true])];
    assert Everyone(s') == Everyone(s);
    hide HasDone, Everyone;
    forall d | 0 <= d < |chunks'| ensures ChunkInStep(s', chunks'[d], d) {
      assert ChunkInStep(s, chunks[d], d);
    }
  }

  lemma ChallengeInStep(env: Environment, hash: Bytes -> Hash, b: Both, v: Participant, task: Task, signed: bool)
    requires InStep(env, b) && task.chunk <= env.chunks && CanVerify(hash, b.t, task, v, signed)
    ensures InStep(env, Both(Next(env, b.x, Complete(v, task)), WithChallenge(hash, b.t, task, v, signed)))
  {
    hide Good, Next, Orderly, ChunksInStep, CompletedTask;
    var chunks, t' := b.t.rounds[b.t.height].chunks, WithChallenge(hash, b.t, task, v, signed);
    var x1 := Next(env, b.x, Complete(v, task));
    StepGood(env, b.x, Complete(v, task));
    NextComplete(env, b.x, v, task);
    ChallengeOrderly(hash, b.t, env.chunks, task, v, signed);
    UnverifiedRuns(env, b, task.chunk);
    VerificationEnds(env, b.x.s, chunks, v, task);
    VerifiedInStep(b.x.s, x1.s, chunks, task.chunk, task.contribution);
    BothInStep(env, b, x1, t');
  }

  /** The verification of the last contribution of a chunk takes its task off the waiting list. */
  lemma VerificationEnds(env: Environment, s: State, chunks: seq<Chunk>, v: Participant, task: Task)
    requires ChunksInStep(s, chunks) && v.Verifier? && task.chunk <= env.chunks && task.chunk < |chunks|
    requires 1 <= task.contribution < |chunks[task.chunk].verified| && !chunks[task.chunk].verified[task.contribution]
    ensures CompletedTask(env, s, v, task).0 == s.(pendingVerification := s.pendingVerification - {task})
  {
    hide Prefix, HoldsLock;
    assert ChunkInStep(s, chunks[task.chunk], task.chunk);
    assert task == Task(task.chunk, task.contribution);
  }

  /** A step of both that keeps the chunks in step. */
  lemma BothInStep(env: Environment, b: Both, x': Exec, t': Store)
    requires InStep(env, b) && b.x.view.Running? && Good(env, x') && Orderly(t', env.chunks)
    requires x'.view == b.x.view && x'.s.height == b.x.s.height && t'.height == b.t.height && Undisturbed(env, x'.s)
    requires t'.rounds[t'.height].contributors == b.t.rounds[b.t.height].contributors
    requires ChunksInStep(x'.s, t'.rounds[t'.height].chunks)
    ensures InStep(env, Both(x', t'))
  {
    hide Good, ChunksInStep, Undisturbed;
  }

  /** Where a contribution waits for verification, a round is running. */
  lemma UnverifiedRuns(env: Environment, b: Both, c: nat)
    requires InStep(env, b) && b.t.HasChunk(c)
    requires var v := b.t.rounds[b.t.height].chunks[c].verified; v != [] && !v[|v| - 1]
    ensures b.x.view.Running?
  {
    var round := b.t.rounds[b.t.height];
    assert Sequential(round, round.chunks[c]);
    assert !round.CompleteAt(c);
    assert b.t.height == 0 ==> round.contributors == [];
  }

  lemma VerifyInStep(env: Environment, hash: Bytes -> Hash, b: Both, v: Participant, task: Task, signed: bool)
    requires InStep(env, b)
    ensures InStep(env, TryVerify(env, hash, b, v, task, signed))
  {
    hide InStep, Next, Working, CanVerify;
    if v.Verifier? && task.chunk <= env.chunks && Working(b.x.s) {
      if CanVerify(hash, b.t, task, v, signed) {
        ChallengeInStep(env, hash, b, v, task, signed);
      } else if b.t.height in b.t.rounds {
        var file := NextChallenge(b.t.height, task.chunk, task.contribution, |b.t.rounds[b.t.height].contributors|);
        FilesInStep(env, b, b.t.files - {file});
      }
    }
  }

  // ----- the end of a round

  /** Operations of the scheduler alone: the queue, bans, aggregation flags, and marking the finished. */
  predicate Alone(op: Rounds.Op) { Aside(op) || op.MarkFinished? }

  lemma AsideInStep(env: Environment, b: Both, op: Rounds.Op)
    requires InStep(env, b) && Rounds.Possible(env, b.x.s, op) && Aside(op)
    ensures InStep(env, b.(x := Next(env, b.x, op)))
  {
    var x1 := Next(env, b.x, op);
    StepGood(env, b.x, op);
    assert b.x.s.metrics.Some?;
    AsideFrame(env, b.x.s, op);
    assert x1.s == Rounds.Apply(env, b.x.s, op) && x1.view == b.x.view;
    hide Good, Rounds.Apply, Rounds.Possible, Next, InStep;
    FrameInStep(env, b, x1);
  }

  /** Marking moves records between the rosters and keeps what they have completed. */
  lemma DoneMarked(s: State, s': State, working: Roster, done: Roster, c: nat, id: nat)
    requires s.current.Keys !! s.Finished().Keys && working.Keys !! done.Keys && working.Keys + done.Keys == s.current.Keys
    requires forall p :: p in working ==> working[p].completedTasks == s.current[p].completedTasks
    requires forall p :: p in done ==> done[p].completedTasks == s.current[p].completedTasks
    requires s'.current == working && s'.Finished() == s.Finished() + done
    ensures HasDone(Everyone(s'), c, id) <==> HasDone(Everyone(s), c, id)
  {
    DoneInRound(s.current, s.Finished(), c, id);
    assert s.Finished().Keys !! done.Keys && working.Keys !! (s.Finished() + done).Keys;
    DoneInRound(s.Finished(), done, c, id);
    DoneInRound(working, s.Finished() + done, c, id);
  }

  /** What marking does to the rosters of a good execution. */
  lemma MarkShape(env: Environment, x: Exec, now: Time)
    requires Good(env, x) && x.view.Running?
    ensures var s, s', working, done := x.s, UpdateCurrentContributors(x.s, now).0, StillWorking(x.s, now), NewlyFinished(x.s, now);
      && s'.height == s.height && s'.pendingVerification == s.pendingVerification
      && s.current.Keys !! s.Finished().Keys && working.Keys !! done.Keys && working.Keys + done.Keys == s.current.Keys
      && (forall p :: p in working ==> working[p] == s.current[p])
      && (forall p :: p in done ==> done[p].completedTasks == s.current[p].completedTasks && s.current[p].locked == {})
      && s'.current == working && s'.Finished() == s.Finished() + done
  {
    var n, bucket := x.view.n, x.view.bucket;
    assert Covered(env, x.s, n, bucket);
    hide Good;
    CoveredApart(env, x.s, n, bucket);
    assert AllActive(env, x.s.current, bucket, n, x.s.height.value) && x.s.height.Some? && x.s.height.value in x.s.finished;
    hide Covered;
    MarkRecords(env, x.s, n, bucket, x.s.height.value, now);
    MarkSplits(x.s, now);
    MarkedRecords(x.s, now);
    MarkState(x.s, now);
    hide *;
  }

  lemma MarkedRecords(s: State, now: Time)
    ensures forall p :: p in NewlyFinished(s, now) ==>
      && p in s.current
      && NewlyFinished(s, now)[p].completedTasks == s.current[p].completedTasks && s.current[p].locked == {}
  {
  }

  lemma MarkState(s: State, now: Time)
    requires s.height.Some? && s.height.value in s.finished
    requires |s.current| == |StillWorking(s, now)| + |NewlyFinished(s, now)|
    ensures var s' := UpdateCurrentContributors(s, now).0;
      && s'.height == s.height && s'.pendingVerification == s.pendingVerification
      && s'.current == StillWorking(s, now) && s'.Finished() == s.Finished() + NewlyFinished(s, now)
  {
    hide StillWorking, NewlyFinished;
  }

  lemma NextMark(env: Environment, x: Exec, now: Time)
    ensures Next(env, x, MarkFinished(now)) == x.(s := UpdateCurrentContributors(x.s, now).0)
  {
  }

  lemma MarkInStep(env: Environment, b: Both, now: Time)
    requires InStep(env, b)
    ensures InStep(env, b.(x := Next(env, b.x, MarkFinished(now))))
  {
    hide Next, Good;
    var s, x1 := b.x.s, Next(env, b.x, MarkFinished(now));
    StepGood(env, b.x, MarkFinished(now));
    NextMark(env, b.x, now);
    if b.x.view.Running? {
      MarkShape(env, b.x, now);
      assert Undisturbed(env, x1.s);
      assert ChunksInStep(s, b.t.rounds[b.t.height].chunks);
      hide Orderly, UpdateCurrentContributors, StillWorking, NewlyFinished, ChunksInStep, Undisturbed;
      MarkedInStep(s, x1.s, StillWorking(s, now), NewlyFinished(s, now), b.t.rounds[b.t.height].chunks);
    } else {
      MarkNobody(env, b.x, now);
      assert Undisturbed(env, x1.s);
      hide Orderly, UpdateCurrentContributors, Undisturbed;
    }
  }

  lemma MarkNobody(env: Environment, x: Exec, now: Time)
    requires Good(env, x) && x.view.NoRound?
    ensures var s' := UpdateCurrentContributors(x.s, now).0;
      s'.current == map[] && s'.pendingVerification == x.s.pendingVerification && s'.height == x.s.height
  {
    assert x.s.current == map[];
    hide Good;
    assert StillWorking(x.s, now) == map[];
  }

  lemma MarkedInStep(s: State, s': State, working: Roster, done: Roster, chunks: seq<Chunk>)
    requires ChunksInStep(s, chunks) && s'.pendingVerification == s.pendingVerification
    requires s.current.Keys !! s.Finished().Keys && working.Keys !! done.Keys && working.Keys + done.Keys == s.current.Keys
    requires forall p :: p in working ==> working[p] == s.current[p]
    requires forall p :: p in done ==> done[p].completedTasks == s.current[p].completedTasks && s.current[p].locked == {}
    requires s'.current == working && s'.Finished() == s.Finished() + done
    ensures ChunksInStep(s', chunks)
  {
    forall c: nat, id: nat ensures HasDone(Everyone(s'), c, id) <==> HasDone(Everyone(s), c, id) {
      DoneMarked(s, s', working, done, c, id);
    }
    hide HasDone, Everyone;
    forall c | 0 <= c < |chunks| && chunks[c].holder.Some? && HoldsLock(s, chunks[c], c, chunks[c].holder.value)
      ensures HoldsLock(s', chunks[c], c, chunks[c].holder.value)
    {
      assert chunks[c].holder.value in working.Keys + done.Keys;
    }
    ProgressInStep(s, s', chunks);
  }

  // ----- aggregation, the next round, and resets

  lemma AggregateInStep(env: Environment, b: Both, succeeds: bool, now: Time)
    requires InStep(env, b)
    ensures InStep(env, TryAggregate(env, b, succeeds, now))
  {
    hide InStep, Next, WithAggregate, AggregatingCurrentRound;
    var t', b1 := WithAggregate(b.t, succeeds), b.(x := Next(env, b.x, StartAggregation(now)));
    AsideInStep(env, b, StartAggregation(now));
    AggregatedStore(env, b1, succeeds);
    AsideInStep(env, b1, EndAggregation(now));
    AsideInStep(env, b1.(t := t'), EndAggregation(now));
    AsideInStep(env, b1.(t := t'), CancelAggregation);
  }

  lemma AggregatedStore(env: Environment, b: Both, succeeds: bool)
    requires InStep(env, b)
    ensures InStep(env, b.(t := WithAggregate(b.t, succeeds)))
  {
    AggregateOrderly(b.t, env.chunks, succeeds);
    var t' := WithAggregate(b.t, succeeds);
    assert t'.rounds == b.t.rounds && t'.height == b.t.height;
    hide Good, Orderly, ChunksInStep, WithAggregate;
  }

  /** In step, a finished round is not refused for being incomplete. */
  lemma AggregationNotRefused(env: Environment, b: Both)
    requires InStep(env, b) && b.x.s.IsRoundFinished() && 0 < b.t.height && FinalFiles(b.t, b.t.rounds[b.t.height])
    ensures b.t.height in WithAggregate(b.t, true).aggregated
  {
    FinishedIsComplete(env, b);
  }

  lemma NextPrecommit(env: Environment, x: Exec, height: nat, order: seq<Participant>, now: Time)
    requires ReliabilityOrder(x.s.queue, height, order)
    ensures Next(env, x, PrecommitRound(height, order, now)) == x.(s := PrecommitNextRound(env, x.s, height, order, now).0)
  {
    hide PrecommitNextRound;
  }

  lemma NextCommit(env: Environment, x: Exec)
    requires x.s.status == Precommit && x.s.height.Some?
    ensures Next(env, x, CommitRound) == Exec(CommitNextRound(x.s), Running(|x.s.next|, Buckets(x.s.next)), [])
  {
    hide CommitNextRound;
  }

  /** A successful precommit stages the members of `order`. */
  lemma PrecommitOutcome(env: Environment, s: State, height: nat, order: seq<Participant>, now: Time)
    requires ReliabilityOrder(s.queue, height, order) && PrecommitNextRound(env, s, height, order, now).1.Ok?
    ensures var s1 := PrecommitNextRound(env, s, height, order, now).0;
      && s1 == s.(queue := s1.queue, next := s1.next, status := Precommit) && |s1.next| == |order|
      && s.height.Some? && s.pendingVerification == map[] && s.current == map[]
  {
    assert PrecommitGuard(env, s, height, now).Ok? && Stage(env, s, order, height, now, |order|).Ok?;
    assert 0 < height;
    PrecommitStages(env, s, height, order, now);
    hide Stage, ReliabilityOrder, AssignedTo, Staged;
  }

  /** A new round, in the state and in storage. */
  lemma CommitInStep(env: Environment, b: Both, order: seq<Participant>)
    requires InStep(env, b) && b.x.s.status == Precommit && |b.x.s.next| == |order| && CanOpen(env, b.t, order)
    requires b.x.s.current == map[] && b.x.s.pendingVerification == map[]
    ensures InStep(env, Both(Next(env, b.x, CommitRound), WithNextRound(env, b.t, order)))
  {
    hide Next, ChunksInStep, Undisturbed, CanOpen, Orderly, Good;
    var x1, t' := Next(env, b.x, CommitRound), WithNextRound(env, b.t, order);
    StepGood(env, b.x, CommitRound);
    CommitState(env, b.x);
    AdvanceOrderly(env, b.t, order);
    hide InStep;
    NewRoundInStep(env, x1, t', order);
  }

  /** The committed state: the staged members are the round, and have done nothing. */
  lemma CommitState(env: Environment, x: Exec)
    requires Good(env, x) && x.s.status == Precommit && x.s.pendingVerification == map[]
    ensures var x1 := Next(env, x, CommitRound);
      && x1.view.Running? && x1.view.n == |x.s.next| && x.s.height.Some? && x1.s.height == Some(x.s.height.value + 1)
      && x1.s.pendingVerification == map[] && Undisturbed(env, x1.s)
      && forall p :: p in Everyone(x1.s) ==> Everyone(x1.s)[p].completedTasks == []
  {
    hide Next;
    assert Sound(env, x.s) && x.s.height.Some?;
    hide Good;
    NextCommit(env, x);
    CommitShape(env, x.s);
    assert CommitNextRound(x.s).pendingVerification == map[] by { hide Contributors; }
    hide Sound, CommitNextRound, Staged;
    NobodyYet(env, x.s, Next(env, x, CommitRound).s);
    hide Everyone, Undisturbed;
  }

  lemma NewRoundInStep(env: Environment, x: Exec, t: Store, order: seq<Participant>)
    requires Good(env, x) && Orderly(t, env.chunks) && x.s.height == Some(t.height) && Undisturbed(env, x.s)
    requires x.view.Running? && x.view.n == |order| && t.height in t.rounds
    requires t.rounds[t.height] == Round(order, seq(env.chunks, _ => NEW_CHUNK))
    requires x.s.pendingVerification == map[] && forall p :: p in Everyone(x.s) ==> Everyone(x.s)[p].completedTasks == []
    ensures InStep(env, Both(x, t))
  {
    FreshInStep(x.s, t.rounds[t.height].chunks);
    hide Good, Orderly, Undisturbed, ChunksInStep;
  }

  /** Members that are about to start have completed nothing and have nothing to dispose. */
  lemma NobodyYet(env: Environment, s: State, s': State)
    requires s.height.Some? && Staged(env, s.next, s.height.value + 1) && s'.current == s.next
    requires s'.height == Some(s.height.value + 1) && s'.finished == s.finished[s.height.value + 1 := map[]]
    requires s'.pendingVerification == map[]
    ensures Undisturbed(env, s') && forall p :: p in Everyone(s') ==> Everyone(s')[p].completedTasks == []
  {
    hide Bijection;
  }

  lemma FreshInStep(s: State, chunks: seq<Chunk>)
    requires s.pendingVerification == map[] && forall p :: p in Everyone(s) ==> Everyone(s)[p].completedTasks == []
    requires forall c :: 0 <= c < |chunks| ==> chunks[c] == NEW_CHUNK
    ensures ChunksInStep(s, chunks)
  {
    hide Everyone;
  }

  lemma AdvanceInStep(env: Environment, b: Both, order: seq<Participant>, now: Time)
    requires InStep(env, b) && ReliabilityOrder(b.x.s.queue, b.x.s.Height() + 1, order)
    ensures InStep(env, TryAdvance(env, b, order, now))
  {
    hide InStep, Next, PrecommitNextRound, CanOpen, ReliabilityOrder;
    var s, height := b.x.s, b.x.s.Height() + 1;
    AsideInStep(env, b, PrecommitRound(height, order, now));
    NextPrecommit(env, b.x, height, order, now);
    var b1 := b.(x := Next(env, b.x, PrecommitRound(height, order, now)));
    AsideInStep(env, b1, RollbackRound(now));
    if PrecommitNextRound(env, s, height, order, now).1.Ok? && CanOpen(env, b.t, order) {
      PrecommitOutcome(env, s, height, order, now);
      CommitInStep(env, b1, order);
    }
  }

  lemma NextReset(env: Environment, x: Exec, working: seq<Participant>, done: seq<Participant>, now: Time)
    requires ResetOrder(x.s, working, done) && ResetCurrentRound(env, x.s, true, working, done, now).1.Ok?
    ensures var x1 := Next(env, x, ForceReset(working, done, now));
      x1.s == ResetCurrentRound(env, x.s, true, working, done, now).0 && x1.view == NoRound
  {
    hide ResetCurrentRound;
  }

  lemma ForcedOutcome(env: Environment, s: State, working: seq<Participant>, done: seq<Participant>, now: Time)
    requires ResetOrder(s, working, done) && s.height.Some? && ResetCurrentRound(env, s, true, working, done, now).1.Ok?
    ensures var (s', r) := ResetCurrentRound(env, s, true, working, done, now);
      && 0 < s.height.value && r.value.rollback
      && s'.height == Some(s.height.value - 1) && s'.current == map[] && s'.pendingVerification == map[]
  {
    hide Ceremony.Restart, Members, ResetOrder, Requeued;
  }

  lemma ResetInStep(env: Environment, b: Both, working: seq<Participant>, done: seq<Participant>, now: Time)
    requires InStep(env, b) && ResetOrder(b.x.s, working, done)
    ensures InStep(env, ForcedReset(env, b, working, done, now))
  {
    hide Next, Good, ChunksInStep, Undisturbed, Orderly, WithReset;
    var reset := ResetCurrentRound(env, b.x.s, true, working, done, now).1;
    if reset.Ok? {
      StepGood(env, b.x, ForceReset(working, done, now));
      NextReset(env, b.x, working, done, now);
      ForcedOutcome(env, b.x.s, working, done, now);
      ResetOrderly(b.t, env.chunks, reset.value);
      RoundBefore(env, b.t, reset.value);
      NobodyInStep(env, Next(env, b.x, ForceReset(working, done, now)), WithReset(b.t, reset.value).0);
    }
  }

  lemma NobodyInStep(env: Environment, x: Exec, t: Store)
    requires Good(env, x) && Orderly(t, env.chunks) && x.s.height == Some(t.height) && x.view.NoRound?
    requires x.s.current == map[] && x.s.pendingVerification == map[] && (t.height == 0 || Finished(t, t.height))
    ensures InStep(env, Both(x, t))
  {
    hide Good, Orderly, Finished;
  }

  /** After a rollback the current round is one that was left, and so is complete. */
  lemma RoundBefore(env: Environment, t: Store, action: ResetAction)
    requires Orderly(t, env.chunks) && 0 < t.height && action.rollback
    ensures var t' := WithReset(t, action).0; t'.height == t.height - 1 && (t'.height == 0 || Finished(t', t'.height))
  {
    assert t.height > 1 ==> Finished(t, t.height - 1);
  }

  // ----- drops

  /** A member of a covered round can be dropped, and a free replacement is first in line. */
  ghost predicate Replaceable(env: Environment, x: Exec, p: Participant) {
    && Good(env, x) && env.coordinatorContributors != []
    && DropGuard(x.s, p).Ok? && BucketsKnown(env, x.s.current, x.s.metrics.value.contributors)
    && FreeReplacement(env, x.s, p)
  }

  /** The state after a drop, and who has taken over. */
  ghost function Replaced(env: Environment, x: Exec, p: Participant, now: Time): (State, Outcome<Participant>)
    requires Replaceable(env, x, p)
  {
    AddReplacement(env, AfterDrop(env, x.s, p, now), x.s.current[p].bucket, now)
  }

  /** The contribution of each chunk that is lost with the contributor. */
  ghost function Lost(s: State, p: Participant): map<nat, nat> {
    if p in s.current then ByChunk(s.current[p].completedTasks) else map[]
  }

  /** The drop in storage. */
  ghost function StoreAfterDrop(s: State, t: Store, p: Participant, q: Participant): Store {
    WithReplacement(t, p, if p in s.current then s.current[p].locked else {}, Lost(s, p), q)
  }

  /** Storage has as many contributions of the chunk as the round has completed. */
  ghost predicate AgreeOn(s: State, t: Store, c: nat) {
    t.HasChunk(c) && var v := t.rounds[t.height].chunks[c].verified; v != [] && Prefix(Everyone(s), c, |v| - 1)
  }

  /** A finished contributor has completed a contribution of the chunk after the lost one. */
  ghost predicate Strands(s: State, lost: map<nat, nat>, c: nat) {
    c in lost && FinishedLater(s, c, lost[c])
  }

  /**
    A drop with a replacement takes contributions back in both places. In step before, state and
    storage agree on a chunk afterwards exactly when no finished contributor had completed a
    contribution after the dropped one's: storage removes that work, the state keeps it.
   */
  lemma DropAgreesIff(env: Environment, b: Both, p: Participant, now: Time, c: nat)
    requires InStep(env, b) && Replaceable(env, b.x, p) && c < env.chunks
    ensures var (s', r) := Replaced(env, b.x, p, now);
      r.Ok? && (AgreeOn(s', StoreAfterDrop(b.x.s, b.t, p, r.value), c) <==> !Strands(b.x.s, Lost(b.x.s, p), c))
  {
    hide InStep, Replaceable, Replaced, Strands, Lost, Prefix, Everyone, WithReplacement, StoredDrops.Cut;
    RunningAgrees(env, b, p, c);
    ReplacedOk(env, b.x, p, now);
    var q, v := Replaced(env, b.x, p, now).1.value, b.t.rounds[b.t.height].chunks[c].verified;
    StoredDrops.DropKeeps(b.t, p, if p in b.x.s.current then b.x.s.current[p].locked else {}, Lost(b.x.s, p), q, c);
    DropLeaves(env, b.x, p, now, c, v);
  }

  lemma RunningAgrees(env: Environment, b: Both, p: Participant, c: nat)
    requires InStep(env, b) && Replaceable(env, b.x, p) && c < env.chunks
    ensures AgreeOn(b.x.s, b.t, c)
  {
    assert p in b.x.s.current;
    MemberApart(env, b.x, p);
    hide Replaceable, Good, Prefix;
    assert ChunkInStep(b.x.s, b.t.rounds[b.t.height].chunks[c], c);
  }

  lemma ReplacedOk(env: Environment, x: Exec, p: Participant, now: Time)
    requires Replaceable(env, x, p)
    ensures Replaced(env, x, p, now).1.Ok?
  {
    assert p in x.s.current && env.Valid();
    GoodMember(env, x, p);
    hide Good, Covered, BucketsKnown, DropGuard, FreeReplacement;
    ReplaceResult(env, x.s, x.view.n, x.view.bucket, p, now);
    hide *;
  }

  /** What the state has of a chunk after a drop, against what is left of the stored contributions. */
  lemma DropLeaves(env: Environment, x: Exec, p: Participant, now: Time, c: nat, v: seq<bool>)
    requires Replaceable(env, x, p) && v != [] && Prefix(Everyone(x.s), c, |v| - 1)
    ensures var s', left := Replaced(env, x, p, now).0, StoredDrops.Cut(v, Lost(x.s, p), c);
      left != [] && (Prefix(Everyone(s'), c, |left| - 1) <==> !Strands(x.s, Lost(x.s, p), c))
  {
    hide Replaceable, Replaced, Lost, Prefix, Everyone, FinishedLater;
    if c in Lost(x.s, p) {
      LostPrefix(env, x, p, now, c, |v| - 1);
    } else {
      KeptPrefix(env, x, p, now, c, |v| - 1);
    }
  }

  /** The chunk that the dropped contributor had worked on. */
  lemma LostPrefix(env: Environment, x: Exec, p: Participant, now: Time, c: nat, m: nat)
    requires Replaceable(env, x, p) && Prefix(Everyone(x.s), c, m) && c in Lost(x.s, p)
    ensures var s', k := Replaced(env, x, p, now).0, Lost(x.s, p)[c];
      1 <= k <= m && (Prefix(Everyone(s'), c, k - 1) <==> !FinishedLater(x.s, c, k))
  {
    assert p in x.s.current && env.Valid();
    GoodMember(env, x, p);
    hide Good, DropGuard, FreeReplacement, BucketsKnown, Covered;
    LostTask(env, x.s, x.view.n, x.view.bucket, p, c);
    DropKeepsPrefix(env, x.s, x.view.n, x.view.bucket, p, now, c, m);
    hide *;
  }

  lemma KeptPrefix(env: Environment, x: Exec, p: Participant, now: Time, c: nat, m: nat)
    requires Replaceable(env, x, p) && Prefix(Everyone(x.s), c, m) && c !in Lost(x.s, p)
    ensures Prefix(Everyone(Replaced(env, x, p, now).0), c, m)
  {
    assert p in x.s.current && env.Valid();
    GoodMember(env, x, p);
    hide Good, DropGuard, FreeReplacement, BucketsKnown, Covered;
    LostTask(env, x.s, x.view.n, x.view.bucket, p, c);
    DropKeepsPrefix(env, x.s, x.view.n, x.view.bucket, p, now, c, m);
    hide *;
  }

  lemma LostTask(env: Environment, s: State, n: nat, bucket: map<Participant, nat>, p: Participant, c: nat)
    requires Covered(env, s, n, bucket) && p in s.current
    ensures var done, lost := s.current[p].completedTasks, Lost(s, p);
      (c in lost <==> HasChunk(done, c)) && (c in lost ==> Task(c, lost[c]) in done)
  {
    LostIds(env, s, n, bucket, p, Task(c, 0));
    if c in Lost(s, p) {
      LostIds(env, s, n, bucket, p, Task(c, Lost(s, p)[c]));
    }
  }
}
