/**
  What the coordinator records about one participant of a round, and the operations on that
  record. A record is owned by the map that holds it, so it is modelled as a value: an
  operation returns the updated record, and says with which error it refused.
 */
module Participants {
  import opened Wrappers
  import opened Tasks
  import opened Lists

  type Time = int

  datatype Participant = Contributor(name: string) | Verifier(name: string)

  datatype Error =
    | ChunkIdAlreadyAdded
    | ChunkIdInvalid
    | ChunkIdMissing
    | ChunkNotLockedOrByWrongParticipant
    | ContributorsMissing
    | CoordinatorContributorMissing
    | CoordinatorStateNotInitialized
    | CurrentRoundNotAggregated
    | CurrentRoundNotFinished
    | ExpectedContributor
    | JustificationInvalid
    | NextRoundAlreadyInPrecommit
    | NextRoundShouldBeEmpty
    | ParticipantAlreadyAdded
    | ParticipantAlreadyAddedChunk
    | ParticipantAlreadyBanned
    | ParticipantAlreadyDropped
    | ParticipantAlreadyFinished
    | ParticipantAlreadyFinishedChunk(chunk: nat)
    | ParticipantAlreadyFinishedTask(task: Task)
    | ParticipantAlreadyHasLockedChunk
    | ParticipantAlreadyHasLockedChunks
    | ParticipantAlreadyPrecommitted
    | ParticipantAlreadyStarted
    | ParticipantAlreadyWorkingOnChunk(chunk: nat)
    | ParticipantBanned
    | ParticipantDidNotDoWork
    | ParticipantDidntLockChunkId
    | ParticipantHasAssignedTasks
    | ParticipantHasLockedMaximumChunks
    | ParticipantHasNoRemainingTasks
    | ParticipantHasNotStarted
    | ParticipantHasRemainingTasks
    | ParticipantInCurrentRoundCannotJoinQueue
    | ParticipantMissing
    | ParticipantMissingDisposingTask
    | ParticipantMissingPendingTask(task: Task)
    | ParticipantNotFound(participant: Participant)
    | ParticipantNotReady
    | ParticipantRoundHeightInvalid
    | ParticipantStillHasLocks
    | ParticipantStillHasTaskAsAssigned
    | ParticipantUnauthorized
    | ParticipantUnauthorizedForChunkId(chunk: nat)
    | ParticipantWasDropped
    | QueueIsEmpty
    | QueueWaitTimeIncomplete
    | RoundAggregationFailed
    | RoundAlreadyAggregated
    | RoundCommitFailedOrCorrupted
    | RoundDoesNotExist
    | RoundHeightIsZero
    | RoundHeightMismatch
    | RoundHeightNotSet
    | RoundNotAggregated
    | RoundNotComplete
    | RoundNumberOfContributorsUnauthorized
    | RoundUpdateCorruptedStateOfContributors
    | StorageFailed
    | TaskInitializationFailed(cause: TaskError)
    | VerifierMissing

  datatype Outcome<+T> = Ok(value: T) | Err(error: Error)

  predicate HasChunk(tasks: seq<Task>, chunk: nat) {
    exists t :: t in tasks && t.chunk == chunk
  }

  function Without(tasks: seq<Task>, task: Task): seq<Task> {
    Filter(tasks, t => t != task)
  }

  datatype ParticipantInfo = ParticipantInfo(
    id: Participant,
    roundHeight: nat,
    reliability: nat,
    bucket: nat,
    startedAt: Option<Time>,
    finishedAt: Option<Time>,
    droppedAt: Option<Time>,
    locked: set<nat>,
    assignedTasks: seq<Task>,
    pendingTasks: seq<Task>,
    completedTasks: seq<Task>,
    disposingTasks: seq<Task>,
    disposedTasks: seq<Task>)
  {
    predicate IsFinished() {
      && startedAt.Some?
      && droppedAt.None?
      && locked == {}
      && assignedTasks == []
      && pendingTasks == []
      && disposingTasks == []
      && (id.Contributor? ==> completedTasks != [])
      && finishedAt.Some?
    }

    predicate IsDropped() {
      !IsFinished() && droppedAt.Some?
    }

    /** The guard shared by every task operation: started, not dropped, not finished. */
    function Activity(): Outcome<()> {
      if startedAt.None? then Err(ParticipantHasNotStarted)
      else if droppedAt.Some? then Err(ParticipantWasDropped)
      else if finishedAt.Some? then Err(ParticipantAlreadyFinished)
      else Ok(())
    }

    function Start(tasks: seq<Task>, now: Time): Outcome<ParticipantInfo> {
      if roundHeight == 0 then Err(ParticipantRoundHeightInvalid)
      else if startedAt.Some? || droppedAt.Some? || finishedAt.Some? then Err(ParticipantAlreadyStarted)
      else if locked != {} then Err(ParticipantAlreadyHasLockedChunks)
      else if assignedTasks != [] then Err(ParticipantHasAssignedTasks)
      else if pendingTasks != [] then Err(ParticipantHasRemainingTasks)
      else if completedTasks != [] || disposingTasks != [] || disposedTasks != [] then Err(ParticipantAlreadyStarted)
      else Ok(this.(startedAt := Some(now), assignedTasks := tasks))
    }

    /** Clears tasks, locks and round times, and starts again; the bucket id is kept. */
    function RestartTasks(tasks: seq<Task>, now: Time): Outcome<ParticipantInfo> {
      this.(assignedTasks := [], pendingTasks := [], completedTasks := [], disposingTasks := [], disposedTasks := [], locked := {},
            startedAt := None, droppedAt := None, finishedAt := None).Start(tasks, now)
    }

    function PushFrontTask(task: Task): Outcome<ParticipantInfo> {
      if Activity().Err? then Err(Activity().error)
      else if id.Contributor? && task.chunk in locked then Err(ParticipantAlreadyWorkingOnChunk(task.chunk))
      else if task in assignedTasks then Err(ParticipantAlreadyAddedChunk)
      else if task in pendingTasks then Err(ParticipantAlreadyWorkingOnChunk(task.chunk))
      else if task in completedTasks then Err(ParticipantAlreadyFinishedChunk(task.chunk))
      else Ok(this.(assignedTasks := [task] + assignedTasks))
    }

    function PopTask(): Outcome<(ParticipantInfo, Task)> {
      if Activity().Err? then Err(Activity().error)
      else if assignedTasks == [] then Err(ParticipantHasNoRemainingTasks)
      else Ok((this.(assignedTasks := assignedTasks[1..], pendingTasks := pendingTasks + [assignedTasks[0]]), assignedTasks[0]))
    }

    /** A contributor may work on a chunk it has pending and has not completed. */
    function ChunkAuthority(chunk: nat): Outcome<()> {
      if id.Contributor? && !HasChunk(pendingTasks, chunk) then Err(ParticipantUnauthorizedForChunkId(chunk))
      else if id.Contributor? && HasChunk(completedTasks, chunk) then Err(ParticipantAlreadyFinishedChunk(chunk))
      else Ok(())
    }

    function AcquiredLock(chunk: nat): Outcome<ParticipantInfo> {
      if Activity().Err? then Err(Activity().error)
      else if chunk in locked then Err(ParticipantAlreadyHasLockedChunk)
      else if ChunkAuthority(chunk).Err? then Err(ChunkAuthority(chunk).error)
      else Ok(this.(locked := locked + {chunk}))
    }

    /** Takes `task` out of the pending list, then pushes it; the removal stays if the push fails. */
    function RequeuePending(task: Task): (ParticipantInfo, Outcome<()>) {
      var removed := this.(pendingTasks := Without(pendingTasks, task));
      match removed.PushFrontTask(task)
      case Ok(info) => (info, Ok(()))
      case Err(e) => (removed, Err(e))
    }

    function RollbackLockedTask(task: Task): (ParticipantInfo, Outcome<()>) {
      if Activity().Err? then (this, Activity())
      else if task.chunk !in locked then (this, Err(ChunkNotLockedOrByWrongParticipant))
      else if ChunkAuthority(task.chunk).Err? then (this, ChunkAuthority(task.chunk))
      else this.(locked := locked - {task.chunk}).RequeuePending(task)
    }

    function RollbackPendingTask(task: Task): (ParticipantInfo, Outcome<()>) {
      if Activity().Err? then (this, Activity())
      else if task.chunk in locked then (this, Err(ParticipantAlreadyHasLockedChunk))
      else if ChunkAuthority(task.chunk).Err? then (this, ChunkAuthority(task.chunk))
      else RequeuePending(task)
    }

    function CompletedTask(task: Task): Outcome<ParticipantInfo> {
      if Activity().Err? then Err(Activity().error)
      else if task.chunk !in locked then Err(ParticipantDidntLockChunkId)
      else if task in assignedTasks then Err(ParticipantStillHasTaskAsAssigned)
      else if task !in pendingTasks then Err(ParticipantMissingPendingTask(task))
      else if task in completedTasks then Err(ParticipantAlreadyFinishedTask(task))
      else if id.Contributor? && HasChunk(completedTasks, task.chunk) then Err(ParticipantAlreadyFinishedChunk(task.chunk))
      else Ok(this.(locked := locked - {task.chunk},
                    pendingTasks := Without(pendingTasks, task),
                    completedTasks := completedTasks + [task]))
    }

    function DisposeTask(task: Task): Outcome<ParticipantInfo> {
      if Activity().Err? then Err(Activity().error)
      else if task.chunk !in locked then Err(ParticipantDidntLockChunkId)
      else if task !in disposingTasks then Err(ParticipantMissingDisposingTask)
      else Ok(this.(locked := locked - {task.chunk},
                    disposingTasks := Without(disposingTasks, task),
                    disposedTasks := disposedTasks + [task]))
    }

    function Finish(now: Time): Outcome<ParticipantInfo> {
      if Activity().Err? then Err(Activity().error)
      else if locked != {} then Err(ParticipantStillHasLocks)
      else if assignedTasks != [] then Err(ParticipantHasRemainingTasks)
      else if pendingTasks != [] then Err(ParticipantHasRemainingTasks)
      else if id.Contributor? && completedTasks == [] then Err(ParticipantDidNotDoWork)
      else if disposingTasks != [] then Err(ParticipantHasRemainingTasks)
      else Ok(this.(finishedAt := Some(now)))
    }
  }

  function NewInfo(id: Participant, roundHeight: nat, reliability: nat, bucket: nat): ParticipantInfo {
    ParticipantInfo(id, roundHeight, reliability, bucket, None, None, None, {}, [], [], [], [], [])
  }

  // ----- conservation of tasks inside one record

  /** The tasks a participant is answerable for, with multiplicity. */
  ghost function Held(info: ParticipantInfo): multiset<Task> {
    multiset(info.assignedTasks) + multiset(info.pendingTasks) + multiset(info.completedTasks)
  }

  /** Assigned, pending and completed together are a duplicate-free rearrangement of the bucket's list. */
  ghost predicate Conserved(info: ParticipantInfo, b: nat, chunks: nat, n: nat) {
    ValidBucket(b, chunks, n) && Held(info) == multiset(BucketTasks(b, chunks, n))
  }

  lemma BucketCount(b: nat, chunks: nat, n: nat, t: Task)
    requires ValidBucket(b, chunks, n)
    ensures multiset(BucketTasks(b, chunks, n))[t] == if t in BucketTasks(b, chunks, n) then 1 else 0
  {
    var all := BucketTasks(b, chunks, n);
    if t in all {
      var i :| 0 <= i < |all| && all[i] == t;
      assert all == all[..i] + [t] + all[i + 1..];
      assert t !in all[..i] && t !in all[i + 1..];
    }
  }

  lemma InMultiset(tasks: seq<Task>, t: Task)
    ensures t in tasks <==> multiset(tasks)[t] > 0
  {
    assert t in tasks <==> t in multiset(tasks);
  }

  /** A pending task occurs once, so filtering it out removes exactly that occurrence. */
  lemma RemovedOnce(info: ParticipantInfo, b: nat, chunks: nat, n: nat, task: Task)
    requires Conserved(info, b, chunks, n) && task in info.pendingTasks
    ensures multiset(Without(info.pendingTasks, task)) == multiset(info.pendingTasks) - multiset{task}
    ensures task !in Without(info.pendingTasks, task)
    ensures task !in info.assignedTasks && task !in info.completedTasks
  {
    BucketCount(b, chunks, n, task);
    assert Held(info)[task] <= 1;
    InMultiset(info.pendingTasks, task);
    InMultiset(info.assignedTasks, task);
    InMultiset(info.completedTasks, task);
    forall t ensures multiset(Without(info.pendingTasks, task))[t]
                  == (multiset(info.pendingTasks) - multiset{task})[t] {
      FilterCount(info.pendingTasks, t' => t' != task, t);
    }
    FilterMember(info.pendingTasks, t' => t' != task, task);
  }

  lemma PopConserves(info: ParticipantInfo, b: nat, chunks: nat, n: nat)
    requires Conserved(info, b, chunks, n) && info.PopTask().Ok?
    ensures Conserved(info.PopTask().value.0, b, chunks, n)
  {
    assert info.assignedTasks == [info.assignedTasks[0]] + info.assignedTasks[1..];
  }

  lemma CompleteConserves(info: ParticipantInfo, b: nat, chunks: nat, n: nat, task: Task)
    requires Conserved(info, b, chunks, n) && info.CompletedTask(task).Ok?
    ensures Conserved(info.CompletedTask(task).value, b, chunks, n)
  {
    RemovedOnce(info, b, chunks, n, task);
  }

  /** What a caller of a rollback can check: its guard refuses, or the record holds exactly this task. */
  ghost predicate RollbackSafe(info: ParticipantInfo, task: Task, wantLock: bool) {
    || info.Activity().Err?
    || (task.chunk in info.locked) != wantLock
    || info.ChunkAuthority(task.chunk).Err?
    || task in Held(info)
  }

  /**
    A rollback checks only that some pending task is on the chunk. It conserves the tasks exactly
    when its guard refuses or it is given a task the participant holds.
   */
  lemma RollbackConservesIff(info: ParticipantInfo, b: nat, chunks: nat, n: nat, task: Task)
    requires Conserved(info, b, chunks, n)
    ensures Conserved(info.RollbackPendingTask(task).0, b, chunks, n) <==> RollbackSafe(info, task, false)
    ensures Conserved(info.RollbackLockedTask(task).0, b, chunks, n) <==> RollbackSafe(info, task, true)
  {
    var unlocked := info.(locked := info.locked - {task.chunk});
    if info.Activity().Ok? {
      if task.chunk !in info.locked {
        RequeueConservesIff(info, b, chunks, n, task);
      }
      RequeueConservesIff(unlocked, b, chunks, n, task);
    }
  }

  lemma RequeueConservesIff(info: ParticipantInfo, b: nat, chunks: nat, n: nat, task: Task)
    requires Conserved(info, b, chunks, n)
    requires info.Activity().Ok? && task.chunk !in info.locked
    ensures Conserved(info.RequeuePending(task).0, b, chunks, n) <==> task in Held(info)
  {
    InMultiset(info.pendingTasks, task);
    InMultiset(info.assignedTasks, task);
    InMultiset(info.completedTasks, task);
    var info' := info.RequeuePending(task).0;
    if task in info.pendingTasks {
      RemovedOnce(info, b, chunks, n, task);
      assert info'.assignedTasks == [task] + info.assignedTasks;
      assert Held(info') == Held(info);
    } else {
      NothingRemoved(info.pendingTasks, task);
      if task in Held(info) {
        assert info' == info;
      } else {
        assert info'.assignedTasks == [task] + info.assignedTasks;
        assert Held(info')[task] == 1;
      }
    }
  }

  /** A chunk locked and pending with one id, rolled back with another: the foreign task enters the record. */
  lemma RollbackCanForgeTask() returns (info: ParticipantInfo, task: Task)
    ensures Conserved(info, 0, 1, 1) && info.RollbackLockedTask(task).1.Ok?
    ensures !Conserved(info.RollbackLockedTask(task).0, 0, 1, 1)
  {
    var own := Task(0, 1);
    info := NewInfo(Contributor("a"), 1, 10, 0).(startedAt := Some(0), pendingTasks := [own], locked := {0});
    task := Task(0, 2);
    assert BucketTasks(0, 1, 1) == [own];
    assert Conserved(info, 0, 1, 1);
    hide BucketTasks, Conserved;
    assert own in info.pendingTasks && own.chunk == 0;
    NothingRemoved(info.pendingTasks, task);
    RollbackConservesIff(info, 0, 1, 1, task);
  }

  lemma {:induction false} NothingRemoved(tasks: seq<Task>, task: Task)
    requires task !in tasks
    ensures Without(tasks, task) == tasks
  {
    if tasks != [] {
      NothingRemoved(tasks[1..], task);
      assert tasks == [tasks[0]] + tasks[1..];
    }
  }
}
