/**
  What gets a round on. In every run in which nobody is replaced, a round that takes work is never
  stuck: somebody holds a lock and can respond, a contribution waits for its verification, a member
  can lock a chunk, or a member is done. Each of these steps has the effect it should have.
 */
module Progress {
  import opened Wrappers
  import opened Tasks
  import opened Lists
  import opened Participants
  import opened Ceremony
  import opened Rounds
  import opened Conservation
  import opened Drops
  import opened Phase2
  import opened Codec
  import opened Stores
  import opened Joint
  import opened JointRuns
  import opened WorkOrder

  // ----- somebody can lock

  /** No chunk is locked, and none waits for a verification. */
  ghost predicate AllOpen(t: Store) {
    t.height in t.rounds && forall c :: 0 <= c < |t.rounds[t.height].chunks| ==>
      t.rounds[t.height].chunks[c].holder.None? && t.rounds[t.height].chunks[c].Open()
  }

  /** No file is in the way of the next response of a chunk. */
  ghost predicate NothingInTheWay(t: Store) {
    forall c: nat :: t.HasChunk(c) ==> Locator(t.height, c, |t.rounds[t.height].chunks[c].verified|, false) !in t.files
  }

  lemma NothingAtWork(env: Environment, b: Both, p: Participant)
    requires InStep(env, b) && WorkInOrder(b) && AllOpen(b.t) && p in b.x.s.current
    ensures b.x.s.current[p].pendingTasks == [] && b.x.s.current[p].locked == {}
  {
    ActiveMember(env, b, p);
    hide InStep;
    var info, chunks := b.x.s.current[p], b.t.rounds[b.t.height].chunks;
    assert InHand(info, p, chunks);
    forall t ensures t !in info.pendingTasks {
    }
    SomethingThere(info.pendingTasks);
    assert forall c :: c in info.locked ==> HasChunk(info.pendingTasks, c);
  }

  lemma SomethingThere(tasks: seq<Task>)
    ensures tasks != [] ==> exists t :: t in tasks
  {
    if tasks != [] {
      assert tasks[0] in tasks;
    }
  }

  /** Where a member has a task it holds. */
  lemma WhereHeld(env: Environment, x: Exec, p: Participant, t: Task)
    requires Good(env, x) && x.view.Running? && p in Everyone(x.s) && Share(x.s, p, t) > 0
    ensures var info := Everyone(x.s)[p];
      t in info.completedTasks || (p in x.s.current && info == x.s.current[p] && (t in info.assignedTasks || t in info.pendingTasks))
  {
    var info := Everyone(x.s)[p];
    InMultiset(info.assignedTasks, t);
    InMultiset(info.pendingTasks, t);
    InMultiset(info.completedTasks, t);
    if p in x.s.Finished() {
      assert Done(env, x.s.Finished()[p], x.view.bucket[p], x.view.n, x.s.height.value);
    }
    hide Good;
  }

  /** A task in range that nobody has completed is assigned to a current member, when nothing is at work. */
  lemma StillAssigned(env: Environment, b: Both, t: Task) returns (q: Participant)
    requires InStep(env, b) && WorkInOrder(b) && AllOpen(b.t) && b.x.view.Running? && InRange(env, b.x.view.n, t)
    requires !HasDone(Everyone(b.x.s), t.chunk, t.contribution)
    ensures q in b.x.s.current && t in b.x.s.current[q].assignedTasks
  {
    GoodOf(env, b);
    hide InStep, Good, WorkInOrder, AllOpen;
    q := HolderExists(env, b.x, t);
    ShareInBucket(env, b.x, q, t);
    WhereHeld(env, b.x, q, t);
    assert t == Task(t.chunk, t.contribution);
    if q in b.x.s.current {
      NothingAtWork(env, b, q);
    }
  }

  /** An assigned task is not behind what is stored of its chunk. */
  lemma NotBehind(env: Environment, b: Both, p: Participant, t: Task)
    requires InStep(env, b) && p in b.x.s.current && t in b.x.s.current[p].assignedTasks
    ensures b.x.view.Running? && InRange(env, b.x.view.n, t) && b.t.HasChunk(t.chunk)
    ensures var v := b.t.rounds[b.t.height].chunks[t.chunk].verified;
      && 1 <= |v| <= t.contribution && |b.t.rounds[b.t.height].contributors| == b.x.view.n
      && forall id: nat :: HasDone(Everyone(b.x.s), t.chunk, id) <==> 1 <= id < |v|
  {
    GoodOf(env, b);
    NotYetDone(env, b.x, p, t);
    HasChunks(env, b, t.chunk);
    var chunk := b.t.rounds[b.t.height].chunks[t.chunk];
    assert ChunkInStep(b.x.s, chunk, t.chunk);
    hide Good, Undisturbed, Orderly, HasDone, Everyone;
  }

  /** From any member with work to do, one whose first task is the next contribution of its chunk. */
  lemma {:induction false} NextWorker(env: Environment, b: Both, p: Participant) returns (q: Participant)
    requires InStep(env, b) && WorkInOrder(b) && AllOpen(b.t) && p in b.x.s.current && b.x.s.current[p].assignedTasks != []
    ensures q in b.x.s.current && b.x.s.current[q].assignedTasks != []
    ensures var task := b.x.s.current[q].assignedTasks[0];
      b.t.HasChunk(task.chunk) && task.contribution == |b.t.rounds[b.t.height].chunks[task.chunk].verified|
    decreases if p in b.x.s.current && b.x.s.current[p].assignedTasks != [] then b.x.s.current[p].assignedTasks[0].contribution else 0
  {
    var task := b.x.s.current[p].assignedTasks[0];
    assert task in b.x.s.current[p].assignedTasks;
    NotBehind(env, b, p, task);
    var m := |b.t.rounds[b.t.height].chunks[task.chunk].verified|;
    hide InStep, AllOpen, HasDone, Everyone;
    if task.contribution == m {
      q := p;
    } else {
      var earlier := Task(task.chunk, m);
      var r := StillAssigned(env, b, earlier);
      HeadFirst(b, r, earlier);
      q := NextWorker(env, b, r);
    }
  }

  lemma HeadFirst(b: Both, p: Participant, t: Task)
    requires WorkInOrder(b) && b.x.view.Running? && p in b.x.s.current && t in b.x.s.current[p].assignedTasks
    ensures b.x.s.current[p].assignedTasks[0].contribution <= t.contribution
  {
    assert InHand(b.x.s.current[p], p, b.t.rounds[b.t.height].chunks);
    var i :| 0 <= i < |b.x.s.current[p].assignedTasks| && b.x.s.current[p].assignedTasks[i] == t;
  }

  /** A listed member with the next contribution of an open chunk ahead can lock it. */
  lemma CanTakeUp(env: Environment, b: Both, p: Participant)
    requires InStep(env, b) && Rostered(b) && WorkInOrder(b) && AllOpen(b.t) && NothingInTheWay(b.t) && 0 < env.lockLimit
    requires p in b.x.s.current && b.x.s.current[p].assignedTasks != []
    requires var task := b.x.s.current[p].assignedTasks[0];
      b.t.HasChunk(task.chunk) && task.contribution == |b.t.rounds[b.t.height].chunks[task.chunk].verified|
    ensures p.Contributor? && CanLock(env, b.t, b.x.s.current[p].assignedTasks[0].chunk, p)
  {
    var task := b.x.s.current[p].assignedTasks[0];
    var c, round := task.chunk, b.t.rounds[b.t.height];
    assert task in b.x.s.current[p].assignedTasks;
    ActiveMember(env, b, p);
    NotBehind(env, b, p, task);
    HeadApart(env, b, p);
    GoodOf(env, b);
    assert p in round.contributors && p.Contributor?;
    MakerDone(env, b, p, c);
    hide InStep, Good, Orderly, Undisturbed, WorkInOrder, Rostered;
    assert round.LocksOf(p) == {};
  }

  lemma MakerDone(env: Environment, b: Both, p: Participant, c: nat)
    requires InStep(env, b) && WorkInOrder(b) && b.x.view.Running? && p in b.x.s.current && b.t.HasChunk(c)
    ensures p in b.t.rounds[b.t.height].chunks[c].makers ==> HasChunk(b.x.s.current[p].completedTasks, c)
  {
    var chunk := b.t.rounds[b.t.height].chunks[c];
    assert MadeBy(b.x.s, chunk, c);
    hide InStep, WorkInOrder;
    if p in chunk.makers {
      var i :| 0 <= i < |chunk.makers| && chunk.makers[i] == p;
      assert DoneBy(b.x.s, p, Task(c, i + 1));
      DoneHere(env, b, p, Task(c, i + 1));
    }
  }

  lemma DoneHere(env: Environment, b: Both, p: Participant, t: Task)
    requires InStep(env, b) && p in b.x.s.current && DoneBy(b.x.s, p, t)
    ensures HasChunk(b.x.s.current[p].completedTasks, t.chunk)
  {
    GoodOf(env, b);
    MemberApart(env, b.x, p);
    hide Good, InStep;
  }

  /**
    In step and in order, in a round that takes work with every chunk unlocked and open, and with
    no file in the way: as soon as somebody still has tasks assigned, some member's attempt to lock
    a chunk succeeds, for the next contribution of that chunk.
   */
  lemma SomebodyLocks(env: Environment, b: Both, p: Participant, blank: Bytes) returns (q: Participant, task: Task)
    requires InStep(env, b) && Rostered(b) && WorkInOrder(b) && Working(b.x.s) && 0 < env.lockLimit
    requires AllOpen(b.t) && NothingInTheWay(b.t) && b.x.s.current.Keys !! b.x.s.banned
    requires p in b.x.s.current && b.x.s.current[p].assignedTasks != []
    ensures b.t.HasChunk(task.chunk) && task == NextTask(b.t, task.chunk) && q in b.x.s.current
    ensures var b' := TryLock(env, b, q, blank);
      && b'.t.HasChunk(task.chunk) && b'.t.height == b.t.height
      && b'.t.rounds[b.t.height].chunks[task.chunk].holder == Some(q)
      && q in b'.x.s.current && task in b'.x.s.current[q].pendingTasks && b'.x.s.current[q].locked == {task.chunk}
      && b.x.s.current[q].assignedTasks == [task] + b'.x.s.current[q].assignedTasks
  {
    hide InStep, Rostered, WorkInOrder, AllOpen, NothingInTheWay, Working, CanLock, TryLock;
    q := NextWorker(env, b, p);
    task := b.x.s.current[q].assignedTasks[0];
    CanTakeUp(env, b, q);
    NothingAtWork(env, b, q);
    LockTakesFirst(env, b, q, blank);
    assert Lockable(env, b, q);
    LockShows(env, b.t, task.chunk, q, blank);
    RecordThere(b.x.s, q, TakenUp(b.x.s.current[q]));
    hide WithInfo, WithLock, Lockable;
    assert b.x.s.current[q].assignedTasks == [task] + b.x.s.current[q].assignedTasks[1..];
  }

  lemma LockShows(env: Environment, t: Store, c: nat, p: Participant, blank: Bytes)
    requires CanLock(env, t, c, p)
    ensures var t' := WithLock(env, t, c, p, blank);
      t'.height == t.height && t'.HasChunk(c) && t'.rounds[t.height].chunks[c].holder == Some(p)
  {
  }

  // ----- never stuck

  /** The member has nothing left to do and can be marked as finished. */
  predicate ReadyToFinish(info: ParticipantInfo) { info.Finish(0).Ok? }

  lemma NothingLeft(env: Environment, b: Both, p: Participant)
    requires InStep(env, b) && WorkInOrder(b) && AllOpen(b.t) && p in b.x.s.current && b.x.s.current[p].assignedTasks == []
    requires 0 < env.chunks
    ensures ReadyToFinish(b.x.s.current[p])
  {
    MemberInStep(env, b, p);
    ActiveMember(env, b, p);
    NothingAtWork(env, b, p);
    hide InStep, WorkInOrder, Good;
    ConservedSize(b.x.s.current[p], b.x.view.bucket[p], env.chunks, b.x.view.n);
    hide Conserved;
  }

  /** What can go on in a round. */
  ghost predicate GoesOn(env: Environment, b: Both, blank: Bytes) {
    || (exists c: nat :: b.t.HasChunk(c) && b.t.rounds[b.t.height].chunks[c].holder.Some?)
    || (exists task :: task in b.x.s.pendingVerification)
    || (exists q, task: Task :: q in b.x.s.current && TakesUp(env, b, q, task, blank))
    || (exists q :: q in b.x.s.current && ReadyToFinish(b.x.s.current[q]))
  }

  /** The member's attempt to lock a chunk succeeds, for the given task. */
  ghost predicate TakesUp(env: Environment, b: Both, q: Participant, task: Task, blank: Bytes) {
    var b' := TryLock(env, b, q, blank);
    b'.t.HasChunk(task.chunk) && b'.t.rounds[b'.t.height].chunks[task.chunk].holder == Some(q)
    && q in b'.x.s.current && task in b'.x.s.current[q].pendingTasks
  }

  /** In step and in order, a round that takes work and has no file in the way is not stuck. */
  lemma NotStuck(env: Environment, b: Both, blank: Bytes)
    requires InStep(env, b) && Rostered(b) && WorkInOrder(b) && Working(b.x.s) && 0 < env.lockLimit && 0 < env.chunks
    requires NothingInTheWay(b.t) && b.x.s.current.Keys !! b.x.s.banned
    ensures GoesOn(env, b, blank)
  {
    if (forall c: nat :: b.t.HasChunk(c) ==> b.t.rounds[b.t.height].chunks[c].holder.None?) && b.x.s.pendingVerification == map[] {
      var p := Worker(env, b);
      OpenWithoutWaiting(env, b);
      hide InStep, Rostered, WorkInOrder, Working, AllOpen, NothingInTheWay, TryLock;
      if b.x.s.current[p].assignedTasks == [] {
        NothingLeft(env, b, p);
      } else {
        var q, task := SomebodyLocks(env, b, p, blank);
        assert TakesUp(env, b, q, task, blank);
      }
    } else if b.x.s.pendingVerification != map[] {
      var task :| task in b.x.s.pendingVerification;
    }
  }

  lemma Worker(env: Environment, b: Both) returns (p: Participant)
    requires InStep(env, b) && Working(b.x.s) && b.x.s.pendingVerification == map[]
    ensures p in b.x.s.current
  {
    hide InStep;
    p :| p in b.x.s.current;
  }

  lemma OpenWithoutWaiting(env: Environment, b: Both)
    requires InStep(env, b) && b.x.view.Running? && b.x.s.pendingVerification == map[]
    requires forall c: nat :: b.t.HasChunk(c) ==> b.t.rounds[b.t.height].chunks[c].holder.None?
    ensures AllOpen(b.t)
  {
    var chunks := b.t.rounds[b.t.height].chunks;
    forall c | 0 <= c < |chunks| ensures chunks[c].holder.None? && chunks[c].Open() {
      assert b.t.HasChunk(c);
      assert ChunkInStep(b.x.s, chunks[c], c);
      LastIsVerified(env, b, c);
    }
  }

  lemma LastIsVerified(env: Environment, b: Both, c: nat)
    requires InStep(env, b) && b.x.view.Running? && b.x.s.pendingVerification == map[] && b.t.HasChunk(c)
    ensures b.t.rounds[b.t.height].chunks[c].Open()
  {
    var chunk := b.t.rounds[b.t.height].chunks[c];
    assert ChunkInStep(b.x.s, chunk, c) && Sequential(b.t.rounds[b.t.height], chunk);
    hide Good, Prefix;
    var last := |chunk.verified| - 1;
    if 1 <= last {
      assert Task(c, last) !in b.x.s.pendingVerification;
    }
  }

  // ----- nobody is banned in these runs

  lemma NextBanned(env: Environment, x: Exec, op: Rounds.Op)
    requires Rounds.Possible(env, x.s, op) && !op.Ban?
    ensures Next(env, x, op).s.banned <= x.s.banned
  {
    BannedKept(env, x.s, op);
    hide Rounds.Apply, Rounds.Possible;
  }

  /** A step of scheduler and storage that bans nobody. */
  lemma StepBanned(env: Environment, hash: Bytes -> Hash, b: Both, op: JointRuns.Op)
    requires InStep(env, b) && WorkInOrder(b) && JointRuns.Possible(env, b, op)
    ensures JointRuns.Apply(env, hash, b, op).x.s.banned <= b.x.s.banned
  {
    hide InStep, WorkInOrder, Next, TryDrop, Working, CanContribute, CanVerify, CanOpen, WithReset, OnChunk, Lockable;
    match op
    case LockNext(p, blank) =>
      LockTakesFirst(env, b, p, blank);
      hide TryLock, TakenUp;
    case Respond(p, chunk, signed) => RespondBanned(env, hash, b, p, chunk, signed);
    case Approve(v, task, signed) => NextBanned(env, b.x, Complete(v, task));
    case Combine(succeeds, now) => CombineBanned(env, b, succeeds, now);
    case Advance(order, now) => AdvanceBanned(env, b, order, now);
    case Restart(working, done, now) => NextBanned(env, b.x, ForceReset(working, done, now));
    case Schedule(o) => NextBanned(env, b.x, o);
    case Dismiss(p, working, done, now) => DropBanned(env, b, p, working, done, now);
    case _ =>
  }

  lemma RespondBanned(env: Environment, hash: Bytes -> Hash, b: Both, p: Participant, c: nat, signed: bool)
    requires InStep(env, b)
    ensures TryContribute(env, hash, b, p, c, signed).x.s.banned <= b.x.s.banned
  {
    GoodOf(env, b);
    RespondCases(env, hash, b, p, c, signed);
    hide InStep, Good, Orderly, Undisturbed, TryContribute, Next, Accepts;
    if Accepts(env, hash, b, p, c, signed) {
      AcceptsChunk(env, hash, b, p, c, signed);
      NextBanned(env, b.x, Complete(p, NextTask(b.t, c)));
    }
  }

  lemma AcceptsChunk(env: Environment, hash: Bytes -> Hash, b: Both, p: Participant, c: nat, signed: bool)
    requires Accepts(env, hash, b, p, c, signed)
    ensures b.t.HasChunk(c)
  {
  }

  lemma CombineBanned(env: Environment, b: Both, succeeds: bool, now: Time)
    ensures TryAggregate(env, b, succeeds, now).x.s.banned <= b.x.s.banned
  {
    hide Next, WithAggregate, AggregatingCurrentRound;
    var x1 := Next(env, b.x, StartAggregation(now));
    NextBanned(env, b.x, StartAggregation(now));
    NextBanned(env, x1, EndAggregation(now));
    NextBanned(env, x1, CancelAggregation);
  }

  lemma AdvanceBanned(env: Environment, b: Both, order: seq<Participant>, now: Time)
    requires ReliabilityOrder(b.x.s.queue, b.x.s.Height() + 1, order)
    ensures TryAdvance(env, b, order, now).x.s.banned <= b.x.s.banned
  {
    hide Next, PrecommitNextRound, CanOpen, ReliabilityOrder, WithNextRound;
    var x1 := Next(env, b.x, PrecommitRound(b.x.s.Height() + 1, order, now));
    NextBanned(env, b.x, PrecommitRound(b.x.s.Height() + 1, order, now));
    NextBanned(env, x1, CommitRound);
    NextBanned(env, x1, RollbackRound(now));
  }

  lemma DropBanned(env: Environment, b: Both, p: Participant, working: seq<Participant>, done: seq<Participant>, now: Time)
    requires DropOrder(env, b.x.s, p, working, done, now)
    ensures TryDrop(env, b, p, working, done, now).x.s.banned <= b.x.s.banned
  {
    hide Next, DropOrder, DropParticipant, StoredDrop;
    NextBanned(env, b.x, Rounds.Op.Drop(p, working, done, now));
  }

  lemma {:induction false} RunBanned(env: Environment, hash: Bytes -> Hash, bs: seq<Both>, ops: seq<JointRuns.Op>, i: nat)
    requires JointRuns.Run(env, hash, bs, ops) && i < |bs|
    ensures bs[i].x.s.banned == {}
  {
    hide InStep, Rostered, WorkInOrder, JointRuns.Apply, JointRuns.Possible;
    if i > 0 {
      RunBanned(env, hash, bs, ops, i - 1);
      RunWork(env, hash, bs, ops, i - 1);
      RunStep(env, hash, bs, ops, i);
      StepBanned(env, hash, bs[i - 1], ops[i - 1]);
    }
  }

  /**
    Never stuck: in every state of every run in which nobody is replaced, a round that takes work,
    with no file in the way of the next responses, can go on.
   */
  lemma NeverStuck(env: Environment, hash: Bytes -> Hash, bs: seq<Both>, ops: seq<JointRuns.Op>, i: nat, blank: Bytes)
    requires JointRuns.Run(env, hash, bs, ops) && i < |bs|
    requires Working(bs[i].x.s) && NothingInTheWay(bs[i].t) && 0 < env.lockLimit && 0 < env.chunks
    ensures GoesOn(env, bs[i], blank)
  {
    RunWork(env, hash, bs, ops, i);
    RunBanned(env, hash, bs, ops, i);
    hide JointRuns.Run, InStep, Rostered, WorkInOrder, Working, GoesOn;
    NotStuck(env, bs[i], blank);
  }

  // ----- the steps have their effects

  /** The pending task of the chunk is the only one in the list. */
  lemma OnlyOnChunk(tasks: seq<Task>, task: Task)
    requires task in tasks && multiset(tasks)[task] == 1 && forall u :: u in tasks && u.chunk == task.chunk ==> u == task
    ensures OnChunk(tasks, task.chunk) == [task]
  {
    var on := OnChunk(tasks, task.chunk);
    OnChunkEmpty(tasks, task.chunk);
    FilterCount(tasks, (t: Task) => t.chunk == task.chunk, task);
    forall i | 0 <= i < |on| ensures on[i] == task {
      assert on[i] in on;
    }
    AllTheSame(on, task);
  }

  lemma {:induction false} AllTheSame(tasks: seq<Task>, task: Task)
    requires forall i :: 0 <= i < |tasks| ==> tasks[i] == task
    ensures |tasks| == multiset(tasks)[task]
  {
    if tasks != [] {
      assert tasks == [tasks[0]] + tasks[1..];
      AllTheSame(tasks[1..], task);
    }
  }

  lemma PendingOnce(env: Environment, x: Exec, p: Participant, task: Task)
    requires Good(env, x) && p in x.s.current && task in x.s.current[p].pendingTasks
    ensures multiset(x.s.current[p].pendingTasks)[task] == 1
  {
    MemberActive(env, x, p);
    var info, b := x.s.current[p], x.view.bucket[p];
    assert Conserved(info, b, env.chunks, x.view.n);
    hide Good, Active;
    BucketCount(b, env.chunks, x.view.n, task);
    InMultiset(info.pendingTasks, task);
    assert Held(info)[task] <= 1;
  }

  /**
    In step, an acceptable response of a member in a round that takes work is accepted: the chunk
    has one contribution more, not verified and credited to the member, its lock is released, and
    the task is completed and waits for the first coordinator verifier.
   */
  lemma ResponseCounts(env: Environment, hash: Bytes -> Hash, b: Both, p: Participant, c: nat, signed: bool)
    requires InStep(env, b) && IsCurrent(b.x.s, p) && Working(b.x.s) && c <= env.chunks && CanContribute(hash, b.t, c, p, signed)
    ensures b.t.HasChunk(c)
    ensures var b', was, task := TryContribute(env, hash, b, p, c, signed), b.t.rounds[b.t.height].chunks[c], NextTask(b.t, c);
      && b'.t.height == b.t.height && b'.t.HasChunk(c) && b'.t.files == b.t.files
      && b'.t.rounds[b.t.height].chunks[c] == Chunk(None, was.verified + [false], was.makers + [p])
      && p in b'.x.s.current && task in b'.x.s.current[p].completedTasks && task !in b'.x.s.current[p].pendingTasks
      && c !in b'.x.s.current[p].locked
      && task in b'.x.s.pendingVerification && env.coordinatorVerifiers != []
      && b'.x.s.pendingVerification[task] == env.coordinatorVerifiers[0]
  {
    hide InStep, Good, CanContribute, Next, CompletedTask, CompletedInfo, Working, TryContribute, WithResponse, OnChunk;
    GoodOf(env, b);
    HolderWorks(env, hash, b, p, c, signed);
    var task := NextTask(b.t, c);
    PendingOnce(env, b.x, p, task);
    OnlyOnChunk(b.x.s.current[p].pendingTasks, task);
    RespondCases(env, hash, b, p, c, signed);
    AcceptedState(env, hash, b, p, c, signed);
    ResponseIs(hash, b.t, c, p, signed);
    NextComplete(env, b.x, p, task);
    WaitsForFirst(env, b.x, p, task);
    CompletedShows(b.x.s.current[p], task);
  }

  lemma CompletedShows(info: ParticipantInfo, task: Task)
    ensures var info' := CompletedInfo(info, task);
      task in info'.completedTasks && task !in info'.pendingTasks && task.chunk !in info'.locked
  {
    FilterMember(info.pendingTasks, (t: Task) => t != task, task);
  }

  lemma WaitsForFirst(env: Environment, x: Exec, p: Participant, task: Task)
    requires Good(env, x) && p.Contributor? && p in x.s.current && task.chunk <= env.chunks
    requires task in x.s.current[p].pendingTasks && task.chunk in x.s.current[p].locked && task !in x.s.pendingVerification
    ensures env.coordinatorVerifiers != []
    ensures var s' := CompletedTask(env, x.s, p, task).0;
      task in s'.pendingVerification && s'.pendingVerification[task] == env.coordinatorVerifiers[0]
  {
    assert env.coordinatorVerifiers != [];
    CompletionSucceeds(env, x, p, task);
    hide Good, ParticipantInfo.CompletedTask, CompletedInfo;
  }

  /** In a round that takes work, an acceptable verification is accepted, and ends the wait in step. */
  lemma ApprovalCounts(env: Environment, hash: Bytes -> Hash, b: Both, v: Participant, task: Task, signed: bool)
    requires InStep(env, b) && Working(b.x.s) && task.chunk <= env.chunks && CanVerify(hash, b.t, task, v, signed)
    ensures b.t.HasChunk(task.chunk)
    ensures var b', was := TryVerify(env, hash, b, v, task, signed), b.t.rounds[b.t.height].chunks[task.chunk];
      && b'.t.height == b.t.height && b'.t.HasChunk(task.chunk) && b'.t.files == b.t.files
      && var chunk := b'.t.rounds[b.t.height].chunks[task.chunk];
      && |chunk.verified| == |was.verified| && chunk.makers == was.makers && chunk.Verified(task.contribution) && chunk.Open()
      && task in b.x.s.pendingVerification
      && b'.x.s == b.x.s.(pendingVerification := b.x.s.pendingVerification - {task})
  {
    hide Good, Next, CompletedTask, Orderly, Undisturbed, Working, Linked;
    UnverifiedRuns(env, b, task.chunk);
    NextComplete(env, b.x, v, task);
    var chunks := b.t.rounds[b.t.height].chunks;
    VerificationEnds(env, b.x.s, chunks, v, task);
    assert ChunkInStep(b.x.s, chunks[task.chunk], task.chunk);
    assert task == Task(task.chunk, task.contribution);
  }

  ghost function Marked(env: Environment, x: Exec, now: Time): Exec { Next(env, x, MarkFinished(now)) }

  /** Marking moves a member that is ready to the finished ones, with the time, and nobody else. */
  lemma MarkCounts(env: Environment, x: Exec, q: Participant, now: Time)
    requires Good(env, x) && q in x.s.current
    ensures x.view.Running?
    ensures var s' := Marked(env, x, now).s;
      if ReadyToFinish(x.s.current[q])
      then q !in s'.current && q in s'.Finished() && s'.Finished()[q] == x.s.current[q].(finishedAt := Some(now))
      else q in s'.current && s'.current[q] == x.s.current[q] && q !in s'.Finished()
  {
    MemberActive(env, x, q);
    assert x.s.current[q].Activity().Ok?;
    hide Good, Next, UpdateCurrentContributors, StillWorking, NewlyFinished, Active, ReadyToFinish;
    MemberApart(env, x, q);
    NextMark(env, x, now);
    MarkShape(env, x, now);
    MarkOne(x.s, q, now);
  }

  lemma MarkOne(s: State, q: Participant, now: Time)
    requires q in s.current && s.current[q].Activity().Ok?
    ensures q in StillWorking(s, now) <==> !ReadyToFinish(s.current[q])
    ensures q in NewlyFinished(s, now) <==> ReadyToFinish(s.current[q])
    ensures q in NewlyFinished(s, now) ==> NewlyFinished(s, now)[q] == s.current[q].(finishedAt := Some(now))
  {
  }

  /**
    In step, a finished round whose final files are in place and whose aggregation succeeds is
    aggregated in both places, and the next round has to wait from then on.
   */
  lemma AggregationCompletes(env: Environment, b: Both, now: Time)
    requires InStep(env, b) && b.x.s.IsRoundFinished() && 0 < b.t.height && FinalFiles(b.t, b.t.rounds[b.t.height])
    requires b.x.s.metrics.Some? && b.x.s.metrics.value.startedAggregation.None? && !b.x.s.metrics.value.aggregated
    requires b.x.s.metrics.value.finishedAggregation.None?
    ensures var b' := TryAggregate(env, b, true, now);
      && b'.x.s.IsRoundAggregated() && b'.t.height == b.t.height && b'.t.height in b'.t.aggregated
      && b'.x.s.metrics.value.startedAggregation == Some(now) && b'.x.s.metrics.value.finishedAggregation == Some(now)
      && (b.x.s.metrics.value.nextRoundAfter.None? ==> b'.x.s.metrics.value.nextRoundAfter == Some(now + env.queueWaitTime))
  {
    GoodOf(env, b);
    AggregationNotRefused(env, b);
    var x1 := Next(env, b.x, StartAggregation(now));
    NextStart(env, b.x, now);
    NextStart(env, x1, now);
    hide InStep, Good, Orderly, Undisturbed, FinalFiles, Next;
  }

  /** The aggregation of the initial round needs nothing in storage. */
  lemma InitialAggregates(env: Environment, b: Both, succeeds: bool, now: Time)
    requires b.x.s.IsRoundFinished() && b.x.s.Height() == 0 && AggregatingCurrentRound(b.x.s, now).1.Ok?
    ensures var b' := TryAggregate(env, b, succeeds, now);
      && b'.t == b.t && b'.x.s.IsRoundAggregated()
      && b'.x.s == b.x.s.(metrics := b'.x.s.metrics)
  {
    NextStart(env, b.x, now);
    NextStart(env, Next(env, b.x, StartAggregation(now)), now);
    hide Next;
  }

  /** An aggregation that fails in storage leaves the state as it was, so that it can be tried again. */
  lemma FailedAggregation(env: Environment, b: Both, succeeds: bool, now: Time)
    requires b.x.s.IsRoundFinished() && b.x.s.Height() > 0 && AggregatingCurrentRound(b.x.s, now).1.Ok?
    requires b.t.height !in WithAggregate(b.t, succeeds).aggregated
    ensures var b' := TryAggregate(env, b, succeeds, now);
      b'.x.s == b.x.s && b'.t == b.t.(aggregated := b.t.aggregated - {b.t.height})
  {
    hide Next, WithAggregate;
    var x1 := Next(env, b.x, StartAggregation(now));
    NextStart(env, b.x, now);
    NextCancel(env, x1);
    NotAggregated(b.t, succeeds);
  }

  lemma NotAggregated(t: Store, succeeds: bool)
    requires t.height !in WithAggregate(t, succeeds).aggregated
    ensures WithAggregate(t, succeeds) == t.(aggregated := t.aggregated - {t.height})
  {
    hide FinalFiles, Round.Complete;
  }

  lemma NextCancel(env: Environment, x: Exec)
    ensures Next(env, x, CancelAggregation).s == RollbackAggregatingCurrentRound(x.s).0
  {
    hide RollbackAggregatingCurrentRound;
  }

  lemma NextStart(env: Environment, x: Exec, now: Time)
    ensures Next(env, x, StartAggregation(now)).s == AggregatingCurrentRound(x.s, now).0
    ensures Next(env, x, EndAggregation(now)).s == AggregatedCurrentRound(env, x.s, now).0
  {
    hide AggregatingCurrentRound, AggregatedCurrentRound;
  }

  /** Before the waiting time after an aggregation is over, no round is precommitted. */
  lemma WaitsForNextRound(env: Environment, s: State, height: nat, order: seq<Participant>, now: Time)
    requires ReliabilityOrder(s.queue, height, order)
    requires s.metrics.Some? && s.metrics.value.nextRoundAfter.Some? && now < s.metrics.value.nextRoundAfter.value
    ensures PrecommitNextRound(env, s, height, order, now).1.Err? && PrecommitNextRound(env, s, height, order, now).0 == s
  {
    hide Stage, ReliabilityOrder, AssignedTo;
  }

  /** The member's attempt to lock a chunk succeeds. */
  ghost predicate StartsWork(env: Environment, b: Both, q: Participant, blank: Bytes) {
    exists task :: TakesUp(env, b, q, task, blank)
  }

  /** A new round: its members listed, with their whole lists to do, and every chunk untouched. */
  ghost predicate NewRound(env: Environment, b: Both, order: seq<Participant>) {
    && b.t.height in b.t.rounds && b.t.rounds[b.t.height].contributors == order
    && (forall c :: 0 <= c < |b.t.rounds[b.t.height].chunks| ==> b.t.rounds[b.t.height].chunks[c] == NEW_CHUNK)
    && b.x.s.height == Some(b.t.height) && Working(b.x.s)
    && (forall p :: p in order <==> p in b.x.s.current)
    && b.x.view.Running?
    && forall p :: p in b.x.s.current ==>
         b.x.s.current[p].assignedTasks != [] && b.x.s.current[p].assignedTasks[0].contribution == 1
  }

  /** The round that a commit begins takes work, and its members have their whole lists to do. */
  ghost predicate Begun(s: State, s': State) {
    && s.height.Some? && s'.height == Some(s.height.value + 1) && s'.current == s.next && Working(s')
    && forall p :: p in s'.current ==> s'.current[p].assignedTasks != [] && s'.current[p].assignedTasks[0].contribution == 1
  }

  lemma CommitBegins(env: Environment, x: Exec)
    requires Good(env, x) && x.s.status == Precommit && x.s.next != map[]
    ensures var x' := Next(env, x, CommitRound); Begun(x.s, x'.s) && x'.view.Running?
  {
    SoundOf(env, x);
    hide Good, Next, CommitNextRound, Working, Sound, Begun;
    CommittedIs(env, x.s);
    NextCommit(env, x);
  }

  lemma SoundOf(env: Environment, x: Exec)
    requires Good(env, x)
    ensures Sound(env, x.s)
  {
    hide Sound, Covered, Accounted;
  }

  lemma CommittedIs(env: Environment, s: State)
    requires Sound(env, s) && s.status == Precommit && s.next != map[]
    ensures s.height.Some? && Begun(s, CommitNextRound(s))
  {
    assert s.height.Some? && s.current == map[] && Staged(env, s.next, s.height.value + 1);
    hide Sound, Staged, Listed, CommitNextRound, BucketsKnown, Working;
    StagedListed(env, s.next, s.height.value + 1);
    StagedHeads(env, s.next, s.height.value + 1);
    CommittedWorks(s);
  }

  lemma CommittedWorks(s: State)
    requires s.status == Precommit && s.height.Some? && s.current == map[] && Listed(s.next) && s.next != map[]
    ensures var s' := CommitNextRound(s);
      s'.height == Some(s.height.value + 1) && s'.current == s.next && Working(s')
  {
    CommitMoves(s);
    hide CommitNextRound, Listed;
  }

  lemma StagedHeads(env: Environment, next: Roster, height: nat)
    requires Staged(env, next, height)
    ensures forall p :: p in next ==> next[p].assignedTasks != [] && next[p].assignedTasks[0].contribution == 1
  {
    forall p | p in next ensures next[p].assignedTasks != [] && next[p].assignedTasks[0].contribution == 1 {
      IdsNeverFall(next[p].bucket, env.chunks, |next|);
      TasksCount(next[p].bucket, env.chunks, |next|);
      hide BucketTasks, InIdOrder, Bijection;
    }
  }

  lemma Opens(env: Environment, b: Both, order: seq<Participant>)
    requires Good(env, b.x) && b.x.s.status == Precommit && b.x.s.height == Some(b.t.height) && CanOpen(env, b.t, order)
    requires Enumerates(order, b.x.s.next.Keys)
    ensures var b' := WithCommit(env, b, order); b'.t.height == b.t.height + 1 && NewRound(env, b', order)
  {
    var b' := WithCommit(env, b, order);
    assert order != [] && order[0] in b.x.s.next;
    assert forall p :: p in order <==> p in b.x.s.next;
    hide Good, Next, Working, CanOpen, WithNextRound, Enumerates;
    CommitBegins(env, b.x);
    OpenedRound(env, b.t, order);
    BeginsRound(env, b.x.s, b', order);
  }

  lemma BeginsRound(env: Environment, s: State, b': Both, order: seq<Participant>)
    requires Begun(s, b'.x.s) && b'.x.view.Running? && 0 < b'.t.height && s.height == Some(b'.t.height - 1)
    requires b'.t.height in b'.t.rounds && b'.t.rounds[b'.t.height].contributors == order
    requires forall c :: 0 <= c < |b'.t.rounds[b'.t.height].chunks| ==> b'.t.rounds[b'.t.height].chunks[c] == NEW_CHUNK
    requires forall p :: p in order <==> p in s.next
    ensures NewRound(env, b', order)
  {
    hide Working;
  }

  lemma OpenedRound(env: Environment, t: Store, order: seq<Participant>)
    requires CanOpen(env, t, order)
    ensures var t' := WithNextRound(env, t, order);
      && t'.height == t.height + 1 && t'.height in t'.rounds && t'.rounds[t'.height].contributors == order
      && forall c :: 0 <= c < |t'.rounds[t'.height].chunks| ==> t'.rounds[t'.height].chunks[c] == NEW_CHUNK
  {
  }

  lemma AdvanceSucceeds(env: Environment, b: Both, order: seq<Participant>, now: Time)
    requires b.x.s.height == Some(b.t.height) && b.x.s.IsRoundFinished() && (0 < b.t.height ==> b.x.s.IsRoundAggregated())
    requires ReliabilityOrder(b.x.s.queue, b.x.s.Height() + 1, order) && CanOpen(env, b.t, order)
    requires PrecommitNextRound(env, b.x.s, b.x.s.Height() + 1, order, now).1.Ok?
    ensures TryAdvance(env, b, order, now) == WithCommit(env, WithPrecommit(env, b, order, now), order)
  {
    hide Next, PrecommitNextRound, CanOpen, ReliabilityOrder, WithNextRound;
  }

  lemma PrecommittedFor(env: Environment, b: Both, order: seq<Participant>, now: Time)
    requires Good(env, b.x) && b.x.s.height == Some(b.t.height)
    requires ReliabilityOrder(b.x.s.queue, b.x.s.Height() + 1, order)
    requires PrecommitNextRound(env, b.x.s, b.x.s.Height() + 1, order, now).1.Ok?
    ensures var b1 := WithPrecommit(env, b, order, now);
      && Good(env, b1.x) && b1.x.s.status == Precommit && b1.x.s.height == Some(b.t.height) && b1.t == b.t
      && Enumerates(order, b1.x.s.next.Keys)
  {
    hide Good, Next, PrecommitNextRound, ReliabilityOrder, Enumerates;
    PrecommitReady(env, b.x, b.x.s.Height() + 1, order, now);
    PrecommitListed(env, b.x.s, b.x.s.Height() + 1, order, now);
    PrecommitOutcome(env, b.x.s, b.x.s.Height() + 1, order, now);
    NextPrecommit(env, b.x, b.x.s.Height() + 1, order, now);
  }

  /**
    In step, a finished and, after round 0, aggregated round whose successor is precommitted and can
    open is followed by that one: it takes work, and lists the precommitted members, who have all of
    their tasks to do.
   */
  lemma RoundOpens(env: Environment, b: Both, order: seq<Participant>, now: Time)
    requires InStep(env, b) && b.x.s.IsRoundFinished() && (0 < b.t.height ==> b.x.s.IsRoundAggregated())
    requires ReliabilityOrder(b.x.s.queue, b.x.s.Height() + 1, order) && CanOpen(env, b.t, order)
    requires PrecommitNextRound(env, b.x.s, b.x.s.Height() + 1, order, now).1.Ok?
    ensures var b' := TryAdvance(env, b, order, now); b'.t.height == b.t.height + 1 && NewRound(env, b', order)
  {
    GoodOf(env, b);
    hide InStep, Good, Orderly, Undisturbed, ReliabilityOrder, CanOpen, PrecommitNextRound, TryAdvance, WithPrecommit, WithCommit,
      NewRound, Enumerates;
    AdvanceSucceeds(env, b, order, now);
    PrecommittedFor(env, b, order, now);
    Opens(env, WithPrecommit(env, b, order, now), order);
  }

  /** In a new round, everyone who is listed and not banned can lock its first chunk right away. */
  lemma EveryoneStarts(env: Environment, b: Both, order: seq<Participant>, q: Participant, blank: Bytes)
    requires InStep(env, b) && Rostered(b) && WorkInOrder(b) && NewRound(env, b, order) && NothingInTheWay(b.t)
    requires 0 < env.lockLimit && q in order && q !in b.x.s.banned
    ensures StartsWork(env, b, q, blank)
  {
    hide InStep, Rostered, WorkInOrder, NothingInTheWay, Working;
    FirstIsNext(env, b, order, q);
    hide NewRound;
    CanTakeUp(env, b, q);
    NothingAtWork(env, b, q);
    hide AllOpen, CanLock;
    assert Lockable(env, b, q);
    TakeUpShows(env, b, q, blank);
    hide TakesUp;
    assert TakesUp(env, b, q, b.x.s.current[q].assignedTasks[0], blank);
  }

  lemma FirstIsNext(env: Environment, b: Both, order: seq<Participant>, q: Participant)
    requires InStep(env, b) && NewRound(env, b, order) && q in order
    ensures AllOpen(b.t) && q in b.x.s.current && Working(b.x.s) && b.x.s.current[q].assignedTasks != []
    ensures var task := b.x.s.current[q].assignedTasks[0];
      b.t.HasChunk(task.chunk) && task.contribution == |b.t.rounds[b.t.height].chunks[task.chunk].verified|
  {
    hide InStep, Working, HasDone, Everyone;
    NewChunks(env, b, order);
    var task := b.x.s.current[q].assignedTasks[0];
    assert task in b.x.s.current[q].assignedTasks;
    NotBehind(env, b, q, task);
    hide NewRound, AllOpen;
  }

  lemma NewChunks(env: Environment, b: Both, order: seq<Participant>)
    requires NewRound(env, b, order)
    ensures AllOpen(b.t) && forall c: nat :: b.t.HasChunk(c) ==> |b.t.rounds[b.t.height].chunks[c].verified| == 1
  {
    hide Working;
  }

  /** A member that can lock its first chunk does, when it tries. */
  lemma TakeUpShows(env: Environment, b: Both, q: Participant, blank: Bytes)
    requires InStep(env, b) && WorkInOrder(b) && Lockable(env, b, q)
    ensures TakesUp(env, b, q, b.x.s.current[q].assignedTasks[0], blank)
  {
    var c := b.x.s.current[q].assignedTasks[0].chunk;
    LockTakesFirst(env, b, q, blank);
    hide InStep, WorkInOrder, TryLock, Working;
    LockShows(env, b.t, c, q, blank);
    RecordThere(b.x.s, q, TakenUp(b.x.s.current[q]));
    hide WithInfo, WithLock, CanLock;
  }
}
