/**
  How the members of a round go through their tasks. In every run in which nobody is replaced, a
  member works on exactly the chunks it has locked, has its other tasks in the order of their ids,
  and storage knows which member made which contribution.
 */
module WorkOrder {
  import opened Wrappers
  import opened Tasks
  import opened Lists
  import opened Participants
  import opened Ceremony
  import opened Rounds
  import opened Conservation
  import opened Phase2
  import opened Codec
  import opened Stores
  import opened Joint
  import opened JointRuns

  // ----- the invariant

  /** Tasks to do in the order of their ids, and tasks at work on exactly the locked chunks. */
  ghost predicate InHand(info: ParticipantInfo, p: Participant, chunks: seq<Chunk>) {
    && InIdOrder(info.assignedTasks)
    && (forall c :: c in info.locked ==> HasChunk(info.pendingTasks, c))
    && forall t :: t in info.pendingTasks ==> t.chunk in info.locked && t.chunk < |chunks| && chunks[t.chunk].holder == Some(p)
  }

  ghost predicate DoneBy(s: State, p: Participant, t: Task) {
    p in Everyone(s) && t in Everyone(s)[p].completedTasks
  }

  /** Storage records for every contribution of the chunk the member that completed it. */
  ghost predicate MadeBy(s: State, chunk: Chunk, c: nat) {
    |chunk.makers| + 1 == |chunk.verified| && forall i :: 0 <= i < |chunk.makers| ==> DoneBy(s, chunk.makers[i], Task(c, i + 1))
  }

  ghost predicate AllInHand(current: Roster, chunks: seq<Chunk>) {
    forall p :: p in current ==> InHand(current[p], p, chunks)
  }

  ghost predicate AllMadeBy(s: State, chunks: seq<Chunk>) {
    forall c :: 0 <= c < |chunks| ==> MadeBy(s, chunks[c], c)
  }

  ghost predicate WorkInOrder(b: Both) {
    b.x.view.Running? ==>
      && b.t.height in b.t.rounds
      && AllInHand(b.x.s.current, b.t.rounds[b.t.height].chunks)
      && AllMadeBy(b.x.s, b.t.rounds[b.t.height].chunks)
  }

  // ----- what leaves the work alone

  /** Records of before, whose completed tasks are all still there. */
  lemma SameWork(b: Both, b': Both)
    requires WorkInOrder(b) && b'.x.view == b.x.view && b'.t.height == b.t.height
    requires b.t.height in b.t.rounds ==> b.t.height in b'.t.rounds && b'.t.rounds[b.t.height] == b.t.rounds[b.t.height]
    requires forall p :: p in b'.x.s.current ==> p in b.x.s.current && b'.x.s.current[p] == b.x.s.current[p]
    requires forall p :: p in Everyone(b.x.s) ==>
      p in Everyone(b'.x.s) && Everyone(b'.x.s)[p].completedTasks == Everyone(b.x.s)[p].completedTasks
    ensures WorkInOrder(b')
  {
    if b.x.view.Running? {
      var chunks := b.t.rounds[b.t.height].chunks;
      hide InHand, Everyone;
      forall c | 0 <= c < |chunks| ensures MadeBy(b'.x.s, chunks[c], c) {
        assert MadeBy(b.x.s, chunks[c], c);
      }
    }
  }

  lemma SameRecords(b: Both, b': Both)
    requires WorkInOrder(b) && b'.x.view == b.x.view && b'.t.height == b.t.height
    requires b.t.height in b.t.rounds ==> b.t.height in b'.t.rounds && b'.t.rounds[b.t.height] == b.t.rounds[b.t.height]
    requires b'.x.s.current == b.x.s.current && b'.x.s.Finished() == b.x.s.Finished()
    ensures WorkInOrder(b')
  {
    hide WorkInOrder;
    SameWork(b, b');
  }

  lemma AsideWork(env: Environment, b: Both, op: Rounds.Op)
    requires WorkInOrder(b) && Rounds.Possible(env, b.x.s, op) && Aside(op)
    ensures WorkInOrder(b.(x := Next(env, b.x, op)))
  {
    AsideFrame(env, b.x.s, op);
    AsideNext(env, b.x, op);
    assert Next(env, b.x, op).s == Rounds.Apply(env, b.x.s, op);
    hide WorkInOrder, Next, Rounds.Apply, Rounds.Possible;
    SameRecords(b, b.(x := Next(env, b.x, op)));
  }

  /** Members are on one of the rosters, with the same completed tasks, and who still works has the same record. */
  ghost predicate OnlyMoved(x: Exec, x': Exec) {
    && x'.view == x.view
    && (forall p :: p in x'.s.current ==> p in x.s.current && x'.s.current[p] == x.s.current[p])
    && forall p :: p in Everyone(x.s) ==>
         p in Everyone(x'.s) && Everyone(x'.s)[p].completedTasks == Everyone(x.s)[p].completedTasks
  }

  lemma MarkMoves(env: Environment, x: Exec, now: Time)
    requires Good(env, x) && x.view.Running?
    ensures OnlyMoved(x, Next(env, x, MarkFinished(now)))
  {
    hide Good, Next, UpdateCurrentContributors, StillWorking, NewlyFinished;
    NextMark(env, x, now);
    MarkShape(env, x, now);
  }

  lemma MarkWork(env: Environment, b: Both, now: Time)
    requires InStep(env, b) && WorkInOrder(b)
    ensures WorkInOrder(b.(x := Next(env, b.x, MarkFinished(now))))
  {
    MarkNext(env, b.x, now);
    if b.x.view.Running? {
      GoodOf(env, b);
      hide InStep, Good, WorkInOrder, Next;
      MarkMoves(env, b.x, now);
      SameWork(b, b.(x := Next(env, b.x, MarkFinished(now))));
    }
    hide Next;
  }

  lemma GoodOf(env: Environment, b: Both)
    requires InStep(env, b)
    ensures Good(env, b.x) && Undisturbed(env, b.x.s) && Orderly(b.t, env.chunks) && b.x.s.height == Some(b.t.height)
  {
    hide Good, Undisturbed, Orderly;
  }

  // ----- contributions and verifications

  /** The task on a chunk, and nothing else on it. */
  lemma OneOfChunk(env: Environment, x: Exec, p: Participant, t: Task, u: Task)
    requires Good(env, x) && p in x.s.current && t.chunk == u.chunk
    requires var info := x.s.current[p]; t in info.pendingTasks || t in info.assignedTasks || t in info.completedTasks
    requires var info := x.s.current[p]; u in info.pendingTasks || u in info.assignedTasks || u in info.completedTasks
    ensures t == u
  {
    MemberActive(env, x, p);
    var info, b, n := x.s.current[p], x.view.bucket[p], x.view.n;
    hide Good;
    HeldInBucket(info, b, env.chunks, n, t);
    HeldInBucket(info, b, env.chunks, n, u);
    TaskInBucket(b, t, env.chunks, n);
    TaskInBucket(b, u, env.chunks, n);
  }

  /** A record after its pending task on a locked chunk is completed. */
  lemma CompletedInHand(info: ParticipantInfo, p: Participant, chunks: seq<Chunk>, task: Task, chunk: Chunk)
    requires InHand(info, p, chunks) && task in info.pendingTasks && chunks[task.chunk].holder == Some(p)
    requires forall u :: u in info.pendingTasks && u.chunk == task.chunk ==> u == task
    ensures InHand(CompletedInfo(info, task), p, chunks[task.chunk := chunk])
  {
    var info' := CompletedInfo(info, task);
    forall u ensures u in info'.pendingTasks <==> u in info.pendingTasks && u != task {
      FilterMember(info.pendingTasks, (t: Task) => t != task, u);
    }
    hide InIdOrder, Without;
    forall c | c in info'.locked ensures HasChunk(info'.pendingTasks, c) {
      var u :| u in info.pendingTasks && u.chunk == c;
      assert u in info'.pendingTasks;
    }
  }

  /** A record of somebody else, when a chunk that it does not hold changes. */
  lemma OtherInHand(info: ParticipantInfo, q: Participant, chunks: seq<Chunk>, c: nat, chunk: Chunk)
    requires InHand(info, q, chunks) && c < |chunks| && chunks[c].holder != Some(q)
    ensures InHand(info, q, chunks[c := chunk])
  {
    hide InIdOrder, HasChunk;
  }

  lemma CompletedHands(current: Roster, chunks: seq<Chunk>, p: Participant, task: Task, chunk: Chunk)
    requires AllInHand(current, chunks) && p in current
    requires task in current[p].pendingTasks && task.chunk < |chunks| && chunks[task.chunk].holder == Some(p)
    requires forall u :: u in current[p].pendingTasks && u.chunk == task.chunk ==> u == task
    ensures AllInHand(current[p := CompletedInfo(current[p], task)], chunks[task.chunk := chunk])
  {
    var c, current' := task.chunk, current[p := CompletedInfo(current[p], task)];
    CompletedInHand(current[p], p, chunks, task, chunk);
    hide InHand, CompletedInfo;
    forall q | q in current' ensures InHand(current'[q], q, chunks[c := chunk]) {
      if q != p {
        OtherInHand(current[q], q, chunks, c, chunk);
      }
    }
  }

  lemma CompletedMade(s: State, s': State, chunks: seq<Chunk>, p: Participant, task: Task, chunk: Chunk)
    requires AllMadeBy(s, chunks) && p in s.current && p !in s.Finished()
    requires task.chunk < |chunks| && task.contribution == |chunks[task.chunk].verified|
    requires s'.current == s.current[p := CompletedInfo(s.current[p], task)] && s'.Finished() == s.Finished()
    requires chunk == Chunk(None, chunks[task.chunk].verified + [false], chunks[task.chunk].makers + [p])
    ensures AllMadeBy(s', chunks[task.chunk := chunk])
  {
    var chunks' := chunks[task.chunk := chunk];
    assert task == Task(task.chunk, task.contribution);
    forall q, t | DoneBy(s, q, t) ensures DoneBy(s', q, t) {
      DoneStays(s, s', p, task, q, t);
    }
    DoneNow(s, s', p, task);
    hide DoneBy, CompletedInfo;
    forall d | 0 <= d < |chunks'| ensures MadeBy(s', chunks'[d], d) {
      assert MadeBy(s, chunks[d], d);
    }
  }

  lemma DoneStays(s: State, s': State, p: Participant, task: Task, q: Participant, t: Task)
    requires p in s.current && p !in s.Finished() && DoneBy(s, q, t)
    requires s'.current == s.current[p := CompletedInfo(s.current[p], task)] && s'.Finished() == s.Finished()
    ensures DoneBy(s', q, t)
  {
    hide Without;
  }

  lemma DoneNow(s: State, s': State, p: Participant, task: Task)
    requires p in s.current && p !in s.Finished()
    requires s'.current == s.current[p := CompletedInfo(s.current[p], task)] && s'.Finished() == s.Finished()
    ensures DoneBy(s', p, task)
  {
    hide Without;
  }

  lemma RespondWork(env: Environment, hash: Bytes -> Hash, b: Both, p: Participant, c: nat, signed: bool)
    requires InStep(env, b) && WorkInOrder(b)
    ensures WorkInOrder(TryContribute(env, hash, b, p, c, signed))
  {
    GoodOf(env, b);
    RespondCases(env, hash, b, p, c, signed);
    hide InStep, WorkInOrder, TryContribute, CanContribute, Undisturbed, Next;
    if Accepts(env, hash, b, p, c, signed) {
      AcceptedWork(env, hash, b, p, c, signed);
    } else {
      SameRecords(b, TryContribute(env, hash, b, p, c, signed));
    }
  }

  /** The response is tried and accepted. */
  ghost predicate Accepts(env: Environment, hash: Bytes -> Hash, b: Both, p: Participant, c: nat, signed: bool) {
    && c <= env.chunks && IsCurrent(b.x.s, p) && Working(b.x.s) && CanContribute(hash, b.t, c, p, signed)
    && c in b.x.s.current[p].locked && |OnChunk(b.x.s.current[p].pendingTasks, c)| == 1
  }

  lemma RespondCases(env: Environment, hash: Bytes -> Hash, b: Both, p: Participant, c: nat, signed: bool)
    requires Undisturbed(env, b.x.s)
    ensures var b' := TryContribute(env, hash, b, p, c, signed);
      if Accepts(env, hash, b, p, c, signed)
      then b' == Both(Next(env, b.x, Complete(p, NextTask(b.t, c))), WithResponse(hash, b.t, c, p, signed))
      else b'.x == b.x && b'.t == b.t.(files := b'.t.files)
  {
    if p in b.x.s.current {
      OnChunkEmpty(b.x.s.current[p].disposingTasks, c);
    }
    hide Next, Working, OnChunk, WithResponse;
  }

  function NextTask(t: Store, c: nat): Task
    requires t.HasChunk(c)
  {
    Task(c, |t.rounds[t.height].chunks[c].verified|)
  }

  /** The execution after the contributor's next task on the chunk is completed. */
  ghost predicate Responded(b: Both, p: Participant, c: nat, x: Exec)
    requires b.t.HasChunk(c) && p in b.x.s.current
  {
    && x.view == b.x.view
    && x.s.current == b.x.s.current[p := CompletedInfo(b.x.s.current[p], NextTask(b.t, c))]
    && x.s.Finished() == b.x.s.Finished()
    && x.s.pendingVerification.Keys == b.x.s.pendingVerification.Keys + {NextTask(b.t, c)}
  }

  /** What an accepted response does to the state. */
  lemma AcceptedState(env: Environment, hash: Bytes -> Hash, b: Both, p: Participant, c: nat, signed: bool)
    requires InStep(env, b) && IsCurrent(b.x.s, p) && c <= env.chunks && CanContribute(hash, b.t, c, p, signed)
    ensures Responded(b, p, c, Next(env, b.x, Complete(p, NextTask(b.t, c))))
  {
    hide InStep, Good, CanContribute, Next, CompletedInfo, CompletedTask;
    HolderWorks(env, hash, b, p, c, signed);
    CompletionSucceeds(env, b.x, p, NextTask(b.t, c));
    NextComplete(env, b.x, p, NextTask(b.t, c));
  }

  /** The holder of a chunk's lock has its next task, and no other task of the chunk, at work. */
  lemma HolderWorks(env: Environment, hash: Bytes -> Hash, b: Both, p: Participant, c: nat, signed: bool)
    requires InStep(env, b) && IsCurrent(b.x.s, p) && c <= env.chunks && CanContribute(hash, b.t, c, p, signed)
    ensures Good(env, b.x) && b.t.HasChunk(c) && b.x.view.Running? && b.t.rounds[b.t.height].chunks[c].holder == Some(p)
    ensures var task, info := Task(c, |b.t.rounds[b.t.height].chunks[c].verified|), b.x.s.current[p];
      && task in info.pendingTasks && c in info.locked && p !in b.x.s.Finished() && task !in b.x.s.pendingVerification
      && forall u :: u in info.pendingTasks && u.chunk == c ==> u == task
  {
    MemberApart(env, b.x, p);
    var chunk := b.t.rounds[b.t.height].chunks[c];
    assert ChunkInStep(b.x.s, chunk, c) && HoldsLock(b.x.s, chunk, c, p);
    hide InStep, Good, ChunkInStep;
    var task := Task(c, |chunk.verified|);
    forall u | u in b.x.s.current[p].pendingTasks && u.chunk == c ensures u == task {
      OneOfChunk(env, b.x, p, u, task);
    }
  }

  lemma AcceptedWork(env: Environment, hash: Bytes -> Hash, b: Both, p: Participant, c: nat, signed: bool)
    requires InStep(env, b) && WorkInOrder(b) && IsCurrent(b.x.s, p) && c <= env.chunks && CanContribute(hash, b.t, c, p, signed)
    ensures WorkInOrder(Both(Next(env, b.x, Complete(p, NextTask(b.t, c))), WithResponse(hash, b.t, c, p, signed)))
  {
    hide InStep, Next, AllInHand, AllMadeBy, WithResponse, CanContribute, CompletedInfo, Good;
    HolderWorks(env, hash, b, p, c, signed);
    AcceptedState(env, hash, b, p, c, signed);
    var x1, chunks, task := Next(env, b.x, Complete(p, NextTask(b.t, c))), b.t.rounds[b.t.height].chunks, NextTask(b.t, c);
    var chunk := Chunk(None, chunks[c].verified + [false], chunks[c].makers + [p]);
    ResponseIs(hash, b.t, c, p, signed);
    CompletedHands(b.x.s.current, chunks, p, task, chunk);
    CompletedMade(b.x.s, x1.s, chunks, p, task, chunk);
    InOrderAgain(b, x1, c, chunk, WithResponse(hash, b.t, c, p, signed));
  }

  lemma ResponseIs(hash: Bytes -> Hash, t: Store, c: nat, p: Participant, signed: bool)
    requires CanContribute(hash, t, c, p, signed)
    ensures var chunk := t.rounds[t.height].chunks[c];
      WithResponse(hash, t, c, p, signed) == WithChunk(t, c, Chunk(None, chunk.verified + [false], chunk.makers + [p]))
  {
  }

  lemma InOrderAgain(b: Both, x': Exec, c: nat, chunk: Chunk, t': Store)
    requires b.t.HasChunk(c) && t' == WithChunk(b.t, c, chunk)
    requires AllInHand(x'.s.current, b.t.rounds[b.t.height].chunks[c := chunk])
    requires AllMadeBy(x'.s, b.t.rounds[b.t.height].chunks[c := chunk])
    ensures WorkInOrder(Both(x', t'))
  {
    hide AllInHand, AllMadeBy;
  }

  lemma ApproveWork(env: Environment, hash: Bytes -> Hash, b: Both, v: Participant, task: Task, signed: bool)
    requires InStep(env, b) && WorkInOrder(b)
    ensures WorkInOrder(TryVerify(env, hash, b, v, task, signed))
  {
    hide InStep, WorkInOrder, CanVerify, Working, Next, WithChallenge;
    if v.Verifier? && task.chunk <= env.chunks && Working(b.x.s) && CanVerify(hash, b.t, task, v, signed) {
      ApprovedWork(env, hash, b, v, task, signed);
    } else {
      SameRecords(b, TryVerify(env, hash, b, v, task, signed));
    }
  }

  lemma ApprovedWork(env: Environment, hash: Bytes -> Hash, b: Both, v: Participant, task: Task, signed: bool)
    requires InStep(env, b) && WorkInOrder(b) && task.chunk <= env.chunks && CanVerify(hash, b.t, task, v, signed)
    ensures WorkInOrder(Both(Next(env, b.x, Complete(v, task)), WithChallenge(hash, b.t, task, v, signed)))
  {
    hide Next, AllInHand, AllMadeBy, Good, Orderly;
    UnverifiedRuns(env, b, task.chunk);
    var c, chunks, x1 := task.chunk, b.t.rounds[b.t.height].chunks, Next(env, b.x, Complete(v, task));
    assert ChunkInStep(b.x.s, chunks[c], c) && chunks[c].holder.None?;
    var chunk := chunks[c].(holder := None, verified := chunks[c].verified[task.contribution := true]);
    assert WithChallenge(hash, b.t, task, v, signed) == WithChunk(b.t, c, chunk);
    NextComplete(env, b.x, v, task);
    VerifierChanges(env, b.x.s, v, task);
    hide InStep, CanVerify, WithChallenge, CompletedTask, ChunkInStep;
    VerifiedWork(b.x.s, x1.s, chunks, c, chunk);
    InOrderAgain(b, x1, c, chunk, WithChunk(b.t, c, chunk));
  }

  lemma VerifierChanges(env: Environment, s: State, v: Participant, task: Task)
    requires v.Verifier?
    ensures var s' := CompletedTask(env, s, v, task).0; s'.current == s.current && s'.Finished() == s.Finished()
  {
  }

  lemma VerifiedWork(s: State, s': State, chunks: seq<Chunk>, c: nat, chunk: Chunk)
    requires AllInHand(s.current, chunks) && AllMadeBy(s, chunks) && c < |chunks| && chunks[c].holder.None?
    requires s'.current == s.current && s'.Finished() == s.Finished()
    requires chunk.makers == chunks[c].makers && |chunk.verified| == |chunks[c].verified|
    ensures AllInHand(s'.current, chunks[c := chunk]) && AllMadeBy(s', chunks[c := chunk])
  {
    var chunks' := chunks[c := chunk];
    forall q | q in s'.current ensures InHand(s'.current[q], q, chunks') {
      OtherInHand(s.current[q], q, chunks, c, chunk);
    }
    hide InHand;
    forall d | 0 <= d < |chunks'| ensures MadeBy(s', chunks'[d], d) {
      assert MadeBy(s, chunks[d], d);
    }
  }

  // ----- locks

  /** The record after its first assigned task is taken up and its chunk locked. */
  function TakenUp(info: ParticipantInfo): ParticipantInfo
    requires info.assignedTasks != []
  {
    Locking(info.(assignedTasks := info.assignedTasks[1..], pendingTasks := info.pendingTasks + [info.assignedTasks[0]]),
            info.assignedTasks[0].chunk)
  }

  /** The contributor's first assigned task is the next contribution of its chunk, and the chunk can be locked for it. */
  predicate Lockable(env: Environment, b: Both, p: Participant) {
    && IsCurrent(b.x.s, p) && Working(b.x.s)
    && var info := b.x.s.current[p];
    && |info.locked| < env.lockLimit && info.assignedTasks != []
    && var task := info.assignedTasks[0];
    && b.t.HasChunk(task.chunk) && task.contribution <= |b.t.rounds[b.t.height].chunks[task.chunk].verified|
    && CanLock(env, b.t, task.chunk, p)
  }

  /** The first assigned task is apart from all others, and its chunk is not locked. */
  lemma HeadApart(env: Environment, b: Both, p: Participant)
    requires InStep(env, b) && WorkInOrder(b) && p in b.x.s.current && b.x.s.current[p].assignedTasks != []
    ensures var info := b.x.s.current[p]; var task := info.assignedTasks[0];
      && info.Activity().Ok? && info.id == p
      && task !in info.pendingTasks && task !in info.completedTasks && task !in info.assignedTasks[1..]
      && !HasChunk(info.completedTasks, task.chunk) && task.chunk !in info.locked
      && task.chunk < env.chunks
  {
    GoodOf(env, b);
    var info := b.x.s.current[p]; var task := info.assignedTasks[0];
    hide InStep, Good, WorkInOrder, Conserved;
    ActiveMember(env, b, p);
    LocksAtWork(b, p);
    HeadOnce(info, b.x.view.bucket[p], env.chunks, b.x.view.n);
    if u :| u in info.completedTasks && u.chunk == task.chunk {
      OneOfChunk(env, b.x, p, u, task);
    }
    if u :| u in info.pendingTasks && u.chunk == task.chunk {
      OneOfChunk(env, b.x, p, u, task);
    }
  }

  lemma LocksAtWork(b: Both, p: Participant)
    requires WorkInOrder(b) && b.x.view.Running? && p in b.x.s.current
    ensures forall c :: c in b.x.s.current[p].locked ==> HasChunk(b.x.s.current[p].pendingTasks, c)
  {
    assert InHand(b.x.s.current[p], p, b.t.rounds[b.t.height].chunks);
  }

  lemma HeadOnce(info: ParticipantInfo, b: nat, chunks: nat, n: nat)
    requires Conserved(info, b, chunks, n) && info.assignedTasks != []
    ensures var task := info.assignedTasks[0];
      && task !in info.pendingTasks && task !in info.completedTasks && task !in info.assignedTasks[1..] && task.chunk < chunks
  {
    var task := info.assignedTasks[0];
    BucketCount(b, chunks, n, task);
    HeldInBucket(info, b, chunks, n, task);
    TaskInBucket(b, task, chunks, n);
    assert info.assignedTasks == [task] + info.assignedTasks[1..];
    InMultiset(info.assignedTasks[1..], task);
    InMultiset(info.pendingTasks, task);
    InMultiset(info.completedTasks, task);
    assert Held(info)[task] <= 1;
  }

  /** A task that is fetched and put back leaves the record as it was. */
  lemma PutBack(info: ParticipantInfo)
    requires info.Activity().Ok? && info.assignedTasks != []
    requires var task := info.assignedTasks[0];
      && task !in info.pendingTasks && task !in info.completedTasks && task !in info.assignedTasks[1..]
      && !HasChunk(info.completedTasks, task.chunk) && task.chunk !in info.locked
    ensures info.PopTask().Ok? && info.PopTask().value.1 == info.assignedTasks[0]
    ensures info.PopTask().value.0.RollbackPendingTask(info.assignedTasks[0]) == (info, Ok(()))
  {
    var task := info.assignedTasks[0];
    var popped := info.PopTask().value.0;
    assert task in popped.pendingTasks;
    DroppedLast(info.pendingTasks, task);
    assert info.assignedTasks == [task] + info.assignedTasks[1..];
    hide Without;
  }

  lemma DroppedLast(tasks: seq<Task>, task: Task)
    requires task !in tasks
    ensures Without(tasks + [task], task) == tasks
  {
    FilterAppend(tasks, task, (t: Task) => t != task);
    NothingRemoved(tasks, task);
  }

  /** Fetching a task in the state: what is left to do and what is at work. */
  lemma FetchIs(env: Environment, s: State, p: Participant)
    requires p.Contributor? && p in s.current && s.current[p].Activity().Ok?
    ensures var (s1, r) := FetchTask(env, s, p); var info := s.current[p];
      if |info.locked| < env.lockLimit && info.assignedTasks != []
      then s1 == WithInfo(s, p, info.PopTask().value.0) && r == Ok(info.assignedTasks[0])
      else s1 == s && r.Err?
  {
  }

  /** The record that was there before is put back. */
  lemma Restored(s: State, p: Participant, info: ParticipantInfo)
    requires p in s.current
    ensures WithInfo(WithInfo(s, p, info), p, s.current[p]) == s
  {
    assert s.current[p := info][p := s.current[p]] == s.current;
  }

  lemma Overwritten(s: State, p: Participant, a: ParticipantInfo, b: ParticipantInfo)
    ensures WithInfo(WithInfo(s, p, a), p, b) == WithInfo(s, p, b)
  {
    assert s.current[p := a][p := b] == s.current[p := b];
  }

  lemma PutBackState(env: Environment, s: State, p: Participant)
    requires p in s.current && s.current[p].Activity().Ok? && s.current[p].assignedTasks != []
    requires var info := s.current[p]; var task := info.assignedTasks[0];
      && task !in info.pendingTasks && task !in info.completedTasks && task !in info.assignedTasks[1..]
      && !HasChunk(info.completedTasks, task.chunk) && task.chunk !in info.locked && task.chunk <= env.chunks
    ensures var info := s.current[p];
      RollbackPendingTask(env, WithInfo(s, p, info.PopTask().value.0), p, info.assignedTasks[0]).0 == s
  {
    var info := s.current[p];
    PutBack(info);
    Restored(s, p, info.PopTask().value.0);
    hide WithInfo, ParticipantInfo.PopTask, ParticipantInfo.RollbackPendingTask, HasChunk;
    RecordThere(s, p, info.PopTask().value.0);
  }

  lemma RecordThere(s: State, p: Participant, info: ParticipantInfo)
    ensures p in WithInfo(s, p, info).current && WithInfo(s, p, info).current[p] == info
  {
  }

  /** The lock of a fetched task in the state. */
  lemma TakeUpState(env: Environment, s: State, p: Participant)
    requires p.Contributor? && p in s.current && s.current[p].id == p && s.current[p].Activity().Ok?
    requires s.current[p].assignedTasks != [] && s.current[p].assignedTasks[0].chunk <= env.chunks
    requires !HasChunk(s.current[p].completedTasks, s.current[p].assignedTasks[0].chunk)
    ensures var info := s.current[p];
      AcquiredLock(env, WithInfo(s, p, info.PopTask().value.0), p, info.assignedTasks[0].chunk).0 == WithInfo(s, p, TakenUp(info))
  {
    var info := s.current[p];
    var popped, task := info.PopTask().value.0, info.assignedTasks[0];
    assert task in popped.pendingTasks;
    RecordThere(s, p, popped);
    LockState(env, WithInfo(s, p, popped), p, task);
    Overwritten(s, p, popped, TakenUp(info));
    hide AcquiredLock, WithInfo, HasChunk;
  }

  /**
    Locking takes up exactly the first assigned task, when that is the next contribution of its
    chunk and the chunk can be locked; otherwise nothing changes, in the state or in storage.
   */
  lemma LockTakesFirst(env: Environment, b: Both, p: Participant, blank: Bytes)
    requires InStep(env, b) && WorkInOrder(b)
    ensures Lockable(env, b, p) ==>
      var info := b.x.s.current[p];
      TryLock(env, b, p, blank) ==
      Both(b.x.(s := WithInfo(b.x.s, p, TakenUp(info))), WithLock(env, b.t, info.assignedTasks[0].chunk, p, blank))
    ensures !Lockable(env, b, p) ==> TryLock(env, b, p, blank) == b
  {
    LockUnfolds(env, b, p, blank);
    hide InStep, WorkInOrder, TryLock, Working, CanLock, WithLock, FetchTask, RollbackPendingTask, AcquiredLock, WithInfo, TakenUp;
    if IsCurrent(b.x.s, p) {
      ActiveMember(env, b, p);
      FetchIs(env, b.x.s, p);
      if b.x.s.current[p].assignedTasks != [] {
        HeadApart(env, b, p);
        PutBackState(env, b.x.s, p);
        TakeUpState(env, b.x.s, p);
        HasChunks(env, b, b.x.s.current[p].assignedTasks[0].chunk);
      }
    }
  }

  lemma ActiveMember(env: Environment, b: Both, p: Participant)
    requires InStep(env, b) && p in b.x.s.current
    ensures b.x.view.Running? && p in b.x.view.bucket
    ensures Active(env, p, b.x.s.current[p], b.x.view.bucket[p], b.x.view.n, b.x.s.height.value)
    ensures b.x.s.current[p].Activity().Ok? && b.x.s.current[p].id == p
  {
    GoodOf(env, b);
    hide Good, InStep;
    MemberActive(env, b.x, p);
  }

  lemma HasChunks(env: Environment, b: Both, c: nat)
    requires InStep(env, b)
    ensures b.t.HasChunk(c) <==> c < env.chunks
  {
    assert Shaped(b.t, env.chunks);
    hide Good, Undisturbed, ChunksInStep;
  }

  lemma LockWork(env: Environment, b: Both, p: Participant, blank: Bytes)
    requires InStep(env, b) && WorkInOrder(b)
    ensures WorkInOrder(TryLock(env, b, p, blank))
  {
    LockTakesFirst(env, b, p, blank);
    hide TryLock;
    if Lockable(env, b, p) {
      ActiveMember(env, b, p);
      HeadApart(env, b, p);
      var info, chunks := b.x.s.current[p], b.t.rounds[b.t.height].chunks;
      var c := info.assignedTasks[0].chunk;
      hide InStep, Working, TakenUp, AllInHand, AllMadeBy;
      TakenInHand(b.x.s.current, p, chunks);
      RecordMade(b.x.s, p, TakenUp(info), chunks, c);
      var chunk := chunks[c].(holder := Some(p));
      assert WithLock(env, b.t, c, p, blank) == WithChunk(b.t, c, chunk).(files := WithLock(env, b.t, c, p, blank).files);
      hide WithLock, CanLock;
      InOrderAgain(b, b.x.(s := WithInfo(b.x.s, p, TakenUp(info))), c, chunk, WithChunk(b.t, c, chunk));
      FilesWork(Both(b.x.(s := WithInfo(b.x.s, p, TakenUp(info))), WithChunk(b.t, c, chunk)), WithLock(env, b.t, c, p, blank).files);
    }
  }

  lemma FilesWork(b: Both, files: map<Locator, Bytes>)
    requires WorkInOrder(b)
    ensures WorkInOrder(b.(t := b.t.(files := files)))
  {
    hide AllInHand, AllMadeBy;
  }

  lemma TakenInHand(current: Roster, p: Participant, chunks: seq<Chunk>)
    requires AllInHand(current, chunks) && p in current && current[p].assignedTasks != []
    requires var c := current[p].assignedTasks[0].chunk; c < |chunks| && chunks[c].holder.None?
    ensures var c := current[p].assignedTasks[0].chunk;
      AllInHand(current[p := TakenUp(current[p])], chunks[c := chunks[c].(holder := Some(p))])
  {
    var c := current[p].assignedTasks[0].chunk;
    var chunks', current' := chunks[c := chunks[c].(holder := Some(p))], current[p := TakenUp(current[p])];
    assert InHand(current[p], p, chunks);
    TakenOne(current[p], p, chunks);
    hide InHand, TakenUp;
    forall q | q in current' ensures InHand(current'[q], q, chunks') {
      if q != p {
        OtherInHand(current[q], q, chunks, c, chunks[c].(holder := Some(p)));
      }
    }
  }

  lemma TakenOne(info: ParticipantInfo, p: Participant, chunks: seq<Chunk>)
    requires InHand(info, p, chunks) && info.assignedTasks != []
    requires var c := info.assignedTasks[0].chunk; c < |chunks| && chunks[c].holder.None?
    ensures var c := info.assignedTasks[0].chunk; InHand(TakenUp(info), p, chunks[c := chunks[c].(holder := Some(p))])
  {
    var task, info' := info.assignedTasks[0], TakenUp(info);
    forall c | c in info'.locked ensures HasChunk(info'.pendingTasks, c) {
      if c == task.chunk {
        assert task in info'.pendingTasks;
      } else {
        var u :| u in info.pendingTasks && u.chunk == c;
        assert u in info'.pendingTasks;
      }
    }
  }

  lemma RecordMade(s: State, p: Participant, info: ParticipantInfo, chunks: seq<Chunk>, c: nat)
    requires AllMadeBy(s, chunks) && p in s.current && c < |chunks|
    requires info.completedTasks == s.current[p].completedTasks
    ensures AllMadeBy(WithInfo(s, p, info), chunks[c := chunks[c].(holder := Some(p))])
  {
    var s', chunks' := WithInfo(s, p, info), chunks[c := chunks[c].(holder := Some(p))];
    forall q, t | DoneBy(s, q, t) ensures DoneBy(s', q, t) {
      RecordDone(s, p, info, q, t);
    }
    hide DoneBy, WithInfo;
    forall d | 0 <= d < |chunks'| ensures MadeBy(s', chunks'[d], d) {
      assert MadeBy(s, chunks[d], d);
    }
  }

  lemma RecordDone(s: State, p: Participant, info: ParticipantInfo, q: Participant, t: Task)
    requires p in s.current && info.completedTasks == s.current[p].completedTasks && DoneBy(s, q, t)
    ensures DoneBy(WithInfo(s, p, info), q, t)
  {
  }

  // ----- rounds that begin

  lemma BeginsInOrder(b: Both)
    requires b.t.height in b.t.rounds && Beginning(b.x.s.current)
    requires forall c :: 0 <= c < |b.t.rounds[b.t.height].chunks| ==> b.t.rounds[b.t.height].chunks[c] == NEW_CHUNK
    ensures WorkInOrder(b)
  {
    hide InIdOrder;
  }

  lemma StagedBegins(env: Environment, next: Roster, height: nat)
    requires Staged(env, next, height)
    ensures Beginning(next)
  {
    forall p | p in next ensures InIdOrder(next[p].assignedTasks) && next[p].locked == {} && next[p].pendingTasks == [] {
      IdsNeverFall(next[p].bucket, env.chunks, |next|);
      hide BucketTasks, InIdOrder;
    }
  }

  lemma AdvanceWork(env: Environment, b: Both, order: seq<Participant>, now: Time)
    requires InStep(env, b) && WorkInOrder(b) && ReliabilityOrder(b.x.s.queue, b.x.s.Height() + 1, order)
    ensures WorkInOrder(TryAdvance(env, b, order, now))
  {
    GoodOf(env, b);
    hide InStep, Good, WorkInOrder, Next, PrecommitNextRound, CanOpen, ReliabilityOrder, TryAdvance,
      WithPrecommit, WithRollback, WithCommit;
    AdvanceCases(env, b, order, now);
    PrecommitWork(env, b, order, now);
    RollbackWork(env, WithPrecommit(env, b, order, now), now);
    if PrecommitNextRound(env, b.x.s, b.x.s.Height() + 1, order, now).1.Ok? && CanOpen(env, b.t, order) {
      CommitWork(env, b, order, now);
    }
  }

  /** The steps of advancing. */
  ghost function WithPrecommit(env: Environment, b: Both, order: seq<Participant>, now: Time): Both
    requires ReliabilityOrder(b.x.s.queue, b.x.s.Height() + 1, order)
  {
    b.(x := Next(env, b.x, PrecommitRound(b.x.s.Height() + 1, order, now)))
  }

  ghost function WithRollback(env: Environment, b: Both, now: Time): Both { b.(x := Next(env, b.x, RollbackRound(now))) }

  ghost function WithCommit(env: Environment, b: Both, order: seq<Participant>): Both {
    Both(Next(env, b.x, CommitRound), WithNextRound(env, b.t, order))
  }

  lemma AdvanceCases(env: Environment, b: Both, order: seq<Participant>, now: Time)
    requires ReliabilityOrder(b.x.s.queue, b.x.s.Height() + 1, order)
    ensures var b', b1 := TryAdvance(env, b, order, now), WithPrecommit(env, b, order, now);
      || b' == b
      || b' == WithRollback(env, b1, now)
      || (&& PrecommitNextRound(env, b.x.s, b.x.s.Height() + 1, order, now).1.Ok? && CanOpen(env, b.t, order)
          && b' == WithCommit(env, b1, order))
  {
    hide Next, PrecommitNextRound, CanOpen, ReliabilityOrder, WithNextRound;
  }

  lemma PrecommitWork(env: Environment, b: Both, order: seq<Participant>, now: Time)
    requires WorkInOrder(b) && ReliabilityOrder(b.x.s.queue, b.x.s.Height() + 1, order)
    ensures WorkInOrder(WithPrecommit(env, b, order, now))
  {
    hide WorkInOrder, Next, ReliabilityOrder;
    AsideWork(env, b, PrecommitRound(b.x.s.Height() + 1, order, now));
  }

  lemma RollbackWork(env: Environment, b: Both, now: Time)
    requires WorkInOrder(b)
    ensures WorkInOrder(WithRollback(env, b, now))
  {
    hide WorkInOrder, Next;
    AsideWork(env, b, RollbackRound(now));
  }

  lemma CommitWork(env: Environment, b: Both, order: seq<Participant>, now: Time)
    requires Good(env, b.x) && ReliabilityOrder(b.x.s.queue, b.x.s.Height() + 1, order) && CanOpen(env, b.t, order)
    requires PrecommitNextRound(env, b.x.s, b.x.s.Height() + 1, order, now).1.Ok?
    ensures WorkInOrder(WithCommit(env, WithPrecommit(env, b, order, now), order))
  {
    hide Good, WorkInOrder, Next, ReliabilityOrder, CanOpen, PrecommitNextRound;
    PrecommitReady(env, b.x, b.x.s.Height() + 1, order, now);
    OpenWork(env, WithPrecommit(env, b, order, now), order);
  }

  lemma PrecommitReady(env: Environment, x: Exec, height: nat, order: seq<Participant>, now: Time)
    requires Good(env, x) && ReliabilityOrder(x.s.queue, height, order) && PrecommitNextRound(env, x.s, height, order, now).1.Ok?
    ensures var x1 := Next(env, x, PrecommitRound(height, order, now)); Good(env, x1) && x1.s.status == Precommit
  {
    hide Good, Next, PrecommitNextRound, ReliabilityOrder;
    StepGood(env, x, PrecommitRound(height, order, now));
    NextPrecommit(env, x, height, order, now);
    PrecommitOutcome(env, x.s, height, order, now);
  }

  lemma OpenWork(env: Environment, b: Both, order: seq<Participant>)
    requires Good(env, b.x) && b.x.s.status == Precommit && CanOpen(env, b.t, order)
    ensures WorkInOrder(Both(Next(env, b.x, CommitRound), WithNextRound(env, b.t, order)))
  {
    assert Sound(env, b.x.s);
    hide Good, Next, CanOpen;
    assert b.x.s.height.Some?;
    NextCommit(env, b.x);
    CommitShape(env, b.x.s);
    hide Sound, Staged, CommitNextRound;
    StagedBegins(env, b.x.s.next, b.x.s.height.value + 1);
    hide Beginning;
    BeginsInOrder(Both(Next(env, b.x, CommitRound), WithNextRound(env, b.t, order)));
  }

  lemma DismissWork(env: Environment, b: Both, p: Participant, working: seq<Participant>, done: seq<Participant>, now: Time)
    requires InStep(env, b) && Rostered(b) && WorkInOrder(b) && DropOrder(env, b.x.s, p, working, done, now)
    requires DropsMember(b.x.s, p) ==> env.coordinatorContributors == []
    ensures WorkInOrder(TryDrop(env, b, p, working, done, now))
  {
    hide InStep, Rostered, WorkInOrder, DropOrder, DropsMember, TryDrop;
    if DropsMember(b.x.s, p) {
      DismissIs(env, b, p, working, done, now);
      hide Dismissed;
      RestartedWork(env, b, p, working + done, TryDrop(env, b, p, working, done, now));
    } else {
      AsideDropped(env, b, p, working, done, now);
      SameRecords(b, TryDrop(env, b, p, working, done, now));
    }
  }

  lemma RestartedWork(env: Environment, b: Both, p: Participant, keys: seq<Participant>, b': Both)
    requires Dismissed(env, b, p, keys, b') && Rostered(b)
    ensures WorkInOrder(b')
  {
    if keys != [] {
      assert 0 < b.t.height && b.t.height in b.t.rounds && Beginning(b'.x.s.current);
      KeptRound(env, b.t, p, keys, b.x.view.bucket.Keys);
      hide Good, Orderly, WithReset, Rostered, Distinct, Indices, Beginning, StartsOver;
      BeginsInOrder(b');
    }
  }

  // ----- every run

  lemma StepWork(env: Environment, hash: Bytes -> Hash, b: Both, op: JointRuns.Op)
    requires InStep(env, b) && Rostered(b) && WorkInOrder(b) && JointRuns.Possible(env, b, op)
    ensures WorkInOrder(JointRuns.Apply(env, hash, b, op))
  {
    hide InStep, Rostered, WorkInOrder, Next, TryDrop;
    match op
    case LockNext(p, blank) => LockWork(env, b, p, blank);
    case Respond(p, chunk, signed) => RespondWork(env, hash, b, p, chunk, signed);
    case Approve(v, task, signed) => ApproveWork(env, hash, b, v, task, signed);
    case Combine(succeeds, now) => CombineWork(env, b, succeeds, now);
    case Advance(order, now) => AdvanceWork(env, b, order, now);
    case Restart(working, done, now) => ResetWork(env, b, working, done, now);
    case Schedule(o) =>
      if o.MarkFinished? {
        MarkWork(env, b, o.now);
      } else {
        AsideWork(env, b, o);
      }
    case Upload(file, content) => FilesWork(b, b.t.files[file := content]);
    case Remove(file) => FilesWork(b, b.t.files - {file});
    case Dismiss(p, working, done, now) => DismissWork(env, b, p, working, done, now);
  }

  lemma CombineWork(env: Environment, b: Both, succeeds: bool, now: Time)
    requires InStep(env, b) && WorkInOrder(b)
    ensures WorkInOrder(TryAggregate(env, b, succeeds, now))
  {
    hide InStep, WorkInOrder, Next, AggregatingCurrentRound, FinalFiles;
    var b1 := b.(x := Next(env, b.x, StartAggregation(now)));
    AsideWork(env, b, StartAggregation(now));
    AsideWork(env, b1, EndAggregation(now));
    AsideWork(env, b1, CancelAggregation);
    var t' := WithAggregate(b.t, succeeds);
    assert t'.rounds == b.t.rounds && t'.height == b.t.height;
    hide WithAggregate;
    SameRecords(b1.(x := Next(env, b1.x, EndAggregation(now))), Both(Next(env, b1.x, EndAggregation(now)), t'));
    SameRecords(b1.(x := Next(env, b1.x, CancelAggregation)), Both(Next(env, b1.x, CancelAggregation), t'));
  }

  lemma ResetWork(env: Environment, b: Both, working: seq<Participant>, done: seq<Participant>, now: Time)
    requires InStep(env, b) && WorkInOrder(b) && ResetOrder(b.x.s, working, done)
    ensures WorkInOrder(ForcedReset(env, b, working, done, now))
  {
    if ResetCurrentRound(env, b.x.s, true, working, done, now).1.Ok? {
      NextReset(env, b.x, working, done, now);
    }
    hide InStep, Next, ResetOrder, WithReset, ResetCurrentRound;
  }

  lemma {:induction false} RunWork(env: Environment, hash: Bytes -> Hash, bs: seq<Both>, ops: seq<JointRuns.Op>, i: nat)
    requires JointRuns.Run(env, hash, bs, ops) && i < |bs|
    ensures InStep(env, bs[i]) && Rostered(bs[i]) && WorkInOrder(bs[i])
  {
    hide InStep, Rostered, WorkInOrder, JointRuns.Apply, JointRuns.Possible, JointRuns.Run;
    RunInStep(env, hash, bs, ops, i);
    if i > 0 {
      RunWork(env, hash, bs, ops, i - 1);
      RunStep(env, hash, bs, ops, i);
      StepWork(env, hash, bs[i - 1], ops[i - 1]);
    } else {
      StartWork(env, hash, bs, ops);
    }
  }

  lemma StartWork(env: Environment, hash: Bytes -> Hash, bs: seq<Both>, ops: seq<JointRuns.Op>)
    requires JointRuns.Run(env, hash, bs, ops)
    ensures WorkInOrder(bs[0])
  {
    hide JointRuns.Apply, JointRuns.Possible;
  }

  /**
    In every run in which nobody is replaced, storage credits each contribution of the round to
    exactly the member that completed it, and no member made two contributions to a chunk.
   */
  lemma CreditsAreRight(env: Environment, hash: Bytes -> Hash, bs: seq<Both>, ops: seq<JointRuns.Op>, i: nat,
                        c: nat, id: nat, p: Participant)
    requires JointRuns.Run(env, hash, bs, ops) && i < |bs| && bs[i].x.view.Running? && c < env.chunks
    requires bs[i].t.HasChunk(c) && 1 <= id < |bs[i].t.rounds[bs[i].t.height].chunks[c].verified|
    ensures var makers := bs[i].t.rounds[bs[i].t.height].chunks[c].makers;
      && |makers| + 1 == |bs[i].t.rounds[bs[i].t.height].chunks[c].verified| && Distinct(makers)
      && (makers[id - 1] == p <==> DoneBy(bs[i].x.s, p, Task(c, id)))
  {
    RunWork(env, hash, bs, ops, i);
    var b := bs[i];
    hide JointRuns.Run;
    GoodOf(env, b);
    var chunk := b.t.rounds[b.t.height].chunks[c];
    assert MadeBy(b.x.s, chunk, c);
    hide InStep, Good, Rostered, WorkInOrder;
    MakersDistinct(env, b.x, chunk, c);
    assert DoneBy(b.x.s, chunk.makers[id - 1], Task(c, id));
    if DoneBy(b.x.s, p, Task(c, id)) {
      DoneOnce(env, b.x, p, chunk.makers[id - 1], Task(c, id));
    }
  }

  /** Two members never complete the same task. */
  lemma DoneOnce(env: Environment, x: Exec, p: Participant, q: Participant, t: Task)
    requires Good(env, x) && x.view.Running? && DoneBy(x.s, p, t) && DoneBy(x.s, q, t)
    ensures p == q
  {
    ShareInBucket(env, x, p, t);
    ShareInBucket(env, x, q, t);
    InMultiset(Everyone(x.s)[p].completedTasks, t);
    InMultiset(Everyone(x.s)[q].completedTasks, t);
    assert Bijection(x.view.bucket, x.view.n);
    hide Good;
  }

  /** No member completes two tasks of a chunk. */
  lemma OneOfChunkDone(env: Environment, x: Exec, p: Participant, t: Task, u: Task)
    requires Good(env, x) && x.view.Running? && DoneBy(x.s, p, t) && DoneBy(x.s, p, u) && t.chunk == u.chunk
    ensures t == u
  {
    var info, b, n := Everyone(x.s)[p], x.view.bucket[p], x.view.n;
    assert Conserved(info, b, env.chunks, n);
    hide Good;
    HeldInBucket(info, b, env.chunks, n, t);
    HeldInBucket(info, b, env.chunks, n, u);
    TaskInBucket(b, t, env.chunks, n);
    TaskInBucket(b, u, env.chunks, n);
  }

  lemma MakersDistinct(env: Environment, x: Exec, chunk: Chunk, c: nat)
    requires Good(env, x) && x.view.Running? && MadeBy(x.s, chunk, c)
    ensures Distinct(chunk.makers)
  {
    hide Good, DoneBy;
    forall i, j | 0 <= i < j < |chunk.makers| ensures chunk.makers[i] != chunk.makers[j] {
      assert DoneBy(x.s, chunk.makers[i], Task(c, i + 1)) && DoneBy(x.s, chunk.makers[j], Task(c, j + 1));
      if chunk.makers[i] == chunk.makers[j] {
        OneOfChunkDone(env, x, chunk.makers[i], Task(c, i + 1), Task(c, j + 1));
      }
    }
  }
}
