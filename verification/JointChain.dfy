/**
  The hash chain under the operations of the coordinator. A response that the coordinator refuses is
  never one it had accepted; a verification that it refuses may erase a challenge in use. The module
  proves when the chain survives a verification, a whole run, and the drop of a contributor.
 */
module JointChain {
  import opened Wrappers
  import opened Tasks
  import opened Lists
  import opened Participants
  import opened Ceremony
  import opened Rounds
  import opened Conservation
  import opened Drops
  import opened Phase2
  import opened Codec
  import opened Stores
  import opened HashChain
  import opened StoredDrops
  import opened StoredResets
  import opened Joint
  import opened JointRuns

  // ----- verifications

  /** The verification is not tried, is accepted, or is refused without harm: the challenge it erases is not in use. */
  ghost predicate Harmless(hash: Bytes -> Hash, b: Both, v: Participant, task: Task, signed: bool) {
    v.Contributor? || !Working(b.x.s) || CanVerify(hash, b.t, task, v, signed) || !(b.t.HasChunk(task.chunk) && InUse(b.t, task))
  }

  /** The chain survives a verification exactly when it is harmless. */
  lemma VerifyKeepsChainIff(env: Environment, hash: Bytes -> Hash, b: Both, v: Participant, task: Task, signed: bool)
    requires Chained(hash, b.t, env.chunks) && 1 <= b.t.height && task.chunk < env.chunks
    ensures Chained(hash, TryVerify(env, hash, b, v, task, signed).t, env.chunks) <==> Harmless(hash, b, v, task, signed)
  {
    assert b.t.HasChunk(task.chunk);
    hide Chained, InUse, CanVerify, Working, Next;
    if CanVerify(hash, b.t, task, v, signed) {
      ChallengeChained(hash, b.t, env.chunks, task, v, signed);
    } else {
      ErasureKeepsChainIff(hash, b.t, env.chunks, task);
    }
  }

  /**
    A verification that was just accepted is asked for again. The chain survives exactly when the
    round does not take work any more.
   */
  lemma VerifyTwiceIff(env: Environment, hash: Bytes -> Hash, b: Both, v: Participant, task: Task, signed: bool)
    requires Chained(hash, b.t, env.chunks) && 1 <= b.t.height && task.chunk < env.chunks
    requires Working(b.x.s) && CanVerify(hash, b.t, task, v, signed)
    ensures var b1 := TryVerify(env, hash, b, v, task, signed);
      && Chained(hash, b1.t, env.chunks) && !CanVerify(hash, b1.t, task, v, signed)
      && (Chained(hash, TryVerify(env, hash, b1, v, task, signed).t, env.chunks) <==> !Working(b1.x.s))
  {
    ChallengeChained(hash, b.t, env.chunks, task, v, signed);
    var b1 := TryVerify(env, hash, b, v, task, signed);
    assert b1.t.rounds[b1.t.height].chunks[task.chunk].Verified(task.contribution);
    assert b1.t == WithChallenge(hash, b.t, task, v, signed);
    hide Chained, Next, Working;
    VerifyKeepsChainIff(env, hash, b1, v, task, signed);
  }

  /** In step, the round takes no more work after a verification exactly when that was the last thing it waited for. */
  lemma LastVerification(env: Environment, hash: Bytes -> Hash, b: Both, v: Participant, task: Task, signed: bool)
    requires InStep(env, b) && task.chunk < env.chunks && Working(b.x.s) && CanVerify(hash, b.t, task, v, signed)
    ensures Working(TryVerify(env, hash, b, v, task, signed).x.s) <==>
      !(b.x.s.current == map[] && b.x.s.pendingVerification.Keys == {task})
  {
    UnverifiedRuns(env, b, task.chunk);
    var s, chunks := b.x.s, b.t.rounds[b.t.height].chunks;
    assert ChunkInStep(s, chunks[task.chunk], task.chunk) && task == Task(task.chunk, task.contribution);
    NextComplete(env, b.x, v, task);
    VerificationEnds(env, s, chunks, v, task);
    hide InStep, Next, CompletedTask, ChunkInStep, CanVerify;
    OnlyOne(s.pendingVerification, task);
  }

  lemma OnlyOne<K, V>(m: map<K, V>, k: K)
    requires k in m
    ensures m - {k} == map[] <==> m.Keys == {k}
  {
    if m - {k} == map[] {
      forall x | x in m ensures x == k {
        assert x != k ==> x in m - {k};
      }
    }
  }

  /** One verified contribution, in a round that still waits: asking for its verification again breaks the chain. */
  lemma HarmfulVerificationExists(env: Environment, hash: Bytes -> Hash) returns (b: Both, v: Participant, task: Task)
    requires env.chunks == 1
    ensures Chained(hash, b.t, env.chunks) && 1 <= b.t.height && v.Verifier? && task.chunk < env.chunks
    ensures forall signed :: !Chained(hash, TryVerify(env, hash, b, v, task, signed).t, env.chunks)
  {
    var t, p := LockedDropExists(hash);
    v, task := Verifier("v"), Task(0, 1);
    var s := Initialize(NEW_STATE, 1).(pendingVerification := map[Task(0, 2) := v]);
    assert Task(0, 2) in s.pendingVerification;
    b := Both(Exec(s, NoRound, []), t);
    assert Working(s) && InUse(t, task);
    forall signed ensures !Chained(hash, TryVerify(env, hash, b, v, task, signed).t, env.chunks) {
      assert !CanVerify(hash, t, task, v, signed);
      hide Chained, CanVerify, InUse, Working;
      VerifyKeepsChainIff(env, hash, b, v, task, signed);
    }
  }

  // ----- every run

  /** Accepted files are neither rewritten nor removed from outside, and no verification does harm. */
  ghost predicate Honest(hash: Bytes -> Hash, b: Both, op: JointRuns.Op) {
    match op
    case Upload(file, _) => !InTranscript(b.t, file)
    case Remove(file) => !InTranscript(b.t, file)
    case Approve(v, task, signed) => Harmless(hash, b, v, task, signed)
    case _ => true
  }

  lemma VerifyChained(env: Environment, hash: Bytes -> Hash, b: Both, v: Participant, task: Task, signed: bool)
    requires Chained(hash, b.t, env.chunks) && Harmless(hash, b, v, task, signed)
    ensures Chained(hash, TryVerify(env, hash, b, v, task, signed).t, env.chunks)
  {
    hide InUse, CanVerify, Working, Next;
    if task.chunk < env.chunks && 1 <= b.t.height {
      hide Chained;
      VerifyKeepsChainIff(env, hash, b, v, task, signed);
    } else if CanVerify(hash, b.t, task, v, signed) {
      ChallengeChained(hash, b.t, env.chunks, task, v, signed);
    } else if b.t.height == 0 {
      FilesOrderly(b.t, env.chunks, TryVerify(env, hash, b, v, task, signed).t.files);
    } else {
      FilesChained(hash, b.t, env.chunks, TryVerify(env, hash, b, v, task, signed).t.files);
    }
  }

  /** In step, the response that a refused contribution erases was not accepted before. */
  lemma RefusedIsNew(env: Environment, b: Both, p: Participant, task: Task)
    requires InStep(env, b) && p in b.x.s.current && task in b.x.s.current[p].pendingTasks
    ensures !InTranscript(b.t, Locator(b.t.height, task.chunk, task.contribution, false))
  {
    NotYetDone(env, b.x, p, task);
    var chunk := b.t.rounds[b.t.height].chunks[task.chunk];
    assert ChunkInStep(b.x.s, chunk, task.chunk);
    hide Good, HasDone, Everyone;
  }

  lemma ContributeChained(env: Environment, hash: Bytes -> Hash, b: Both, p: Participant, c: nat, signed: bool)
    requires InStep(env, b) && Chained(hash, b.t, env.chunks)
    ensures Chained(hash, TryContribute(env, hash, b, p, c, signed).t, env.chunks)
  {
    if c <= env.chunks && IsCurrent(b.x.s, p) && Working(b.x.s) && c in b.x.s.current[p].locked {
      var info := b.x.s.current[p];
      assert info.disposingTasks == [];
      OnChunkEmpty(info.disposingTasks, c);
      OnChunkEmpty(info.pendingTasks, c);
      hide InStep, Chained, InTranscript, Next, Working, CanContribute, OnChunk;
      var pending := OnChunk(info.pendingTasks, c);
      if |pending| == 1 {
        if CanContribute(hash, b.t, c, p, signed) {
          ResponseChained(hash, b.t, env.chunks, c, p, signed);
        } else {
          assert pending[0] in pending;
          RefusedIsNew(env, b, p, pending[0]);
          FilesChained(hash, b.t, env.chunks, b.t.files - {Locator(b.t.height, c, pending[0].contribution, false)});
        }
      }
    }
  }

  lemma ResetChained(env: Environment, hash: Bytes -> Hash, b: Both, working: seq<Participant>, done: seq<Participant>, now: Time)
    requires InStep(env, b) && Chained(hash, b.t, env.chunks) && ResetOrder(b.x.s, working, done)
    ensures Chained(hash, ForcedReset(env, b, working, done, now).t, env.chunks)
  {
    var s := b.x.s;
    assert s.height == Some(b.t.height);
    hide InStep, Chained, Next, ResetOrder, WithReset, ResetCurrentRound;
    var reset := ResetCurrentRound(env, s, true, working, done, now).1;
    if reset.Ok? {
      ForcedOutcome(env, s, working, done, now);
      RollbackChained(hash, b.t, env.chunks, reset.value.removed);
      assert reset.value == ResetAction(reset.value.removed, true);
    }
  }

  lemma DismissChained(env: Environment, hash: Bytes -> Hash, b: Both, p: Participant,
                       working: seq<Participant>, done: seq<Participant>, now: Time)
    requires InStep(env, b) && Rostered(b) && Chained(hash, b.t, env.chunks) && DropOrder(env, b.x.s, p, working, done, now)
    requires DropsMember(b.x.s, p) ==> env.coordinatorContributors == []
    ensures Chained(hash, TryDrop(env, b, p, working, done, now).t, env.chunks)
  {
    hide InStep, Rostered, DropOrder, DropsMember, TryDrop, Chained;
    if DropsMember(b.x.s, p) {
      DismissIs(env, b, p, working, done, now);
      RestartChains(env, hash, b, p, working + done, TryDrop(env, b, p, working, done, now));
    } else {
      AsideDropped(env, b, p, working, done, now);
    }
  }

  lemma RestartChains(env: Environment, hash: Bytes -> Hash, b: Both, p: Participant, keys: seq<Participant>, b': Both)
    requires Dismissed(env, b, p, keys, b') && Rostered(b) && Chained(hash, b.t, env.chunks)
    ensures Chained(hash, b'.t, env.chunks)
  {
    hide Good, Orderly, Chained, WithReset, Distinct, Indices;
    if keys == [] {
      RollbackChained(hash, b.t, env.chunks, [p]);
    } else {
      assert keys[0] in keys;
      RestartChained(hash, b.t, env.chunks, [p]);
    }
  }

  lemma JointChained(env: Environment, hash: Bytes -> Hash, b: Both, op: JointRuns.Op)
    requires InStep(env, b) && Rostered(b) && Chained(hash, b.t, env.chunks)
    requires JointRuns.Possible(env, b, op) && Honest(hash, b, op)
    ensures Chained(hash, JointRuns.Apply(env, hash, b, op).t, env.chunks)
  {
    hide InStep, Rostered, Chained, InTranscript, Harmless, Next, WithLock, WithAggregate, WithNextRound, TryDrop;
    match op
    case LockNext(p, blank) =>
      if FetchTask(env, b.x.s, p).1.Ok? {
        LockChained(env, hash, b.t, env.chunks, FetchTask(env, b.x.s, p).1.value.chunk, p, blank);
      }
    case Respond(p, chunk, signed) => ContributeChained(env, hash, b, p, chunk, signed);
    case Approve(v, task, signed) => VerifyChained(env, hash, b, v, task, signed);
    case Combine(succeeds, now) => AggregateChained(hash, b.t, env.chunks, succeeds);
    case Advance(order, now) => AdvanceChained(env, hash, b.t, order);
    case Restart(working, done, now) => ResetChained(env, hash, b, working, done, now);
    case Schedule(o) =>
    case Upload(file, content) =>
      KeptBy(b.t, file, b.t.files[file := content]);
      FilesChained(hash, b.t, env.chunks, b.t.files[file := content]);
    case Remove(file) =>
      KeptBy(b.t, file, b.t.files - {file});
      FilesChained(hash, b.t, env.chunks, b.t.files - {file});
    case Dismiss(p, working, done, now) => DismissChained(env, hash, b, p, working, done, now);
  }

  lemma KeptBy(t: Store, file: Locator, files: map<Locator, Bytes>)
    requires !InTranscript(t, file) && forall f :: f in t.files && f != file ==> f in files && files[f] == t.files[f]
    ensures KeepsTranscript(t, files)
  {
    hide InTranscript;
  }

  ghost predicate HonestRun(env: Environment, hash: Bytes -> Hash, bs: seq<Both>, ops: seq<JointRuns.Op>) {
    JointRuns.Run(env, hash, bs, ops) && forall i :: 0 <= i < |ops| ==> Honest(hash, bs[i], ops[i])
  }

  lemma {:induction false} HonestRunChained(env: Environment, hash: Bytes -> Hash, bs: seq<Both>, ops: seq<JointRuns.Op>, i: nat)
    requires HonestRun(env, hash, bs, ops) && i < |bs|
    ensures Chained(hash, bs[i].t, env.chunks)
  {
    hide InStep, JointRuns.Possible, JointRuns.Apply, Honest;
    if i > 0 {
      HonestRunChained(env, hash, bs, ops, i - 1);
      RunInStep(env, hash, bs, ops, i - 1);
      hide Chained;
      JointChained(env, hash, bs[i - 1], ops[i - 1]);
    }
  }

  /**
    In every run of the coordinator in which nobody is replaced, accepted files are not touched from
    outside and no refused verification hits a challenge in use, the accepted files of every chunk
    form one unbroken chain from round 1 to the newest contribution.
   */
  lemma CoordinatorKeepsTranscript(env: Environment, hash: Bytes -> Hash, bs: seq<Both>, ops: seq<JointRuns.Op>, i: nat, c: nat)
    requires HonestRun(env, hash, bs, ops) && i < |bs| && c < env.chunks && 1 <= bs[i].t.height
    ensures OneChain(hash, bs[i].t, c)
  {
    hide Chained, HonestRun, OneChain;
    HonestRunChained(env, hash, bs, ops, i);
    ChainedUnbroken(hash, bs[i].t, env.chunks, c);
  }

  // ----- drops

  lemma {:induction false} OneLess(list: seq<Participant>, p: Participant)
    requires Distinct(list)
    ensures |Others(list, p)| == |list| - if p in list then 1 else 0
  {
    if list != [] {
      assert list == [list[0]] + list[1..];
      OneLess(list[1..], p);
    }
  }

  /** In step, a lock in storage is on an open chunk that its holder has not contributed to. */
  lemma LockIsOpen(env: Environment, b: Both, p: Participant, c: nat)
    requires InStep(env, b) && b.x.view.Running? && c < env.chunks
    requires b.t.HasChunk(c) && b.t.rounds[b.t.height].chunks[c].holder == Some(p)
    ensures var chunk, round := b.t.rounds[b.t.height].chunks[c], b.t.rounds[b.t.height];
      && chunk.Open() && |chunk.verified| <= |round.contributors|
      && p in b.x.s.current && c in b.x.s.current[p].locked && c !in Lost(b.x.s, p)
  {
    var chunk := b.t.rounds[b.t.height].chunks[c];
    assert ChunkInStep(b.x.s, chunk, c) && HoldsLock(b.x.s, chunk, c, p);
    var task := Task(c, |chunk.verified|);
    NotYetDone(env, b.x, p, task);
    OneTaskPerChunk(env, b.x, p, task);
    GoodMember(env, b.x, p);
    LostTask(env, b.x.s, b.x.view.n, b.x.view.bucket, p, c);
    hide Good, Orderly, HasDone, Everyone, Lost, Covered;
  }

  /** What storage asks of a drop holds of every member of a round. */
  lemma DropAccepted(env: Environment, b: Both, p: Participant)
    requires InStep(env, b) && Rostered(b) && p in b.x.s.current
    ensures Droppable(b.t, p) && RealIds(Lost(b.x.s, p)) && 1 <= b.t.height
  {
    GoodMember(env, b.x, p);
    var round := b.t.rounds[b.t.height];
    assert p in round.contributors && 1 <= b.t.height;
    OneLess(round.contributors, p);
    forall c | 0 <= c < |round.chunks| && round.chunks[c].holder == Some(p)
      ensures round.chunks[c].Open() && |round.chunks[c].verified| <= |round.contributors|
    {
      LockIsOpen(env, b, p, c);
    }
    RealLost(env, b.x, p);
  }

  lemma RealLost(env: Environment, x: Exec, p: Participant)
    requires Good(env, x) && p in x.s.current
    ensures RealIds(Lost(x.s, p))
  {
    GoodMember(env, x, p);
    MemberActive(env, x, p);
    forall c | c in Lost(x.s, p) ensures 1 <= Lost(x.s, p)[c] {
      LostTask(env, x.s, x.view.n, x.view.bucket, p, c);
      var t := Task(c, Lost(x.s, p)[c]);
      HeldInBucket(x.s.current[p], x.view.bucket[p], env.chunks, x.view.n, t);
      TaskInBucket(x.view.bucket[p], t, env.chunks, x.view.n);
    }
  }

  /** The contributor holds the lock of a chunk that somebody has contributed to. */
  predicate Answering(t: Store, p: Participant, c: nat) {
    && t.HasChunk(c)
    && var chunk := t.rounds[t.height].chunks[c];
    chunk.holder == Some(p) && 1 < |chunk.verified|
  }

  /**
    In every honest run of the coordinator, storage does not refuse the drop of a member, and the
    transcript survives it exactly when the member is not answering anybody's contribution.
   */
  lemma FirstDropIff(env: Environment, hash: Bytes -> Hash, bs: seq<Both>, ops: seq<JointRuns.Op>, i: nat,
                     p: Participant, q: Participant)
    requires HonestRun(env, hash, bs, ops) && i < |bs| && p in bs[i].x.s.current
    ensures Droppable(bs[i].t, p)
    ensures Chained(hash, StoreAfterDrop(bs[i].x.s, bs[i].t, p, q), env.chunks) <==>
      forall c :: 0 <= c < env.chunks ==> !Answering(bs[i].t, p, c)
  {
    HonestRunChained(env, hash, bs, ops, i);
    RunInStep(env, hash, bs, ops, i);
    hide HonestRun, Chained;
    var b, s, t := bs[i], bs[i].x.s, bs[i].t;
    DropAccepted(env, b, p);
    DropKeepsChainIff(hash, t, env.chunks, p, s.current[p].locked, Lost(s, p), q);
    forall c | 0 <= c < env.chunks
      ensures t.HasChunk(c) && (AnswersOther(t, p, s.current[p].locked, Lost(s, p), c) <==> Answering(t, p, c))
    {
      AnsweringIs(env, b, p, c);
    }
  }

  lemma AnsweringIs(env: Environment, b: Both, p: Participant, c: nat)
    requires InStep(env, b) && p in b.x.s.current && c < env.chunks
    ensures b.t.HasChunk(c)
    ensures AnswersOther(b.t, p, b.x.s.current[p].locked, Lost(b.x.s, p), c) <==> Answering(b.t, p, c)
  {
    MemberInStep(env, b, p);
    assert b.t.HasChunk(c) by { assert Shaped(b.t, env.chunks); }
    hide InStep, Lost;
    if b.t.rounds[b.t.height].chunks[c].holder == Some(p) {
      LockIsOpen(env, b, p, c);
    }
  }
}
