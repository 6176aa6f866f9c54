/**
  Who gets into a round: joining and leaving the queue, when a round is precommitted, what bans do,
  and that every round that is committed has an admissible number of members, none of them banned.
 */
module Admission {
  import opened Wrappers
  import opened Tasks
  import opened Lists
  import opened Participants
  import opened Ceremony
  import opened Rounds

  // ----- the queue

  /** Joining succeeds for a contributor that is new and welcome, and writes its entry; otherwise nothing changes. */
  lemma EnqueueIff(env: Environment, s: State, p: Participant, reliability: nat, now: Time)
    ensures var (s', r) := AddToQueue(env, s, p, reliability, now);
      && (r.Ok? <==>
            && p.Contributor? && p !in s.banned && p !in s.queue && p !in s.next
            && (env.allowCurrentInQueue || p !in s.current))
      && (r.Ok? ==>
            && p in s'.queue && s'.queue[p] == QueueEntry(reliability, None, now, now)
            && s'.queue - {p} == s.queue && s' == s.(queue := s'.queue))
      && (r.Err? ==> s' == s)
  {
    assert p !in s.queue ==> s.queue[p := QueueEntry(reliability, None, now, now)] - {p} == s.queue;
  }

  /** Leaving right after joining undoes it. */
  lemma EnqueueThenDequeue(env: Environment, s: State, p: Participant, reliability: nat, now: Time)
    requires AddToQueue(env, s, p, reliability, now).1.Ok?
    ensures RemoveFromQueue(AddToQueue(env, s, p, reliability, now).0, p) == (s, Ok(()))
  {
    assert s.queue[p := QueueEntry(reliability, None, now, now)] - {p} == s.queue;
  }

  /** Leaving takes out one waiting participant, and nobody else; who is staged cannot leave. */
  lemma DequeueIff(s: State, p: Participant)
    ensures var (s', r) := RemoveFromQueue(s, p);
      && (r.Ok? <==> p in s.queue && p !in s.next)
      && s' == s.(queue := if r.Ok? then s.queue - {p} else s.queue)
  {
  }

  /** Dropping someone that waits or is staged leaves it out of both; if it was staged, all others staged wait again. */
  lemma DropFromQueueIs(env: Environment, s: State, p: Participant, working: seq<Participant>, done: seq<Participant>, now: Time)
    requires Sound(env, s) && InQueue(s, p) && DropOrder(env, s, p, working, done, now)
    ensures var (s', r) := DropParticipant(env, s, p, working, done, now);
      && r == Ok(DropQueue) && p !in s'.queue && p !in s'.next
      && s' == s.(queue := s'.queue, next := s'.next, status := s'.status)
      && (p !in s.next ==> s'.next == s.next && s'.status == s.status && s'.queue == s.queue - {p})
      && (p in s.next ==>
            && s'.next == map[] && s'.status == Rollback
            && s'.queue.Keys == (s.queue.Keys + s.next.Keys) - {p}
            && (forall q :: q in s.queue && q != p ==> s'.queue[q] == s.queue[q])
            && forall q :: q in s.next && q != p ==>
                 s'.queue[q] == QueueEntry(s.next[q].reliability, Some(s.next[q].roundHeight), now, now))
  {
    hide Staged, Listed, BucketsKnown;
  }

  // ----- when a round is precommitted

  lemma {:induction false} StageIff(env: Environment, s: State, order: seq<Participant>, height: nat, now: Time, k: nat)
    requires k <= |order| && (forall p :: p in order ==> p in s.queue) && 0 < height
    ensures Stage(env, s, order, height, now, k).Ok? <==> k == 0 || |order| <= env.chunks
  {
    if 0 < k {
      StageIff(env, s, order, height, now, k - 1);
      OneIff(env, order[k - 1], s.queue[order[k - 1]].reliability, height, k - 1, |order|, now);
      hide StageOne;
    }
  }

  lemma OneIff(env: Environment, p: Participant, reliability: nat, height: nat, bucket: nat, n: nat, now: Time)
    requires bucket < n && 0 < height
    ensures StageOne(env, p, reliability, height, bucket, n, now).Ok? <==> n <= env.chunks
  {
    if n <= env.chunks {
      TasksCount(bucket, env.chunks, n);
    }
    hide BucketTasks;
  }

  /** The current round is over, and the time to wait after it, too. */
  ghost predicate Over(s: State, now: Time) {
    && s.height.Some? && s.IsRoundFinished() && (0 < s.height.value ==> s.IsRoundAggregated())
    && (s.metrics.Some? && s.metrics.value.nextRoundAfter.Some? ==> s.metrics.value.nextRoundAfter.value <= now)
  }

  /**
    A precommit succeeds exactly when no other is open, the round asked for is the next one, the
    current one is over, somebody waits, and those assigned to the next round are not banned, are as
    many as a round may have, and no more than there are chunks. Otherwise nothing changes.
   */
  lemma PrecommitIff(env: Environment, s: State, height: nat, order: seq<Participant>, now: Time)
    requires Sound(env, s) && ReliabilityOrder(s.queue, height, order)
    ensures var (s', r) := PrecommitNextRound(env, s, height, order, now);
      && (r.Ok? <==>
            && s.status != Precommit && height == s.height.value + 1 && Over(s, now) && s.queue != map[]
            && (forall p :: p in order ==> p !in s.banned)
            && env.minimumContributors <= |order| <= env.maximumContributors
            && (order == [] || |order| <= env.chunks))
      && (r.Err? ==> s' == s)
      && (r.Ok? ==> r.value == order && s'.next.Keys == (set p | p in order) && |s'.next| == |order| && s'.status == Precommit
                    && s'.banned == s.banned)
  {
    assert s.height.Some? && s.metrics.Some? && s.status != Initializing;
    assert s.status != Precommit ==> s.next == map[];
    hide Sound, Stage;
    GuardIff(env, s, height, order, now);
    if PrecommitGuard(env, s, height, now).Ok? {
      StageIff(env, s, order, height, now, |order|);
      if Stage(env, s, order, height, now, |order|).Ok? {
        PrecommitStages(env, s, height, order, now);
        assert AssignedTo(s.queue, height) == (set p | p in order);
      }
    }
    hide PrecommitGuard, AssignedTo, Staged;
  }

  lemma GuardIff(env: Environment, s: State, height: nat, order: seq<Participant>, now: Time)
    requires ReliabilityOrder(s.queue, height, order) && s.height.Some? && s.metrics.Some? && s.status != Initializing
    requires s.status != Precommit ==> s.next == map[]
    ensures PrecommitGuard(env, s, height, now).Ok? <==>
      && s.status != Precommit && height == s.height.value + 1 && Over(s, now) && s.queue != map[]
      && (forall p :: p in order ==> p !in s.banned)
      && env.minimumContributors <= |order| <= env.maximumContributors
  {
    var members := AssignedTo(s.queue, height);
    EnumerationSize(order, members);
    assert members * s.banned == {} <==> forall p :: p in order ==> p !in s.banned by {
      if p :| p in order && p in s.banned {
        assert p in members * s.banned;
      }
    }
    hide AssignedTo, Distinct;
  }

  // ----- bans

  /**
    A ban succeeds exactly for a participant that is not banned and can be dropped from the round; then
    it is a drop, after which just this participant more is banned. Someone who only waits is dropped
    from the queue, but not banned.
   */
  lemma BanIff(env: Environment, s: State, p: Participant, working: seq<Participant>, done: seq<Participant>, now: Time)
    requires DropOrder(env, s, p, working, done, now)
    ensures var (s', r), (s1, r1) := BanParticipant(env, s, p, working, done, now), DropParticipant(env, s, p, working, done, now);
      && (r.Ok? <==> p !in s.banned && r1.Ok? && !r1.value.DropQueue?)
      && (p in s.banned ==> s' == s)
      && (p !in s.banned ==> s' == s1.(banned := if r.Ok? then s.banned + {p} else s.banned))
      && (r.Ok? ==> r.value == r1.value)
  {
    DropKeepsBanned(env, s, p, working, done, now);
    hide DropParticipant, DropOrder;
  }

  // ----- every committed round

  /** What is staged is as many as a round may have, and none of them banned. */
  ghost predicate StagingFits(env: Environment, s: State) {
    s.status == Precommit ==>
      && env.minimumContributors <= |s.next| <= env.maximumContributors
      && s.next.Keys !! s.banned
  }

  /** Only a precommit stages, and nobody staged gets banned. */
  lemma StagingKept(env: Environment, s: State, op: Op)
    requires Sound(env, s) && Possible(env, s, op) && !op.PrecommitRound?
    ensures var s' := Apply(env, s, op);
      s'.status == Precommit ==> s.status == Precommit && s'.next == s.next && s'.banned <= s.banned
  {
    if op.Ban? {
      BanStaging(env, s, op.p, op.working, op.done, op.now);
    } else {
      BannedKept(env, s, op);
      if op.Drop? {
        DropStaging(env, s, op.p, op.working, op.done, op.now);
      } else {
        OtherStaging(env, s, op);
      }
    }
    hide Sound, DropParticipant, BanParticipant, DropOrder;
  }

  lemma DropStaging(env: Environment, s: State, p: Participant, working: seq<Participant>, done: seq<Participant>, now: Time)
    requires Sound(env, s) && DropOrder(env, s, p, working, done, now)
    ensures var s' := DropParticipant(env, s, p, working, done, now).0;
      s'.status == Precommit ==> s.status == Precommit && s'.next == s.next
    ensures s.status == Precommit ==> var r := DropParticipant(env, s, p, working, done, now).1; r.Err? || r.value == DropQueue
  {
    assert s.status == Precommit ==> s.current == map[];
    assert s.status != Initializing;
    hide Sound;
    if !InQueue(s, p) && DropGuard(s, p).Ok? {
      assert s.status != Precommit;
      AfterDropStatus(env, s, p, now);
      hide AfterDrop, ResetCurrentRound, AddReplacement;
      ResetStatus(env, AfterDrop(env, s, p, now), working, done, now);
      ReplacementStatus(env, AfterDrop(env, s, p, now), s.current[p].bucket, now);
    }
    hide DropGuard, Requeued;
  }

  lemma AfterDropStatus(env: Environment, s: State, p: Participant, now: Time)
    requires DropGuard(s, p).Ok? && BucketsKnown(env, s.current, s.metrics.value.contributors)
    ensures AfterDrop(env, s, p, now).status == s.status
  {
    hide DropGuard, BucketsKnown, Affected;
  }

  lemma ReplacementStatus(env: Environment, s: State, bucket: nat, now: Time)
    ensures AddReplacement(env, s, bucket, now).0.status == s.status
  {
    hide TaskList;
  }

  lemma ResetStatus(env: Environment, s: State, working: seq<Participant>, done: seq<Participant>, now: Time)
    ensures ResetOrder(s, working, done) ==>
      var s' := ResetCurrentRound(env, s, false, working, done, now).0; s'.status == s.status || s'.status == Initialized
  {
    hide Restart, Members, ResetOrder, Requeued;
  }

  lemma BanStaging(env: Environment, s: State, p: Participant, working: seq<Participant>, done: seq<Participant>, now: Time)
    requires Sound(env, s) && DropOrder(env, s, p, working, done, now)
    ensures var s' := BanParticipant(env, s, p, working, done, now).0;
      s'.status == Precommit ==> s.status == Precommit && s'.next == s.next && s'.banned <= s.banned
  {
    BanIff(env, s, p, working, done, now);
    DropStaging(env, s, p, working, done, now);
    hide Sound, DropParticipant, BanParticipant, DropOrder;
  }

  lemma OtherStaging(env: Environment, s: State, op: Op)
    requires Possible(env, s, op) && !op.PrecommitRound? && !op.Drop? && !op.Ban?
    ensures var s' := Apply(env, s, op); s'.status == Precommit ==> s.status == Precommit && s'.next == s.next
  {
    hide Apply, Possible;
    if op.Fetch? || op.Lock? || op.Unfetch? || op.Unlock? || op.Dispose? || op.Complete? || op.MarkFinished? {
      WorkIsWork(env, s, op);
    } else {
      RoundStaging(env, s, op);
    }
  }

  lemma RoundStaging(env: Environment, s: State, op: Op)
    requires Possible(env, s, op) && !op.PrecommitRound? && !op.Drop? && !op.Ban?
    requires !op.Fetch? && !op.Lock? && !op.Unfetch? && !op.Unlock? && !op.Dispose? && !op.Complete? && !op.MarkFinished?
    ensures var s' := Apply(env, s, op); s'.status == Precommit ==> s.status == Precommit && s'.next == s.next
  {
    hide UpdatedQueue, Eligible, Requeued, Contributors, Restart, Members, ResetOrder, QueueOrder, Aggregated;
  }

  lemma StepFits(env: Environment, s: State, op: Op)
    requires Sound(env, s) && StagingFits(env, s) && Possible(env, s, op)
    ensures StagingFits(env, Apply(env, s, op))
  {
    if op.PrecommitRound? {
      PrecommitIff(env, s, op.height, op.order, op.now);
      hide Sound, PrecommitNextRound, Over;
    } else {
      StagingKept(env, s, op);
      hide Sound, Apply, Possible;
    }
  }

  lemma {:induction false} RunFits(env: Environment, states: seq<State>, ops: seq<Op>, i: nat)
    requires Run(env, states, ops) && i < |states|
    ensures StagingFits(env, states[i])
  {
    hide Apply, Possible, StagingFits;
    if i > 0 {
      RunFits(env, states, ops, i - 1);
      RunSound(env, states, ops, i - 1);
      hide Sound;
      StepFits(env, states[i - 1], ops[i - 1]);
    } else {
      FreshFits(env, states, ops);
    }
  }

  lemma FreshFits(env: Environment, states: seq<State>, ops: seq<Op>)
    requires Run(env, states, ops)
    ensures StagingFits(env, states[0])
  {
    hide Apply, Possible;
  }

  /**
    In every run, bans included, a commit that begins a round begins it for at least the minimum and
    at most the maximum of contributors, and none of them is banned.
   */
  lemma CommittedRoundFits(env: Environment, states: seq<State>, ops: seq<Op>, i: nat)
    requires Run(env, states, ops) && i < |ops| && ops[i].CommitRound? && states[i + 1].height != states[i].height
    ensures env.minimumContributors <= |states[i + 1].current| <= env.maximumContributors
    ensures states[i + 1].current.Keys !! states[i + 1].banned
    ensures states[i].status == Precommit && states[i + 1].current == states[i].next && states[i + 1].banned == states[i].banned
  {
    RunFits(env, states, ops, i);
    RunSound(env, states, ops, i);
    var s := states[i];
    assert states[i + 1] == CommitNextRound(s);
    CommitSound(env, s);
    CommitKeepsBanned(env, s);
    hide Run, Sound, Contributors;
  }
}
