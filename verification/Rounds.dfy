/**
  Runs of the ceremony: any sequence of operations, in any order, with any outcomes. The module
  proves what every run keeps.
 */
module Rounds {
  import opened Wrappers
  import opened Tasks
  import opened Lists
  import opened Participants
  import opened Ceremony

  datatype Op =
    | Enqueue(p: Participant, reliability: nat, now: Time)
    | Dequeue(p: Participant)
    | Requeue(order: seq<Participant>)
    | PrecommitRound(height: nat, order: seq<Participant>, now: Time)
    | CommitRound
    | RollbackRound(now: Time)
    | Fetch(p: Participant)
    | Lock(p: Participant, chunk: nat)
    | Unfetch(p: Participant, task: Task)
    | Unlock(p: Participant, task: Task)
    | Dispose(p: Participant, task: Task)
    | Complete(p: Participant, task: Task)
    | MarkFinished(now: Time)
    | StartAggregation(now: Time)
    | EndAggregation(now: Time)
    | CancelAggregation
    | Drop(p: Participant, working: seq<Participant>, done: seq<Participant>, now: Time)
    | ForceReset(working: seq<Participant>, done: seq<Participant>, now: Time)
    | Ban(p: Participant, working: seq<Participant>, done: seq<Participant>, now: Time)
    | Unban(p: Participant)

  /** The orders an operation carries are ones the program's maps and sorts can produce. */
  ghost predicate Possible(env: Environment, s: State, op: Op) {
    match op
    case Requeue(order) => 0 < env.maximumContributors && QueueOrder(s, order)
    case PrecommitRound(height, order, _) => ReliabilityOrder(s.queue, height, order)
    case Drop(p, working, done, now) => DropOrder(env, s, p, working, done, now)
    case Ban(p, working, done, now) => DropOrder(env, s, p, working, done, now)
    case ForceReset(working, done, _) => ResetOrder(s, working, done)
    case _ => true
  }

  ghost function UpdateQueue(env: Environment, s: State, order: seq<Participant>): State
    requires 0 < env.maximumContributors && QueueOrder(s, order)
  {
    if s.height.None? then s
    else
      EligibleInQueue(s, order);
      s.(queue := UpdatedQueue(env, s, Eligible(s, order)))
  }

  lemma EligibleInQueue(s: State, order: seq<Participant>)
    requires QueueOrder(s, order)
    ensures forall p :: p in Eligible(s, order) <==> p in s.queue && p.Contributor? && p !in s.banned
  {
    forall p ensures p in Eligible(s, order) <==> p in s.queue && p.Contributor? && p !in s.banned {
      FilterMember(order, (q: Participant) => q.Contributor? && q !in s.banned, p);
    }
  }

  ghost function Apply(env: Environment, s: State, op: Op): State
    requires Possible(env, s, op)
  {
    match op
    case Enqueue(p, reliability, now) => AddToQueue(env, s, p, reliability, now).0
    case Dequeue(p) => RemoveFromQueue(s, p).0
    case Requeue(order) => UpdateQueue(env, s, order)
    case PrecommitRound(height, order, now) => PrecommitNextRound(env, s, height, order, now).0
    case CommitRound => CommitNextRound(s)
    case RollbackRound(now) => RollbackNextRound(s, now)
    case Fetch(p) => FetchTask(env, s, p).0
    case Lock(p, chunk) => AcquiredLock(env, s, p, chunk).0
    case Unfetch(p, task) => RollbackPendingTask(env, s, p, task).0
    case Unlock(p, task) => RollbackLockedTask(env, s, p, task).0
    case Dispose(p, task) => DisposedTask(env, s, p, task).0
    case Complete(p, task) => CompletedTask(env, s, p, task).0
    case MarkFinished(now) => UpdateCurrentContributors(s, now).0
    case StartAggregation(now) => AggregatingCurrentRound(s, now).0
    case EndAggregation(now) => AggregatedCurrentRound(env, s, now).0
    case CancelAggregation => RollbackAggregatingCurrentRound(s).0
    case Drop(p, working, done, now) => DropParticipant(env, s, p, working, done, now).0
    case ForceReset(working, done, now) => ResetCurrentRound(env, s, true, working, done, now).0
    case Ban(p, working, done, now) => BanParticipant(env, s, p, working, done, now).0
    case Unban(p) => UnbanParticipant(s, p)
  }

  // ----- round transitions

  ghost predicate Taken(bucket: map<Participant, nat>, b: nat) {
    exists p :: p in bucket && bucket[p] == b
  }

  ghost predicate Bijection(bucket: map<Participant, nat>, n: nat) {
    && (forall p :: p in bucket ==> bucket[p] < n)
    && (forall p, q :: p in bucket && q in bucket && p != q ==> bucket[p] != bucket[q])
    && (forall b: nat :: b < n ==> Taken(bucket, b))
  }

  function Buckets(roster: Roster): map<Participant, nat> {
    map p | p in roster :: roster[p].bucket
  }

  /** A record with its whole task list still to do. */
  ghost predicate Fresh(env: Environment, p: Participant, info: ParticipantInfo, b: nat, n: nat, height: nat) {
    && p.Contributor?
    && ValidBucket(b, env.chunks, n)
    && 0 < height
    && info.startedAt.Some?
    && info == NewInfo(p, height, info.reliability, info.bucket).(
                 startedAt := info.startedAt, assignedTasks := BucketTasks(b, env.chunks, n))
  }

  /** A complete staging: one fresh contributor per bucket. */
  ghost predicate Staged(env: Environment, next: Roster, height: nat) {
    && Bijection(Buckets(next), |next|)
    && forall p :: p in next ==> Fresh(env, p, next[p], next[p].bucket, |next|, height)
  }

  /** Every entry is a contributor's own record, in a round after the initial one. */
  ghost predicate Listed(roster: Roster) {
    forall p :: p in roster ==> p.Contributor? && roster[p].id == p && 0 < roster[p].roundHeight
  }

  /** The staging area is used in the precommit only, and a precommit follows a complete round. */
  ghost predicate Transition(env: Environment, s: State)
    requires s.height.Some?
  {
    && s.queue.Keys !! s.next.Keys
    && (s.next != map[] ==> s.status == Precommit)
    && (s.status == Precommit ==>
          && s.IsRoundFinished()
          && (s.height.value > 0 ==> s.IsRoundAggregated())
          && Staged(env, s.next, s.height.value + 1))
  }

  /** What holds between operations, whatever happened before. */
  ghost predicate Sound(env: Environment, s: State) {
    && env.Valid()
    && s.status != Initializing
    && s.height.Some?
    && s.height.value in s.finished
    && s.metrics.Some?
    && Transition(env, s)
    && BucketsKnown(env, s.current, s.metrics.value.contributors)
    && Listed(s.current)
    && Listed(s.finished[s.height.value])
  }

  lemma InitialSound(env: Environment, height: nat)
    requires env.Valid()
    ensures Sound(env, Initialize(NEW_STATE, height))
  {
  }

  /** One staged member: bucket `i`, all its tasks to do, reliability from the queue. */
  ghost predicate StagedAt(env: Environment, s: State, order: seq<Participant>, staged: Roster, height: nat, i: nat)
    requires i < |order| && order[i] in s.queue
  {
    && order[i] in staged
    && staged[order[i]].bucket == i
    && staged[order[i]].reliability == s.queue[order[i]].reliability
    && Fresh(env, order[i], staged[order[i]], i, |order|, height)
  }

  /** Staging hands out the buckets 0, 1, ... in the order of the list. */
  lemma {:induction false} StageAll(env: Environment, s: State, order: seq<Participant>, height: nat, now: Time, k: nat)
    requires k <= |order| && ReliabilityOrder(s.queue, height, order) && 0 < height
    requires Stage(env, s, order, height, now, k).Ok?
    ensures var staged := Stage(env, s, order, height, now, k).value;
      && (forall p :: p in staged <==> p in order[..k])
      && (forall i: nat :: i < k ==> StagedAt(env, s, order, staged, height, i))
  {
    if k > 0 {
      StageAll(env, s, order, height, now, k - 1);
      var p := order[k - 1];
      StageStep(env, s, order, height, now, k);
      var before, staged := Stage(env, s, order, height, now, k - 1).value, Stage(env, s, order, height, now, k).value;
      hide Stage, Fresh;
      assert order[..k] == order[..k - 1] + [p];
      assert p !in order[..k - 1];
      forall i: nat | i < k ensures StagedAt(env, s, order, staged, height, i) {
        if i < k - 1 {
          assert StagedAt(env, s, order, before, height, i);
        }
      }
    }
  }

  lemma StageStep(env: Environment, s: State, order: seq<Participant>, height: nat, now: Time, k: nat)
    requires 0 < k <= |order| && ReliabilityOrder(s.queue, height, order) && 0 < height
    requires Stage(env, s, order, height, now, k).Ok?
    ensures Stage(env, s, order, height, now, k - 1).Ok?
    ensures var before, staged := Stage(env, s, order, height, now, k - 1).value, Stage(env, s, order, height, now, k).value;
      && order[k - 1] in staged
      && staged == before[order[k - 1] := staged[order[k - 1]]]
      && StagedAt(env, s, order, staged, height, k - 1)
  {
    var p := order[k - 1];
    assert p in order;
    assert p in AssignedTo(s.queue, height);
    hide StageOne, Fresh, ReliabilityOrder;
  }

  lemma PrecommitStages(env: Environment, s: State, height: nat, order: seq<Participant>, now: Time)
    requires ReliabilityOrder(s.queue, height, order) && 0 < height
    requires Stage(env, s, order, height, now, |order|).Ok?
    ensures var staged := Stage(env, s, order, height, now, |order|).value;
      staged.Keys == AssignedTo(s.queue, height) && |staged| == |order| && Staged(env, staged, height)
  {
    StageAll(env, s, order, height, now, |order|);
    var staged := Stage(env, s, order, height, now, |order|).value;
    assert order[..|order|] == order;
    assert staged.Keys == AssignedTo(s.queue, height);
    EnumerationSize(order, staged.Keys);
    forall p | p in staged
      ensures exists i: nat :: i < |order| && order[i] == p && StagedAt(env, s, order, staged, height, i)
    {
      var i: nat :| i < |order| && order[i] == p;
      assert StagedAt(env, s, order, staged, height, i);
    }
    forall b: nat | b < |order| ensures Taken(Buckets(staged), b) {
      assert StagedAt(env, s, order, staged, height, b);
      assert order[b] in Buckets(staged);
    }
  }

  lemma QueueSound(env: Environment, s: State, op: Op)
    requires Sound(env, s) && Possible(env, s, op)
    requires op.Enqueue? || op.Dequeue? || op.Requeue? || op.RollbackRound?
    ensures Sound(env, Apply(env, s, op))
  {
    hide Staged, Listed, BucketsKnown;
    if op.Requeue? {
      EligibleInQueue(s, op.order);
    }
  }

  lemma PrecommitSound(env: Environment, s: State, op: Op)
    requires Sound(env, s) && Possible(env, s, op) && op.PrecommitRound?
    ensures Sound(env, Apply(env, s, op))
  {
    if PrecommitGuard(env, s, op.height, op.now).Ok? && Stage(env, s, op.order, op.height, op.now, |op.order|).Ok? {
      PrecommitStages(env, s, op.height, op.order, op.now);
      var staged := Stage(env, s, op.order, op.height, op.now, |op.order|).value;
      PrecommittedSound(env, s, op.height, op.now, staged);
      hide *;
    }
  }

  lemma PrecommittedSound(env: Environment, s: State, height: nat, now: Time, staged: Roster)
    requires Sound(env, s) && PrecommitGuard(env, s, height, now).Ok? && Staged(env, staged, height)
    ensures Sound(env, s.(queue := s.queue - staged.Keys, next := staged, status := Precommit))
  {
    hide Staged, Listed, BucketsKnown, AssignedTo;
  }

  lemma CommitSound(env: Environment, s: State)
    requires Sound(env, s)
    ensures Sound(env, CommitNextRound(s))
    ensures s.status == Precommit ==> CommitNextRound(s).current == s.next
  {
    if s.status == Precommit {
      StagedListed(env, s.next, s.height.value + 1);
      assert env.Valid() && s.IsRoundFinished();
      hide Sound;
      CommitMoves(s);
      NewRoundSound(env, CommitNextRound(s), s.next, s.height.value + 1);
    }
  }

  lemma CommitMoves(s: State)
    requires s.status == Precommit && s.height.Some? && s.current == map[] && Listed(s.next)
    ensures CommitNextRound(s) == s.(height := Some(s.height.value + 1), status := Commit, current := s.next, next := map[],
        metrics := Some(NEW_METRICS.(contributors := |s.next|)), finished := s.finished[s.height.value + 1 := map[]])
  {
    var joining := Contributors(s.next);
    assert joining == s.next;
    hide Listed;
    assert s.current + joining == s.next;
  }

  lemma NewRoundSound(env: Environment, s: State, members: Roster, height: nat)
    requires env.Valid() && s.status == Commit && s.height == Some(height) && s.next == map[] && s.current == members
    requires s.metrics == Some(NEW_METRICS.(contributors := |members|))
    requires height in s.finished && s.finished[height] == map[]
    requires Listed(members) && BucketsKnown(env, members, |members|)
    ensures Sound(env, s)
  {
    assert Listed(map[]);
    hide Listed, BucketsKnown, Staged;
  }

  lemma StagedListed(env: Environment, next: Roster, height: nat)
    requires Staged(env, next, height)
    ensures Listed(next) && BucketsKnown(env, next, |next|)
  {
  }

  /** The part of a record that no task operation changes. */
  ghost predicate SameOwner(info: ParticipantInfo, info': ParticipantInfo) {
    info'.id == info.id && info'.bucket == info.bucket && info'.roundHeight == info.roundHeight
  }

  lemma RecordSound(env: Environment, s: State, p: Participant, info: ParticipantInfo)
    requires Sound(env, s) && p in s.current && SameOwner(s.current[p], info)
    ensures Sound(env, WithInfo(s, p, info))
  {
  }

  lemma TaskSound(env: Environment, s: State, op: Op)
    requires Sound(env, s)
    requires op.Fetch? || op.Lock? || op.Unfetch? || op.Unlock? || op.Dispose?
    ensures Sound(env, Apply(env, s, op))
  {
    hide Sound;
    var s' := Apply(env, s, op);
    if op.p in s.current && s' != s {
      var info := s'.current[op.p];
      assert SameOwner(s.current[op.p], info);
      assert s' == WithInfo(s, op.p, info);
      RecordSound(env, s, op.p, info);
    }
  }

  lemma CompleteSound(env: Environment, s: State, p: Participant, task: Task)
    requires Sound(env, s)
    ensures Sound(env, CompletedTask(env, s, p, task).0)
  {
    if p in s.current && s.current[p].CompletedTask(task).Ok? {
      RecordSound(env, s, p, s.current[p].CompletedTask(task).value);
    }
  }

  lemma MarkRosters(env: Environment, s: State, now: Time, n: nat)
    requires Listed(s.current) && BucketsKnown(env, s.current, n)
    ensures Listed(StillWorking(s, now)) && Listed(NewlyFinished(s, now))
    ensures BucketsKnown(env, StillWorking(s, now), n)
  {
    assert forall p :: p in StillWorking(s, now) ==> p in s.current && StillWorking(s, now)[p] == s.current[p];
    assert forall p :: p in NewlyFinished(s, now) ==> p in s.current && SameOwner(s.current[p], NewlyFinished(s, now)[p]);
  }

  lemma MarkSound(env: Environment, s: State, now: Time)
    requires Sound(env, s)
    ensures Sound(env, UpdateCurrentContributors(s, now).0)
  {
    MarkRosters(env, s, now, s.metrics.value.contributors);
    var working, done := StillWorking(s, now), NewlyFinished(s, now);
    assert s.current == map[] ==> working == map[];
    MarkedSound(env, s, working, done);
    hide StillWorking, NewlyFinished, Sound;
  }

  lemma MarkedSound(env: Environment, s: State, working: Roster, done: Roster)
    requires Sound(env, s) && Listed(working) && Listed(done) && BucketsKnown(env, working, s.metrics.value.contributors)
    requires s.current == map[] ==> working == map[]
    ensures Sound(env, s.(current := working))
    ensures Sound(env, s.(current := working,
                          finished := s.finished[s.height.value := s.finished[s.height.value] + done]))
  {
    JoinListed(s.finished[s.height.value], done);
    hide Listed, BucketsKnown, Staged;
  }

  lemma JoinListed(a: Roster, b: Roster)
    requires Listed(a) && Listed(b)
    ensures Listed(a + b)
  {
  }

  /** A change of the metrics that keeps their count and undoes no aggregation. */
  lemma MetricsSound(env: Environment, s: State, m: Metrics)
    requires Sound(env, s) && m.contributors == s.metrics.value.contributors
    requires s.IsRoundAggregated() ==> s.(metrics := Some(m)).IsRoundAggregated()
    ensures Sound(env, s.(metrics := Some(m)))
  {
    hide Staged, Listed, BucketsKnown;
  }

  lemma AggregationSound(env: Environment, s: State, now: Time)
    requires Sound(env, s)
    ensures Sound(env, AggregatingCurrentRound(s, now).0)
    ensures Sound(env, AggregatedCurrentRound(env, s, now).0)
    ensures Sound(env, RollbackAggregatingCurrentRound(s).0)
  {
    assert s.metrics.Some?;
    hide Sound;
    var m := s.metrics.value;
    if !m.aggregated && m.finishedAggregation.None? {
      MetricsSound(env, s, m.(startedAggregation := Some(now)));
      MetricsSound(env, s, m.(startedAggregation := None));
      MetricsSound(env, s, Aggregated(env, m, now));
    }
  }

  // ----- resets and drops keep soundness

  /** The keys and records that a reset goes through belong together. */
  ghost predicate Paired(keys: seq<Participant>, members: seq<ParticipantInfo>) {
    && |keys| == |members|
    && forall i :: 0 <= i < |keys| ==> keys[i].Contributor? && members[i].id == keys[i] && 0 < members[i].roundHeight
  }

  lemma {:induction false} RestartListed(env: Environment, keys: seq<Participant>, members: seq<ParticipantInfo>,
                                         now: Time, k: nat)
    requires Paired(keys, members) && k <= |keys|
    requires Restart(env, keys, members, now, k).Ok?
    ensures Listed(Restart(env, keys, members, now, k).value)
  {
    if k > 0 {
      RestartListed(env, keys, members, now, k - 1);
    }
  }

  lemma MembersPaired(s: State, working: seq<Participant>, done: seq<Participant>)
    requires ResetOrder(s, working, done) && Listed(s.current) && Listed(s.Finished())
    ensures Paired(working + done, Members(s, working, done))
  {
  }

  lemma ResetSound(env: Environment, s: State, force: bool, working: seq<Participant>, done: seq<Participant>, now: Time)
    requires ResetOrder(s, working, done)
    requires Sound(env, s)
    ensures Sound(env, ResetCurrentRound(env, s, force, working, done, now).0)
  {
    MembersPaired(s, working, done);
    var keys, members := working + done, Members(s, working, done);
    if Restart(env, keys, members, now, |members|).Ok? {
      RestartListed(env, keys, members, now, |members|);
    }
  }

  lemma AfterDropSound(env: Environment, s: State, p: Participant, now: Time)
    requires Sound(env, s) && DropGuard(s, p).Ok?
    ensures Sound(env, AfterDrop(env, s, p, now))
    ensures forall q :: q in AfterDrop(env, s, p, now).current <==> q in s.current && q != p
  {
    var s' := AfterDrop(env, s, p, now);
    assert forall q :: q in s'.current ==> q in s.current && SameOwner(s.current[q], s'.current[q]);
  }

  lemma DropSound(env: Environment, s: State, p: Participant, working: seq<Participant>, done: seq<Participant>, now: Time)
    requires Sound(env, s) && DropOrder(env, s, p, working, done, now)
    ensures Sound(env, DropParticipant(env, s, p, working, done, now).0)
  {
    assert s.status != Initializing;
    if InQueue(s, p) {
      DropQueuedSound(env, s, p, now);
    } else if DropGuard(s, p).Ok? {
      DropMemberSound(env, s, p, working, done, now);
    }
    hide Sound;
  }

  lemma DropQueuedSound(env: Environment, s: State, p: Participant, now: Time)
    requires Sound(env, s)
    ensures Sound(env, DropFromQueue(s, p, now))
  {
    hide Staged, Listed, BucketsKnown;
  }

  lemma DropMemberSound(env: Environment, s: State, p: Participant, working: seq<Participant>, done: seq<Participant>, now: Time)
    requires Sound(env, s) && DropOrder(env, s, p, working, done, now)
    requires !InQueue(s, p) && DropGuard(s, p).Ok?
    ensures Sound(env, DropParticipant(env, s, p, working, done, now).0)
  {
    AfterDropSound(env, s, p, now);
    assert s.status != Initializing && s.status != Precommit;
    assert TaskList(s.current[p].bucket, env.chunks, s.metrics.value.contributors).TaskOk?;
    var s1 := AfterDrop(env, s, p, now);
    assert s1.status == s.status && s1.metrics == s.metrics;
    hide Sound, AfterDrop, DropGuard, BucketsKnown;
    if env.coordinatorContributors == [] {
      ResetSound(env, s1, false, working, done, now);
    } else {
      ReplacementSound(env, s1, s.current[p].bucket, now);
    }
    hide ResetCurrentRound, AddReplacement;
  }

  /** Who is banned matters to no part of the invariant. */
  lemma BannedSound(env: Environment, s: State, banned: set<Participant>)
    requires Sound(env, s)
    ensures Sound(env, s.(banned := banned))
  {
    hide Staged, Listed, BucketsKnown;
  }

  lemma BanSound(env: Environment, s: State, p: Participant, working: seq<Participant>, done: seq<Participant>, now: Time)
    requires Sound(env, s) && DropOrder(env, s, p, working, done, now)
    ensures Sound(env, BanParticipant(env, s, p, working, done, now).0)
  {
    hide Sound, DropParticipant, DropOrder;
    DropSound(env, s, p, working, done, now);
    var s1 := DropParticipant(env, s, p, working, done, now).0;
    BannedSound(env, s1, s1.banned + {p});
  }

  lemma ReplacementSound(env: Environment, s: State, bucket: nat, now: Time)
    requires Sound(env, s) && s.status != Precommit
    requires TaskList(bucket, env.chunks, s.metrics.value.contributors).TaskOk?
    ensures Sound(env, AddReplacement(env, s, bucket, now).0)
  {
    var (s', r) := AddReplacement(env, s, bucket, now);
    if r.Ok? {
      hide AddReplacement;
    }
  }

  // ----- every run

  lemma StepSound(env: Environment, s: State, op: Op)
    requires Sound(env, s) && Possible(env, s, op)
    ensures Sound(env, Apply(env, s, op))
  {
    match op
    case PrecommitRound(_, _, _) => PrecommitSound(env, s, op);
    case CommitRound => CommitSound(env, s);
    case Complete(p, task) => CompleteSound(env, s, p, task);
    case MarkFinished(now) => MarkSound(env, s, now);
    case StartAggregation(now) => AggregationSound(env, s, now);
    case EndAggregation(now) => AggregationSound(env, s, now);
    case CancelAggregation => AggregationSound(env, s, 0);
    case Drop(p, working, done, now) => DropSound(env, s, p, working, done, now);
    case ForceReset(working, done, now) => ResetSound(env, s, true, working, done, now);
    case Ban(p, working, done, now) => BanSound(env, s, p, working, done, now);
    case Unban(p) => BannedSound(env, s, s.banned - {p});
    case Enqueue(_, _, _) => QueueSound(env, s, op);
    case Dequeue(_) => QueueSound(env, s, op);
    case Requeue(_) => QueueSound(env, s, op);
    case RollbackRound(_) => QueueSound(env, s, op);
    case _ => TaskSound(env, s, op);
  }

  /** A run from a freshly initialized coordinator: one operation between consecutive states. */
  ghost predicate Run(env: Environment, states: seq<State>, ops: seq<Op>) {
    && env.Valid()
    && |states| == |ops| + 1
    && (exists height: nat :: states[0] == Initialize(NEW_STATE, height))
    && forall i :: 0 <= i < |ops| ==> Possible(env, states[i], ops[i]) && states[i + 1] == Apply(env, states[i], ops[i])
  }

  lemma {:induction false} RunSound(env: Environment, states: seq<State>, ops: seq<Op>, i: nat)
    requires Run(env, states, ops) && i < |states|
    ensures Sound(env, states[i])
  {
    if i > 0 {
      RunSound(env, states, ops, i - 1);
      StepSound(env, states[i - 1], ops[i - 1]);
    } else {
      var height: nat :| states[0] == Initialize(NEW_STATE, height);
      InitialSound(env, height);
    }
  }

  /** The round height moves by one, up in a commit after a complete round, down in a reset. */
  ghost predicate HeightStep(s: State, op: Op, s': State)
    requires s.height.Some? && s'.height.Some?
  {
    || s'.height == s.height
    || (&& op.CommitRound?
        && s'.height.value == s.height.value + 1
        && s.IsRoundFinished()
        && (s.height.value > 0 ==> s.IsRoundAggregated()))
    || (&& (op.ForceReset? || op.Drop? || op.Ban?)
        && s'.height.value == s.height.value - 1
        && s'.IsRoundFinished() && s'.IsRoundAggregated())
  }

  lemma ResetHeight(env: Environment, s: State, force: bool, working: seq<Participant>, done: seq<Participant>, now: Time)
    requires ResetOrder(s, working, done) && s.height.Some?
    ensures var s' := ResetCurrentRound(env, s, force, working, done, now).0;
      || s'.height == s.height
      || (s'.height == Some(s.height.value - 1) && s'.IsRoundFinished() && s'.IsRoundAggregated())
  {
  }

  lemma DropHeight(env: Environment, s: State, p: Participant, working: seq<Participant>, done: seq<Participant>, now: Time)
    requires DropOrder(env, s, p, working, done, now) && s.height.Some?
    ensures var s' := DropParticipant(env, s, p, working, done, now).0;
      || s'.height == s.height
      || (s'.height == Some(s.height.value - 1) && s'.IsRoundFinished() && s'.IsRoundAggregated())
  {
    if s.status != Initializing && !InQueue(s, p) && DropGuard(s, p).Ok? && env.coordinatorContributors == [] {
      ResetHeight(env, AfterDrop(env, s, p, now), false, working, done, now);
    }
  }

  lemma HeightMoves(env: Environment, s: State, op: Op)
    requires Sound(env, s) && Possible(env, s, op)
    ensures Apply(env, s, op).height.Some? && HeightStep(s, op, Apply(env, s, op))
  {
    assert s.height.Some?;
    hide Sound, Apply, Possible;
    if op.CommitRound? {
      CommitHeight(env, s);
    } else if op.Drop? || op.Ban? || op.ForceReset? {
      BackHeight(env, s, op);
    } else {
      HeightKept(env, s, op);
    }
  }

  lemma CommitHeight(env: Environment, s: State)
    requires Sound(env, s)
    ensures var s' := Apply(env, s, CommitRound); s'.height.Some? && HeightStep(s, CommitRound, s')
  {
    hide Staged, Listed, BucketsKnown, Contributors;
  }

  lemma BackHeight(env: Environment, s: State, op: Op)
    requires s.height.Some? && Possible(env, s, op) && (op.Drop? || op.Ban? || op.ForceReset?)
    ensures var s' := Apply(env, s, op); s'.height.Some? && HeightStep(s, op, s')
  {
    hide DropParticipant, ResetCurrentRound, DropOrder, ResetOrder;
    match op
    case Drop(p, working, done, now) => DropHeight(env, s, p, working, done, now);
    case Ban(p, working, done, now) => DropHeight(env, s, p, working, done, now);
    case ForceReset(working, done, now) => ResetHeight(env, s, true, working, done, now);
  }

  lemma HeightKept(env: Environment, s: State, op: Op)
    requires Possible(env, s, op) && !op.Drop? && !op.Ban? && !op.ForceReset? && !op.CommitRound?
    ensures Apply(env, s, op).height == s.height && Apply(env, s, op).banned <= s.banned
  {
    hide Possible;
    if op.Enqueue? || op.Dequeue? || op.Requeue? || op.PrecommitRound? || op.RollbackRound? {
      QueueKeepsHeight(env, s, op);
    } else if op.StartAggregation? || op.EndAggregation? || op.CancelAggregation? || op.Unban? {
      MetricsKeepHeight(env, s, op);
    } else {
      WorkIsWork(env, s, op);
    }
    hide Apply;
  }

  lemma QueueKeepsHeight(env: Environment, s: State, op: Op)
    requires Possible(env, s, op) && (op.Enqueue? || op.Dequeue? || op.Requeue? || op.PrecommitRound? || op.RollbackRound?)
    ensures Apply(env, s, op).height == s.height && Apply(env, s, op).banned <= s.banned
  {
    hide Stage, PrecommitGuard, UpdatedQueue, Eligible, Requeued;
  }

  /** Nothing but the work on the current round has changed. */
  ghost predicate OnlyWork(s: State, s': State) {
    s' == s.(current := s'.current, pendingVerification := s'.pendingVerification, finished := s'.finished)
  }

  /** Work on tasks leaves the queue, the staging area, the metrics and the bans alone. */
  lemma WorkIsWork(env: Environment, s: State, op: Op)
    requires Possible(env, s, op)
    requires op.Fetch? || op.Lock? || op.Unfetch? || op.Unlock? || op.Dispose? || op.Complete? || op.MarkFinished?
    ensures OnlyWork(s, Apply(env, s, op))
  {
    match op
    case Complete(p, task) => CompleteIsWork(env, s, p, task);
    case MarkFinished(now) => MarkIsWork(s, now);
    case _ => RecordIsWork(env, s, op);
    hide FetchTask, AcquiredLock, RollbackPendingTask, RollbackLockedTask, DisposedTask, CompletedTask, UpdateCurrentContributors;
  }

  lemma CompleteIsWork(env: Environment, s: State, p: Participant, task: Task)
    ensures OnlyWork(s, CompletedTask(env, s, p, task).0)
  {
    hide ParticipantInfo.CompletedTask;
  }

  lemma MarkIsWork(s: State, now: Time)
    ensures OnlyWork(s, UpdateCurrentContributors(s, now).0)
  {
    hide StillWorking, NewlyFinished;
  }

  lemma RecordIsWork(env: Environment, s: State, op: Op)
    requires op.Fetch? || op.Lock? || op.Unfetch? || op.Unlock? || op.Dispose?
    ensures OnlyWork(s, Apply(env, s, op))
  {
    hide ParticipantInfo.PopTask, ParticipantInfo.AcquiredLock, ParticipantInfo.RollbackPendingTask,
      ParticipantInfo.RollbackLockedTask, ParticipantInfo.DisposeTask;
  }

  lemma MetricsKeepHeight(env: Environment, s: State, op: Op)
    requires Possible(env, s, op) && (op.StartAggregation? || op.EndAggregation? || op.CancelAggregation? || op.Unban?)
    ensures Apply(env, s, op).height == s.height && Apply(env, s, op).banned <= s.banned
  {
    hide Aggregated;
  }

  /** Nobody is banned except by a ban. */
  lemma BannedKept(env: Environment, s: State, op: Op)
    requires Possible(env, s, op) && !op.Ban?
    ensures Apply(env, s, op).banned <= s.banned
  {
    hide Apply, Possible;
    if op.CommitRound? {
      CommitKeepsBanned(env, s);
    } else if op.Drop? || op.ForceReset? {
      BackKeepsBanned(env, s, op);
    } else {
      HeightKept(env, s, op);
    }
  }

  lemma CommitKeepsBanned(env: Environment, s: State)
    ensures Apply(env, s, CommitRound).banned == s.banned
  {
    hide Contributors;
  }

  lemma BackKeepsBanned(env: Environment, s: State, op: Op)
    requires Possible(env, s, op) && (op.Drop? || op.ForceReset?)
    ensures Apply(env, s, op).banned == s.banned
  {
    hide DropParticipant, ResetCurrentRound, DropOrder, ResetOrder;
    match op
    case Drop(p, working, done, now) => DropKeepsBanned(env, s, p, working, done, now);
    case ForceReset(working, done, now) => ResetKeepsBanned(env, s, true, working, done, now);
  }

  lemma ResetKeepsBanned(env: Environment, s: State, force: bool, working: seq<Participant>, done: seq<Participant>, now: Time)
    requires ResetOrder(s, working, done)
    ensures ResetCurrentRound(env, s, force, working, done, now).0.banned == s.banned
  {
    hide Restart, Members, ResetOrder, Requeued;
  }

  lemma DropKeepsBanned(env: Environment, s: State, p: Participant, working: seq<Participant>, done: seq<Participant>, now: Time)
    requires DropOrder(env, s, p, working, done, now)
    ensures DropParticipant(env, s, p, working, done, now).0.banned == s.banned
  {
    if s.status != Initializing && !InQueue(s, p) && DropGuard(s, p).Ok? {
      assert p in s.current;
      hide DropGuard, AfterDrop, ResetCurrentRound, BucketsKnown, ResetOrder, AddReplacement;
      AfterDropKeepsBanned(env, s, p, now);
      ReplacementKeepsBanned(env, AfterDrop(env, s, p, now), s.current[p].bucket, now);
      if env.coordinatorContributors == [] {
        ResetKeepsBanned(env, AfterDrop(env, s, p, now), false, working, done, now);
      }
    }
    hide DropGuard, Requeued;
  }

  lemma AfterDropKeepsBanned(env: Environment, s: State, p: Participant, now: Time)
    requires DropGuard(s, p).Ok? && BucketsKnown(env, s.current, s.metrics.value.contributors)
    ensures AfterDrop(env, s, p, now).banned == s.banned
  {
    hide DropGuard, BucketsKnown, Affected;
  }

  lemma ReplacementKeepsBanned(env: Environment, s: State, bucket: nat, now: Time)
    ensures AddReplacement(env, s, bucket, now).0.banned == s.banned
  {
    hide TaskList;
  }

  /**
    Round-transition safety. In every state of every run the queue and the staging area are
    disjoint and the staging area is used in the precommit only; the height rises by one, only in
    a commit, and only when the round is complete and, unless it is round 0, aggregated.
   */
  lemma TransitionSafety(env: Environment, states: seq<State>, ops: seq<Op>, i: nat)
    requires Run(env, states, ops) && i < |states|
    ensures states[i].queue.Keys !! states[i].next.Keys
    ensures states[i].next != map[] ==> states[i].status == Precommit
    ensures states[i].height.Some?
    ensures i < |ops| ==> states[i + 1].height.Some? && HeightStep(states[i], ops[i], states[i + 1])
  {
    RunSound(env, states, ops, i);
    if i < |ops| {
      HeightMoves(env, states[i], ops[i]);
    }
  }

  /** The same queue, apart from the times it records. */
  ghost predicate SameQueue(a: map<Participant, QueueEntry>, b: map<Participant, QueueEntry>) {
    && a.Keys == b.Keys
    && forall p :: p in a ==> a[p].reliability == b[p].reliability && a[p].round == b[p].round
  }

  /** A successful precommit that is rolled back restores the queue and everything else of the round. */
  lemma PrecommitThenRollback(env: Environment, s: State, height: nat, order: seq<Participant>, now: Time, later: Time)
    requires Sound(env, s) && ReliabilityOrder(s.queue, height, order)
    requires PrecommitNextRound(env, s, height, order, now).1.Ok?
    ensures var back := RollbackNextRound(PrecommitNextRound(env, s, height, order, now).0, later);
      && SameQueue(s.queue, back.queue)
      && back == s.(queue := back.queue, status := Rollback)
  {
    PrecommitStages(env, s, height, order, now);
    StagedFromQueue(env, s, height, order, now);
    var staged := Stage(env, s, order, height, now, |order|).value;
    RestoredQueue(s.queue, staged, later);
    var back := RollbackNextRound(PrecommitNextRound(env, s, height, order, now).0, later);
    hide Sound, Stage, AssignedTo, ReliabilityOrder, Requeued, SameQueue;
    assert s.next == map[];
    assert back.queue == (s.queue - staged.Keys) + Requeued(staged, later);
  }

  lemma RestoredQueue(queue: map<Participant, QueueEntry>, staged: Roster, later: Time)
    requires staged.Keys <= queue.Keys
    requires forall p :: p in staged ==>
      staged[p].reliability == queue[p].reliability && queue[p].round == Some(staged[p].roundHeight)
    ensures SameQueue(queue, (queue - staged.Keys) + Requeued(staged, later))
  {
    assert ((queue - staged.Keys) + Requeued(staged, later)).Keys == queue.Keys;
  }

  lemma StagedFromQueue(env: Environment, s: State, height: nat, order: seq<Participant>, now: Time)
    requires ReliabilityOrder(s.queue, height, order) && 0 < height
    requires Stage(env, s, order, height, now, |order|).Ok?
    ensures var staged := Stage(env, s, order, height, now, |order|).value;
      forall p :: p in staged ==>
        && p in s.queue
        && staged[p].reliability == s.queue[p].reliability && s.queue[p].round == Some(staged[p].roundHeight)
  {
    StageAll(env, s, order, height, now, |order|);
    var staged := Stage(env, s, order, height, now, |order|).value;
    assert order[..|order|] == order;
    forall p | p in staged
      ensures p in s.queue
        && staged[p].reliability == s.queue[p].reliability && s.queue[p].round == Some(staged[p].roundHeight)
    {
      var i: nat :| i < |order| && order[i] == p;
      assert StagedAt(env, s, order, staged, height, i);
      assert p in AssignedTo(s.queue, height);
    }
  }
}
