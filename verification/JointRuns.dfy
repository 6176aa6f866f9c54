/**
  Runs of scheduler and storage together: any operations of the coordinator in any order, except
  that nobody is replaced. The two stay in step, so that a round that the state shows as finished is
  complete in storage; a dropped member is gone from both.
 */
module JointRuns {
  import opened Wrappers
  import opened Tasks
  import opened Lists
  import opened Participants
  import opened Ceremony
  import opened Rounds
  import opened Conservation
  import opened Phase2
  import opened Codec
  import opened Stores
  import opened StoredResets
  import opened Joint

  // ----- the members of the stored round

  /** The stored round lists its members, each once, and an aggregated round has nobody working in it. */
  ghost predicate Rostered(b: Both) {
    && (b.x.view.Running? ==>
          b.t.height in b.t.rounds && Enumerates(b.t.rounds[b.t.height].contributors, b.x.view.bucket.Keys))
    && (b.t.height in b.t.aggregated ==> b.x.s.current == map[])
  }

  /** The members and the contributors are those of before, and nobody has started to work. */
  lemma SameRoster(b: Both, b': Both)
    requires Rostered(b) && b'.x.view == b.x.view && b'.t.height == b.t.height
    requires b.t.height in b.t.rounds ==>
      b.t.height in b'.t.rounds && b'.t.rounds[b.t.height].contributors == b.t.rounds[b.t.height].contributors
    requires b'.t.height in b'.t.aggregated ==> b.t.height in b.t.aggregated || b'.x.s.current == map[]
    requires b.x.s.current == map[] ==> b'.x.s.current == map[]
    ensures Rostered(b')
  {
  }

  lemma LockRostered(env: Environment, b: Both, p: Participant, blank: Bytes)
    requires Rostered(b)
    ensures Rostered(TryLock(env, b, p, blank))
  {
    hide Next, Working, FetchTask, RollbackPendingTask, AcquiredLock, CanLock;
    var b' := TryLock(env, b, p, blank);
    if b' != b {
      var task, x1 := FetchTask(env, b.x.s, p).1.value, Next(env, b.x, Fetch(p));
      NextFetch(env, b.x, p);
      NextUnfetch(env, x1, p, task);
      NextLock(env, x1, p, task.chunk);
      hide Rostered;
      SameRoster(b, b');
    }
  }

  lemma ContributeRostered(env: Environment, hash: Bytes -> Hash, b: Both, p: Participant, c: nat, signed: bool)
    requires Rostered(b)
    ensures Rostered(TryContribute(env, hash, b, p, c, signed))
  {
    hide Next, Working, CompletedTask, DisposedTask, OnChunk;
    var b' := TryContribute(env, hash, b, p, c, signed);
    if b' != b {
      assert b.x.s.current != map[];
      if CanContribute(hash, b.t, c, p, signed) {
        NextComplete(env, b.x, p, Task(c, |b.t.rounds[b.t.height].chunks[c].verified|));
      }
      NextDispose(env, b.x, p);
      hide Rostered;
      SameRoster(b, b');
    }
  }

  lemma NextDispose(env: Environment, x: Exec, p: Participant)
    ensures forall task :: Next(env, x, Dispose(p, task)).view == x.view
  {
  }

  lemma VerifyRostered(env: Environment, hash: Bytes -> Hash, b: Both, v: Participant, task: Task, signed: bool)
    requires Rostered(b)
    ensures Rostered(TryVerify(env, hash, b, v, task, signed))
  {
    hide Next, Working, Linked, Rostered;
    NextComplete(env, b.x, v, task);
    SameRoster(b, TryVerify(env, hash, b, v, task, signed));
  }

  lemma AsideNext(env: Environment, x: Exec, op: Rounds.Op)
    requires Rounds.Possible(env, x.s, op) && Aside(op)
    ensures Next(env, x, op).view == x.view && Next(env, x, op).s.current == x.s.current
  {
    AsideFrame(env, x.s, op);
    hide Rounds.Apply, Rounds.Possible;
  }

  lemma MarkNext(env: Environment, x: Exec, now: Time)
    ensures Next(env, x, MarkFinished(now)).view == x.view
    ensures x.s.current == map[] ==> Next(env, x, MarkFinished(now)).s.current == map[]
  {
    NextMark(env, x, now);
    hide Next;
    assert x.s.current == map[] ==> StillWorking(x.s, now) == map[];
    hide StillWorking, NewlyFinished;
  }

  lemma AggregateRostered(env: Environment, b: Both, succeeds: bool, now: Time)
    requires Rostered(b)
    ensures Rostered(TryAggregate(env, b, succeeds, now))
  {
    hide Next, AggregatingCurrentRound, FinalFiles;
    var x1 := Next(env, b.x, StartAggregation(now));
    AsideNext(env, b.x, StartAggregation(now));
    AsideNext(env, x1, EndAggregation(now));
    AsideNext(env, x1, CancelAggregation);
    hide Rostered;
    SameRoster(b, TryAggregate(env, b, succeeds, now));
  }

  lemma AdvanceRostered(env: Environment, b: Both, order: seq<Participant>, now: Time)
    requires Rostered(b) && Orderly(b.t, env.chunks) && ReliabilityOrder(b.x.s.queue, b.x.s.Height() + 1, order)
    ensures Rostered(TryAdvance(env, b, order, now))
  {
    hide Rostered, Orderly, Next, PrecommitNextRound, CanOpen, ReliabilityOrder, Enumerates;
    var s, height := b.x.s, b.x.s.Height() + 1;
    var x1 := Next(env, b.x, PrecommitRound(height, order, now));
    AsideNext(env, b.x, PrecommitRound(height, order, now));
    AsideNext(env, x1, RollbackRound(now));
    if PrecommitNextRound(env, s, height, order, now).1.Ok? && CanOpen(env, b.t, order) {
      PrecommitListed(env, s, height, order, now);
      NextPrecommit(env, b.x, height, order, now);
      OpenRostered(env, Both(x1, b.t), order);
    }
    SameRoster(b, Both(Next(env, x1, RollbackRound(now)), b.t));
  }

  lemma OpenRostered(env: Environment, b: Both, order: seq<Participant>)
    requires Orderly(b.t, env.chunks) && CanOpen(env, b.t, order)
    requires b.x.s.status == Precommit && b.x.s.height.Some? && Enumerates(order, b.x.s.next.Keys)
    ensures Rostered(Both(Next(env, b.x, CommitRound), WithNextRound(env, b.t, order)))
  {
    var next: nat := b.t.height + 1;
    assert next !in b.t.aggregated || Finished(b.t, next);
    hide Next, Enumerates, CommitNextRound;
    NextCommit(env, b.x);
    BucketKeys(b.x.s.next);
  }

  /** A successful precommit stages exactly the members of `order`. */
  lemma PrecommitListed(env: Environment, s: State, height: nat, order: seq<Participant>, now: Time)
    requires ReliabilityOrder(s.queue, height, order) && PrecommitNextRound(env, s, height, order, now).1.Ok?
    ensures var s1 := PrecommitNextRound(env, s, height, order, now).0;
      s1.status == Precommit && s1.height.Some? && Enumerates(order, s1.next.Keys)
  {
    assert 0 < height && Stage(env, s, order, height, now, |order|).Ok?;
    PrecommitStages(env, s, height, order, now);
    hide Stage, AssignedTo, Staged, Enumerates;
  }

  lemma ResetRostered(env: Environment, b: Both, working: seq<Participant>, done: seq<Participant>, now: Time)
    requires Rostered(b) && b.x.s.height.Some? && ResetOrder(b.x.s, working, done)
    ensures Rostered(ForcedReset(env, b, working, done, now))
  {
    hide Next, ResetOrder, WithReset, ResetCurrentRound;
    if ResetCurrentRound(env, b.x.s, true, working, done, now).1.Ok? {
      NextReset(env, b.x, working, done, now);
      ForcedOutcome(env, b.x.s, working, done, now);
    }
  }

  // ----- drops that nobody can replace

  ghost function DropNext(env: Environment, x: Exec, p: Participant, working: seq<Participant>, done: seq<Participant>, now: Time)
    : Exec
    requires DropOrder(env, x.s, p, working, done, now)
  {
    Next(env, x, Rounds.Op.Drop(p, working, done, now))
  }

  /** A drop in the state, and then in storage what the state asks for. */
  ghost function TryDrop(env: Environment, b: Both, p: Participant, working: seq<Participant>, done: seq<Participant>, now: Time)
    : Both
    requires DropOrder(env, b.x.s, p, working, done, now)
  {
    var r := DropParticipant(env, b.x.s, p, working, done, now).1;
    Both(DropNext(env, b.x, p, working, done, now), if r.Err? then b.t else StoredDrop(b.t, p, r.value).0)
  }

  /** Members that begin: their tasks in order, and nothing at work. */
  ghost predicate Beginning(current: Roster) {
    forall p :: p in current ==> InIdOrder(current[p].assignedTasks) && current[p].locked == {} && current[p].pendingTasks == []
  }

  /** Everyone that is left starts over, or the round before is current again. */
  ghost predicate StartsOver(s: State, s': State, keys: seq<Participant>)
    requires s.height.Some?
  {
    && s'.pendingVerification == map[] && s'.Finished() == map[] && 0 < s.height.value
    && (keys == [] ==> s'.current == map[] && s'.height == Some(s.height.value - 1))
    && (keys != [] ==> s'.height == s.height && s'.current.Keys == (set q | q in keys))
    && (forall q :: q in s'.current ==> s'.current[q].completedTasks == [] && s'.current[q].disposingTasks == [])
    && Beginning(s'.current)
  }

  /** What a drop of a member of a good execution leaves of the round. */
  lemma AfterDropFacts(env: Environment, x: Exec, p: Participant, now: Time)
    requires Good(env, x) && DropGuard(x.s, p).Ok? && env.coordinatorContributors == []
    ensures x.view.Running? && p in x.s.current && x.s.height.Some? && 0 < x.s.height.value
    ensures x.s.metrics.Some? && BucketsKnown(env, x.s.current, x.s.metrics.value.contributors)
    ensures x.view.bucket.Keys == x.s.current.Keys + x.s.Finished().Keys && x.s.current.Keys !! x.s.Finished().Keys
    ensures var s1 := AfterDrop(env, x.s, p, now);
      && Restartable(env, s1) && s1.height == x.s.height && s1.height.value in s1.finished
      && s1.finished[s1.height.value] == s1.Finished() == x.s.Finished()
      && Listed(s1.current) && Listed(s1.finished[s1.height.value])
      && s1.current.Keys == x.s.current.Keys - {p}
  {
    hide Good, AfterDrop, Restartable, Listed;
    RoundFacts(env, x, p);
    AfterDropFields(env, x.s, p, now);
    AfterDropKeeps(env, x, p, now);
  }

  lemma RoundFacts(env: Environment, x: Exec, p: Participant)
    requires Good(env, x) && DropGuard(x.s, p).Ok?
    ensures x.view.Running? && p in x.s.current && x.s.height.Some? && 0 < x.s.height.value && x.s.height.value in x.s.finished
    ensures x.s.metrics.Some? && BucketsKnown(env, x.s.current, x.s.metrics.value.contributors)
    ensures x.view.bucket.Keys == x.s.current.Keys + x.s.Finished().Keys && x.s.current.Keys !! x.s.Finished().Keys
  {
    assert p in x.s.current;
    MemberActive(env, x, p);
    assert Covered(env, x.s, x.view.n, x.view.bucket) && Sound(env, x.s);
    hide Good, DropGuard, Active, AllActive, AllDone, Bijection, Transition, Listed;
  }

  lemma AfterDropFields(env: Environment, s: State, p: Participant, now: Time)
    requires DropGuard(s, p).Ok? && BucketsKnown(env, s.current, s.metrics.value.contributors)
    ensures var s1 := AfterDrop(env, s, p, now);
      && s1.height == s.height && s1.finished == s.finished && s1.Finished() == s.Finished()
      && s1.current.Keys == s.current.Keys - {p}
  {
    hide DropGuard, BucketsKnown, Affected;
  }

  lemma AfterDropKeeps(env: Environment, x: Exec, p: Participant, now: Time)
    requires Good(env, x) && DropGuard(x.s, p).Ok? && x.s.metrics.Some? && x.s.height.Some? && 0 < x.s.height.value
    requires BucketsKnown(env, x.s.current, x.s.metrics.value.contributors)
    ensures var s1 := AfterDrop(env, x.s, p, now);
      && Restartable(env, s1) && Listed(s1.current)
      && s1.height.Some? && s1.height.value in s1.finished && Listed(s1.finished[s1.height.value])
  {
    GoodRestartable(env, x);
    assert Sound(env, x.s);
    hide Good;
    AfterDropSound(env, x.s, p, now);
    hide DropGuard, BucketsKnown, AfterDrop;
    AfterDropRestartable(env, x.s, p, now);
    hide Restartable, Listed, Transition;
  }

  lemma DropIsReset(env: Environment, s: State, p: Participant, working: seq<Participant>, done: seq<Participant>, now: Time)
    requires DropOrder(env, s, p, working, done, now) && DropsMember(s, p) && env.coordinatorContributors == []
    ensures ResetOrder(AfterDrop(env, s, p, now), working, done)
    ensures var (s', r) := ResetCurrentRound(env, AfterDrop(env, s, p, now), false, working, done, now);
      r.Ok? ==>
      DropParticipant(env, s, p, working, done, now) == (s', Ok(Reset(Extended([p], r.value.removed), r.value.rollback)))
  {
    hide AfterDrop, ResetCurrentRound;
  }

  lemma ResetClears(env: Environment, s: State, working: seq<Participant>, done: seq<Participant>, now: Time)
    requires ResetOrder(s, working, done)
    ensures var (s', r) := ResetCurrentRound(env, s, false, working, done, now); r.Ok? ==> s'.pendingVerification == map[]
  {
    hide Ceremony.Restart, Members, ResetOrder, Requeued;
  }

  /** Without coordinator contributors, the drop of a member removes it and starts the round over, or takes it back. */
  lemma ResettingDrop(env: Environment, x: Exec, p: Participant, working: seq<Participant>, done: seq<Participant>, now: Time)
    requires Good(env, x) && DropOrder(env, x.s, p, working, done, now)
    requires DropsMember(x.s, p) && env.coordinatorContributors == []
    ensures x.view.Running? && p in x.s.current && x.s.height.Some?
    ensures var (s', r) := DropParticipant(env, x.s, p, working, done, now);
      r == Ok(Reset([p], working + done == [])) && StartsOver(x.s, s', working + done)
    ensures Distinct(working + done) && forall q :: q in working + done <==> q in x.view.bucket && q != p
  {
    hide Good, AfterDrop, DropGuard, DropOrder, DropParticipant, ResetCurrentRound, Restartable, Listed, FreshRoster, BucketsKnown;
    AfterDropFacts(env, x, p, now);
    DropIsReset(env, x.s, p, working, done, now);
    var s1, keys := AfterDrop(env, x.s, p, now), working + done;
    ConcatDistinct(working, done, s1.current.Keys, s1.Finished().Keys);
    ResetCovers(env, s1, false, working, done, now);
    ResetClears(env, s1, working, done, now);
    hide ResetOrder, InQueue, Distinct;
    if keys != [] {
      FreshStart(env, ResetCurrentRound(env, s1, false, working, done, now).0.current, keys,
                 s1.current.Keys + s1.finished[s1.height.value].Keys, x.s.height.value);
    }
  }

  lemma FreshStart(env: Environment, roster: Roster, keys: seq<Participant>, all: set<Participant>, height: nat)
    requires FreshRoster(env, roster, keys, all, height)
    ensures roster.Keys == (set q | q in keys)
    ensures forall q :: q in roster ==> roster[q].completedTasks == [] && roster[q].disposingTasks == []
    ensures Beginning(roster)
  {
    forall q | q in roster ensures InIdOrder(roster[q].assignedTasks) && roster[q].locked == {} && roster[q].pendingTasks == [] {
      IdsNeverFall(Indices(keys)[q], env.chunks, |keys|);
      hide BucketTasks, InIdOrder;
    }
  }

  /** In step and with its members listed, a drop that starts the round over keeps both. */
  lemma DismissInStep(env: Environment, b: Both, p: Participant, working: seq<Participant>, done: seq<Participant>, now: Time)
    requires InStep(env, b) && Rostered(b) && DropOrder(env, b.x.s, p, working, done, now)
    requires DropsMember(b.x.s, p) ==> env.coordinatorContributors == []
    ensures InStep(env, TryDrop(env, b, p, working, done, now))
  {
    hide InStep, Rostered, DropsMember, DropOrder;
    if DropsMember(b.x.s, p) {
      DismissIs(env, b, p, working, done, now);
      hide Dismissed, TryDrop;
      MemberDropped(env, b, p, working + done, TryDrop(env, b, p, working, done, now));
    } else {
      AsideDropped(env, b, p, working, done, now);
    }
  }

  /** A drop that does not reach the round leaves what matters to storage alone. */
  lemma AsideDropped(env: Environment, b: Both, p: Participant, working: seq<Participant>, done: seq<Participant>, now: Time)
    requires InStep(env, b) && DropOrder(env, b.x.s, p, working, done, now) && !DropsMember(b.x.s, p)
    ensures InStep(env, TryDrop(env, b, p, working, done, now))
    ensures var b' := TryDrop(env, b, p, working, done, now);
      && b'.t == b.t && b'.x.view == b.x.view
      && b'.x.s.current == b.x.s.current && b'.x.s.Finished() == b.x.s.Finished()
  {
    assert Good(env, b.x);
    hide InStep;
    AsideDrop(env, b.x.s, p, working, done, now);
    NextDrop(env, b.x, p, working, done, now);
    GoodNext(env, b.x, p, working, done, now);
    hide Good, DropNext, DropOrder, DropsMember, DropParticipant;
    FrameInStep(env, b, DropNext(env, b.x, p, working, done, now));
  }

  lemma AsideDrop(env: Environment, s: State, p: Participant, working: seq<Participant>, done: seq<Participant>, now: Time)
    requires DropOrder(env, s, p, working, done, now) && !DropsMember(s, p)
    ensures var (s', r) := DropParticipant(env, s, p, working, done, now);
      && s' == s.(queue := s'.queue, next := s'.next, status := s'.status)
      && (r.Ok? ==> r.value == DropQueue)
  {
    hide DropGuard, Requeued;
  }

  lemma NextDrop(env: Environment, x: Exec, p: Participant, working: seq<Participant>, done: seq<Participant>, now: Time)
    requires DropOrder(env, x.s, p, working, done, now)
    ensures var x' := DropNext(env, x, p, working, done, now);
      && x'.s == DropParticipant(env, x.s, p, working, done, now).0
      && (!DropsMember(x.s, p) ==> x'.view == x.view)
      && (DropsMember(x.s, p) && env.coordinatorContributors == [] ==> x'.view == ViewOf(working + done))
  {
    hide DropParticipant, DropsMember, DropOrder;
  }

  /** What the drop of a member that nobody can replace is, in the state and in storage. */
  ghost predicate Dismissed(env: Environment, b: Both, p: Participant, keys: seq<Participant>, b': Both) {
    && Good(env, b.x) && Orderly(b.t, env.chunks) && b.x.view.Running? && b.x.s.height == Some(b.t.height)
    && Good(env, b'.x) && StartsOver(b.x.s, b'.x.s, keys) && b'.x.view == ViewOf(keys)
    && b'.t == WithReset(b.t, ResetAction([p], keys == [])).0
    && Distinct(keys) && forall q :: q in keys <==> q in b.x.view.bucket && q != p
  }

  lemma DismissIs(env: Environment, b: Both, p: Participant, working: seq<Participant>, done: seq<Participant>, now: Time)
    requires InStep(env, b) && DropOrder(env, b.x.s, p, working, done, now)
    requires DropsMember(b.x.s, p) && env.coordinatorContributors == []
    ensures Dismissed(env, b, p, working + done, TryDrop(env, b, p, working, done, now))
  {
    hide Good, Orderly, DropNext, DropParticipant, DropOrder, DropsMember, StartsOver, WithReset, Distinct, Undisturbed, ChunksInStep;
    GoodNext(env, b.x, p, working, done, now);
    NextDrop(env, b.x, p, working, done, now);
    ResettingDrop(env, b.x, p, working, done, now);
    hide InStep;
  }

  lemma GoodNext(env: Environment, x: Exec, p: Participant, working: seq<Participant>, done: seq<Participant>, now: Time)
    requires Good(env, x) && DropOrder(env, x.s, p, working, done, now)
    requires DropsMember(x.s, p) ==> env.coordinatorContributors == []
    ensures Good(env, DropNext(env, x, p, working, done, now))
  {
    hide Good, Next, DropOrder, DropsMember, FreeReplacement;
    StepGood(env, x, Rounds.Op.Drop(p, working, done, now));
  }

  lemma MemberDropped(env: Environment, b: Both, p: Participant, keys: seq<Participant>, b': Both)
    requires Dismissed(env, b, p, keys, b') && Rostered(b)
    ensures InStep(env, b')
  {
    if keys == [] {
      assert b'.x.view.NoRound?;
      hide Good, Orderly, WithReset, Rostered, Distinct;
      ResetOrderly(b.t, env.chunks, ResetAction([p], true));
      RoundBefore(env, b.t, ResetAction([p], true));
      NobodyInStep(env, b'.x, b'.t);
    } else {
      hide Good, Orderly, WithReset, Rostered, StartsOver, Distinct;
      RestartedInStep(env, b, b'.x, p, keys);
    }
  }

  /** The restarted round, in the state and in storage. */
  lemma RestartedInStep(env: Environment, b: Both, x': Exec, p: Participant, keys: seq<Participant>)
    requires Orderly(b.t, env.chunks) && Rostered(b) && b.x.view.Running? && b.x.s.height == Some(b.t.height)
    requires Good(env, x') && StartsOver(b.x.s, x'.s, keys) && keys != [] && x'.view == Running(|keys|, Indices(keys))
    requires Distinct(keys) && forall q :: q in keys <==> q in b.x.view.bucket && q != p
    ensures InStep(env, Both(x', WithReset(b.t, ResetAction([p], false)).0))
  {
    assert 0 < b.t.height;
    hide Good, Orderly, StartsOver, Indices, Everyone, WithReset, Enumerates, Distinct;
    KeptRound(env, b.t, p, keys, b.x.view.bucket.Keys);
    var t' := WithReset(b.t, ResetAction([p], false)).0;
    StartedOver(b.x.s, x'.s, keys);
    FreshInStep(x'.s, t'.rounds[t'.height].chunks);
    hide ChunksInStep, Undisturbed, Rostered;
  }

  lemma StartedOver(s: State, s': State, keys: seq<Participant>)
    requires s.height.Some? && StartsOver(s, s', keys) && keys != []
    ensures s'.height == s.height && s'.pendingVerification == map[]
    ensures forall env :: Undisturbed(env, s')
    ensures forall q :: q in Everyone(s') ==> Everyone(s')[q].completedTasks == []
  {
    assert Everyone(s') == s'.current;
  }

  /** The stored round after a reset that removes one contributor and leaves others. */
  lemma KeptRound(env: Environment, t: Store, p: Participant, keys: seq<Participant>, members: set<Participant>)
    requires Orderly(t, env.chunks) && 0 < t.height && t.height in t.rounds
    requires Enumerates(t.rounds[t.height].contributors, members)
    requires keys != [] && Distinct(keys) && forall q :: q in keys <==> q in members && q != p
    ensures var t' := WithReset(t, ResetAction([p], false)).0;
      && Orderly(t', env.chunks) && t'.height == t.height && t'.height in t'.rounds && t'.height !in t'.aggregated
      && var round := t'.rounds[t'.height];
      && Distinct(round.contributors) && (forall q :: q in round.contributors <==> q in keys)
      && |round.contributors| == |keys|
      && forall c :: 0 <= c < |round.chunks| ==> round.chunks[c] == NEW_CHUNK
  {
    var action := ResetAction([p], false);
    assert keys[0] in t.rounds[t.height].contributors && keys[0] !in action.removed;
    ResetOrderly(t, env.chunks, action);
    ResetRounds(t, action);
    hide WithReset, Orderly, Distinct;
    SameSize(WithReset(t, action).0.rounds[t.height].contributors, keys);
  }

  lemma SameSize(a: seq<Participant>, b: seq<Participant>)
    requires Distinct(a) && Distinct(b) && forall p :: p in a <==> p in b
    ensures |a| == |b|
  {
    var all := set p | p in a;
    EnumerationSize(a, all);
    EnumerationSize(b, all);
  }

  /** The members after the drop are those of before without the dropped one, in the state and in storage. */
  lemma DismissRostered(env: Environment, b: Both, p: Participant, working: seq<Participant>, done: seq<Participant>, now: Time)
    requires InStep(env, b) && Rostered(b) && DropOrder(env, b.x.s, p, working, done, now)
    requires DropsMember(b.x.s, p) ==> env.coordinatorContributors == []
    ensures Rostered(TryDrop(env, b, p, working, done, now))
  {
    hide InStep, Rostered, DropOrder, DropsMember, TryDrop;
    if DropsMember(b.x.s, p) {
      DismissIs(env, b, p, working, done, now);
      hide Dismissed;
      LeftRostered(env, b, p, working + done, TryDrop(env, b, p, working, done, now));
    } else {
      AsideDropped(env, b, p, working, done, now);
      SameRoster(b, TryDrop(env, b, p, working, done, now));
    }
  }

  lemma LeftRostered(env: Environment, b: Both, p: Participant, keys: seq<Participant>, b': Both)
    requires Dismissed(env, b, p, keys, b') && Rostered(b)
    ensures Rostered(b')
    ensures keys != [] ==>
      && b'.t.height == b.t.height && b'.t.height in b'.t.rounds
      && Enumerates(b'.t.rounds[b'.t.height].contributors, b'.x.s.current.Keys)
    ensures keys == [] ==> b'.t.height == b.t.height - 1
  {
    hide Good, Orderly, Indices, WithReset, Distinct;
    assert b.t.height in b.t.rounds;
    IndexKeys(keys);
    if keys == [] {
      ResetRounds(b.t, ResetAction([p], true));
    } else {
      KeptRound(env, b.t, p, keys, b.x.view.bucket.Keys);
    }
  }

  lemma IndexKeys(keys: seq<Participant>)
    ensures forall q :: q in Indices(keys) <==> q in keys
  {
  }

  /**
    A member that nobody can replace is dropped, in step and with the members listed. Both stay in
    step and the members listed, and the dropped one is not among them. If nobody is left, the round
    is taken back; otherwise it starts over in both for exactly those who are left.
   */
  lemma DismissalAgrees(env: Environment, b: Both, p: Participant, working: seq<Participant>, done: seq<Participant>, now: Time)
    requires InStep(env, b) && Rostered(b) && DropOrder(env, b.x.s, p, working, done, now)
    requires DropsMember(b.x.s, p) && env.coordinatorContributors == []
    ensures var b' := TryDrop(env, b, p, working, done, now);
      && InStep(env, b') && Rostered(b')
      && p !in b'.x.s.current && p !in b'.x.s.Finished()
      && if Everyone(b.x.s).Keys == {p} then
           b'.t.height == b.t.height - 1 && DropParticipant(env, b.x.s, p, working, done, now).1 == Ok(Reset([p], true))
         else
           && b'.t.height == b.t.height && b'.t.height in b'.t.rounds
           && b'.x.s.current.Keys == Everyone(b.x.s).Keys - {p} && b'.x.s.Finished() == map[]
           && Enumerates(b'.t.rounds[b'.t.height].contributors, b'.x.s.current.Keys)
  {
    hide InStep, Rostered, DropParticipant, DropOrder, DropsMember, TryDrop, Enumerates;
    DismissInStep(env, b, p, working, done, now);
    DismissRostered(env, b, p, working, done, now);
    DismissIs(env, b, p, working, done, now);
    var keys, b' := working + done, TryDrop(env, b, p, working, done, now);
    assert Good(env, b.x) by { hide *; StepIsGood(env, b); }
    ResettingDrop(env, b.x, p, working, done, now);
    hide Good;
    EveryoneIs(env, b.x);
    LeftRostered(env, b, p, keys, b');
    NobodyElse(b, p, keys);
    hide Dismissed;
    GoneFrom(env, b, p, keys, b');
  }

  lemma StepIsGood(env: Environment, b: Both)
    requires InStep(env, b)
    ensures Good(env, b.x)
  {
    hide Good;
  }

  lemma NobodyElse(b: Both, p: Participant, keys: seq<Participant>)
    requires b.x.view.Running? && p in b.x.view.bucket
    requires forall q :: q in keys <==> q in b.x.view.bucket && q != p
    ensures keys == [] <==> b.x.view.bucket.Keys == {p}
    ensures (set q | q in keys) == b.x.view.bucket.Keys - {p}
  {
    if keys != [] {
      assert keys[0] in keys;
    }
  }

  lemma GoneFrom(env: Environment, b: Both, p: Participant, keys: seq<Participant>, b': Both)
    requires Dismissed(env, b, p, keys, b')
    ensures p !in b'.x.s.current && p !in b'.x.s.Finished()
    ensures keys != [] ==> b'.x.s.Finished() == map[] && b'.x.s.current.Keys == (set q | q in keys)
  {
    hide WithReset, Good, Orderly, Indices, Distinct;
  }

  lemma EveryoneIs(env: Environment, x: Exec)
    requires Good(env, x) && x.view.Running?
    ensures Everyone(x.s).Keys == x.view.bucket.Keys
  {
    assert Covered(env, x.s, x.view.n, x.view.bucket);
  }

  // ----- every run

  datatype Op =
    | LockNext(p: Participant, blank: Bytes)
    | Respond(p: Participant, chunk: nat, signed: bool)
    | Approve(v: Participant, task: Task, signed: bool)
    | Combine(succeeds: bool, now: Time)
    | Advance(order: seq<Participant>, now: Time)
    | Restart(working: seq<Participant>, done: seq<Participant>, now: Time)
    | Schedule(op: Rounds.Op)
    | Upload(file: Locator, content: Bytes)
    | Remove(file: Locator)
    | Dismiss(p: Participant, working: seq<Participant>, done: seq<Participant>, now: Time)

  ghost predicate Possible(env: Environment, b: Both, op: Op) {
    match op
    case Advance(order, _) => ReliabilityOrder(b.x.s.queue, b.x.s.Height() + 1, order)
    case Restart(working, done, _) => ResetOrder(b.x.s, working, done)
    case Schedule(o) => Rounds.Possible(env, b.x.s, o) && Alone(o)
    case Dismiss(p, working, done, now) =>
      DropOrder(env, b.x.s, p, working, done, now) && (DropsMember(b.x.s, p) ==> env.coordinatorContributors == [])
    case _ => true
  }

  ghost function Apply(env: Environment, hash: Bytes -> Hash, b: Both, op: Op): Both
    requires Possible(env, b, op)
  {
    match op
    case LockNext(p, blank) => TryLock(env, b, p, blank)
    case Respond(p, chunk, signed) => TryContribute(env, hash, b, p, chunk, signed)
    case Approve(v, task, signed) => TryVerify(env, hash, b, v, task, signed)
    case Combine(succeeds, now) => TryAggregate(env, b, succeeds, now)
    case Advance(order, now) => TryAdvance(env, b, order, now)
    case Restart(working, done, now) => ForcedReset(env, b, working, done, now)
    case Schedule(o) => b.(x := Next(env, b.x, o))
    case Upload(file, content) => b.(t := b.t.(files := b.t.files[file := content]))
    case Remove(file) => b.(t := Erased(b.t, file))
    case Dismiss(p, working, done, now) => TryDrop(env, b, p, working, done, now)
  }

  lemma StepInStep(env: Environment, hash: Bytes -> Hash, b: Both, op: Op)
    requires InStep(env, b) && Rostered(b) && Possible(env, b, op)
    ensures InStep(env, Apply(env, hash, b, op))
  {
    hide InStep, Rostered, Next, TryDrop;
    match op
    case LockNext(p, blank) => LockInStep(env, b, p, blank);
    case Respond(p, chunk, signed) => ContributeInStep(env, hash, b, p, chunk, signed);
    case Approve(v, task, signed) => VerifyInStep(env, hash, b, v, task, signed);
    case Combine(succeeds, now) => AggregateInStep(env, b, succeeds, now);
    case Advance(order, now) => AdvanceInStep(env, b, order, now);
    case Restart(working, done, now) => ResetInStep(env, b, working, done, now);
    case Schedule(o) =>
      if o.MarkFinished? {
        MarkInStep(env, b, o.now);
      } else {
        AsideInStep(env, b, o);
      }
    case Upload(file, content) => FilesInStep(env, b, b.t.files[file := content]);
    case Remove(file) => FilesInStep(env, b, b.t.files - {file});
    case Dismiss(p, working, done, now) => DismissInStep(env, b, p, working, done, now);
  }

  /** A run from a fresh ceremony, by any operations but replacements. */
  ghost predicate Run(env: Environment, hash: Bytes -> Hash, bs: seq<Both>, ops: seq<Op>) {
    && env.Valid() && env.coordinatorVerifiers != []
    && |bs| == |ops| + 1
    && bs[0].x == Exec(Initialize(NEW_STATE, 0), NoRound, []) && Initial(bs[0].t, env.chunks)
    && forall i :: 0 <= i < |ops| ==> Possible(env, bs[i], ops[i]) && bs[i + 1] == Apply(env, hash, bs[i], ops[i])
  }

  lemma RunStep(env: Environment, hash: Bytes -> Hash, bs: seq<Both>, ops: seq<Op>, i: nat)
    requires Run(env, hash, bs, ops) && 0 < i < |bs|
    ensures |bs| == |ops| + 1 && Possible(env, bs[i - 1], ops[i - 1]) && bs[i] == Apply(env, hash, bs[i - 1], ops[i - 1])
  {
    hide Possible, Apply;
  }

  lemma {:induction false} RunInStep(env: Environment, hash: Bytes -> Hash, bs: seq<Both>, ops: seq<Op>, i: nat)
    requires Run(env, hash, bs, ops) && i < |bs|
    ensures InStep(env, bs[i]) && Rostered(bs[i])
  {
    hide InStep, Apply, Possible;
    if i > 0 {
      RunInStep(env, hash, bs, ops, i - 1);
      hide Rostered;
      StepInStep(env, hash, bs[i - 1], ops[i - 1]);
      StepRostered(env, hash, bs[i - 1], ops[i - 1]);
    } else {
      FreshInStart(env, bs[0]);
    }
  }

  lemma FreshInStart(env: Environment, b: Both)
    requires env.Valid() && env.coordinatorVerifiers != []
    requires b.x == Exec(Initialize(NEW_STATE, 0), NoRound, []) && Initial(b.t, env.chunks)
    ensures InStep(env, b)
  {
    InitialGood(env, 0);
    hide Good;
  }

  /**
    In every run in which nobody is replaced, a round that the scheduler shows as finished is complete in
    storage: every contribution is there and verified, and no chunk is locked. The aggregation of
    such a round cannot be refused for being incomplete.
   */
  lemma FinishedRoundIsStored(env: Environment, hash: Bytes -> Hash, bs: seq<Both>, ops: seq<Op>, i: nat)
    requires Run(env, hash, bs, ops) && i < |bs| && bs[i].x.s.IsRoundFinished() && 0 < bs[i].t.height
    ensures bs[i].x.s.height == Some(bs[i].t.height)
    ensures bs[i].t.height in bs[i].t.rounds && bs[i].t.rounds[bs[i].t.height].Complete()
    ensures FinalFiles(bs[i].t, bs[i].t.rounds[bs[i].t.height]) ==> bs[i].t.height in WithAggregate(bs[i].t, true).aggregated
  {
    RunInStep(env, hash, bs, ops, i);
    FinishedIsComplete(env, bs[i]);
    if FinalFiles(bs[i].t, bs[i].t.rounds[bs[i].t.height]) {
      AggregationNotRefused(env, bs[i]);
    }
    hide Run;
  }

  lemma StepRostered(env: Environment, hash: Bytes -> Hash, b: Both, op: Op)
    requires InStep(env, b) && Rostered(b) && Possible(env, b, op)
    ensures Rostered(Apply(env, hash, b, op))
  {
    assert b.x.s.height.Some? && Orderly(b.t, env.chunks);
    hide InStep, Rostered, Next, Orderly, TryDrop;
    match op
    case LockNext(p, blank) => LockRostered(env, b, p, blank);
    case Respond(p, chunk, signed) => ContributeRostered(env, hash, b, p, chunk, signed);
    case Approve(v, task, signed) => VerifyRostered(env, hash, b, v, task, signed);
    case Combine(succeeds, now) => AggregateRostered(env, b, succeeds, now);
    case Advance(order, now) => AdvanceRostered(env, b, order, now);
    case Restart(working, done, now) => ResetRostered(env, b, working, done, now);
    case Schedule(o) =>
      if o.MarkFinished? {
        MarkNext(env, b.x, o.now);
      } else {
        AsideNext(env, b.x, o);
      }
      SameRoster(b, Apply(env, hash, b, op));
    case Upload(file, content) => SameRoster(b, Apply(env, hash, b, op));
    case Remove(file) => SameRoster(b, Apply(env, hash, b, op));
    case Dismiss(p, working, done, now) => DismissRostered(env, b, p, working, done, now);
  }
}
