/**
  The coordinator around its state and its storage. Advancing, resetting and dropping move the two
  round heights together; without drops, every operation also keeps the work in both places in step.
 */
module StoredCeremony {
  import opened Wrappers
  import opened Tasks
  import opened Participants
  import opened Ceremony
  import opened Rounds
  import opened Conservation
  import opened Coordinator
  import opened Phase2
  import opened Codec
  import opened Stores
  import opened Disk
  import opened Joint
  import opened JointRuns

  class StoredCoordinator {
    const state: CoordinatorState
    const storage: Storage
    ghost var view: View
    ghost var log: seq<Event>

    ghost function Now(): Both
      reads this, state, storage
    {
      Both(Exec(state.Snapshot(), view, log), storage.Value())
    }

    /** The state is sound, and state and storage are at the same round. */
    ghost predicate Agree()
      reads this, state, storage
    {
      Level(state.env, state.Snapshot(), storage.Value()) && state.env == storage.env
    }

    /** State and storage are in step, and the stored round lists the members. */
    ghost predicate Valid()
      reads this, state, storage
    {
      InStep(state.env, Now()) && Rostered(Now()) && state.env == storage.env
    }

    constructor (env: Environment, hash: Bytes -> Hash, files: map<Locator, Bytes>)
      requires env.Valid() && env.coordinatorVerifiers != []
      ensures Valid() && fresh(state) && fresh(storage) && state.env == env && storage.hash == hash && storage.height == 0
    {
      state := new CoordinatorState(env, 0);
      storage := new Storage(env, hash, files);
      view, log := NoRound, [];
      new;
      FreshInStart(env, Now());
    }

    lemma ValidAgrees()
      requires Valid()
      ensures Agree() && storage.Valid()
    {
      hide Sound, ChunksInStep, Undisturbed;
    }

    /** Fetches a task, locks its chunk, and records the lock; or puts the task back. */
    method TryLock(p: Participant, blank: Bytes)
      requires Valid()
      modifies this, state, storage
      ensures Valid() && Now() == Joint.TryLock(state.env, old(Now()), p, blank)
    {
      hide InStep, Rostered, Sound, FetchTask, Joint.TryLock, PlaceLock;
      ghost var b, env := Now(), state.env;
      ValidAgrees();
      LockInStep(env, b, p, blank);
      LockRostered(env, b, p, blank);
      LockUnfolds(env, b, p, blank);
      var isWorking := OpenForWork();
      if p.Verifier? || p in state.banned || p !in state.current || !isWorking { return; }
      var fetched := state.FetchTask(p);
      if fetched.Err? { return; }
      LockFetched(p, fetched.value, blank);
    }

    method LockFetched(p: Participant, task: Task, blank: Bytes)
      requires state.Valid() && state.env == storage.env
      modifies state, storage
      ensures state.Valid()
      ensures (state.Snapshot(), storage.Value()) ==
        PlaceLock(state.env, old(state.Snapshot()), old(storage.Value()), p, task, blank)
    {
      LockRefused(storage.env, storage.Value(), task.chunk, p, blank);
      hide Sound, RollbackPendingTask, AcquiredLock, CanLock, WithLock;
      if storage.height !in storage.rounds || task.chunk >= |storage.rounds[storage.height].chunks| { return; }
      if task.contribution > |storage.rounds[storage.height].chunks[task.chunk].verified| {
        var _ := state.RollbackPendingTask(p, task);
        return;
      }
      var locked := storage.TryLockChunk(task.chunk, p, blank);
      if locked {
        var _ := state.AcquiredLock(p, task.chunk);
      } else {
        var _ := state.RollbackPendingTask(p, task);
      }
    }

    /** Accepts a response in storage and completes its task; a refused response is erased. */
    method TryContribute(p: Participant, c: nat, signed: bool)
      requires Valid()
      modifies this, state, storage
      ensures Valid() && Now() == Joint.TryContribute(state.env, storage.hash, old(Now()), p, c, signed)
    {
      hide Sound, Answer, Joint.TryContribute, Undisturbed, OnChunk;
      ghost var b, env, hash := Now(), state.env, storage.hash;
      ValidAgrees();
      ContributeUnfolds(env, hash, b, p, c, signed);
      hide InStep, Rostered;
      ContributeInStep(env, hash, b, p, c, signed);
      ContributeRostered(env, hash, b, p, c, signed);
      ghost var b' := Joint.TryContribute(env, hash, b, p, c, signed);
      var isWorking := OpenForWork();
      if c > state.env.chunks || p.Verifier? || p in state.banned || p !in state.current || !isWorking { return; }
      if c !in state.current[p].locked { return; }
      var pending := OnChunk(state.current[p].pendingTasks, c);
      if |pending| != 1 { return; }
      Respond(p, c, signed, pending[0]);
      view, log := b'.x.view, b'.x.log;
    }

    method Respond(p: Participant, c: nat, signed: bool, task: Task)
      requires state.Valid()
      modifies state, storage
      ensures state.Valid()
      ensures (state.Snapshot(), storage.Value()) ==
        Answer(state.env, storage.hash, old(state.Snapshot()), old(storage.Value()), p, c, signed, task)
    {
      ResponseShape(storage.hash, storage.Value(), c, p, signed);
      hide Sound, CompletedTask, CanContribute, WithResponse;
      var ok := storage.AddContribution(c, p, signed);
      if ok {
        var _ := state.CompletedTask(p, Task(c, |storage.rounds[storage.height].chunks[c].verified| - 1));
      } else {
        storage.Remove(Locator(storage.height, c, task.contribution, false));
      }
    }

    /** Accepts the next challenge in storage and ends the wait for it; on a refusal the challenge is erased. */
    method TryVerify(v: Participant, task: Task, signed: bool)
      requires Valid()
      modifies this, state, storage
      ensures Valid() && Now() == Joint.TryVerify(state.env, storage.hash, old(Now()), v, task, signed)
    {
      hide InStep, Rostered, Sound, CompletedTask, CanVerify, WithChallenge, Joint.TryVerify;
      ghost var b, env, hash := Now(), state.env, storage.hash;
      ValidAgrees();
      VerifyInStep(env, hash, b, v, task, signed);
      VerifyRostered(env, hash, b, v, task, signed);
      VerifyUnfolds(env, hash, b, v, task, signed);
      ghost var b' := Joint.TryVerify(env, hash, b, v, task, signed);
      var isWorking := OpenForWork();
      if v.Contributor? || task.chunk > state.env.chunks || !isWorking { return; }
      var ok := storage.VerifyContribution(task, v, signed);
      if ok {
        var _ := state.CompletedTask(v, task);
        view, log := b'.x.view, b'.x.log;
      } else if storage.height in storage.rounds {
        var n := |storage.rounds[storage.height].contributors|;
        storage.Remove(NextChallenge(storage.height, task.chunk, task.contribution, n));
      }
    }

    /** Aggregates a finished round in storage; a failure takes the start of the aggregation back. */
    method TryAggregate(succeeds: bool, now: Time)
      requires Valid()
      modifies this, state, storage
      ensures Valid() && Now() == Joint.TryAggregate(state.env, old(Now()), succeeds, now)
    {
      hide InStep, Rostered, Sound, Joint.TryAggregate, Ceremony.AggregatingCurrentRound, Combines, Orderly;
      ghost var b, env := Now(), state.env;
      ValidAgrees();
      AggregateInStep(env, b, succeeds, now);
      AggregateRostered(env, b, succeeds, now);
      AggregateUnfolds(env, b, succeeds, now);
      var m := state.metrics;
      if state.pendingVerification != map[] || state.current != map[] { return; }
      if m.Some? && m.value.aggregated && m.value.startedAggregation.Some? && m.value.finishedAggregation.Some? { return; }
      var started := state.AggregatingCurrentRound(now);
      if started.Err? { return; }
      Aggregate(succeeds, now);
    }

    method Aggregate(succeeds: bool, now: Time)
      requires Agree() && storage.Valid()
      modifies state, storage
      ensures state.Valid()
      ensures (state.Snapshot(), storage.Value()) == Combines(state.env, old(state.Snapshot()), old(storage.Value()), succeeds, now)
    {
      hide Sound, AggregatedCurrentRound, RollbackAggregatingCurrentRound, WithAggregate, Orderly;
      if storage.height == 0 {
        var _ := state.AggregatedCurrentRound(now);
        return;
      }
      KeepsHeight(storage.Value(), succeeds);
      var ok := storage.AggregateContributions(succeeds);
      if ok {
        var _ := state.AggregatedCurrentRound(now);
      } else {
        var _ := state.RollbackAggregatingCurrentRound();
      }
    }

    /** Precommits the next round, opens it in storage, and commits; a refusal rolls the precommit back. */
    method TryAdvance(now: Time) returns (r: Outcome<nat>, ghost order: seq<Participant>)
      requires Agree()
      modifies this, state, storage
      ensures Agree() && (old(storage.Valid()) ==> storage.Valid())
      ensures storage.height == if r.Ok? then old(storage.height) + 1 else old(storage.height)
      ensures r.Ok? ==> r.value == storage.height
      ensures Now() == old(Now()) || Advances(state.env, old(Now()), order, now, Now())
      ensures old(Valid()) ==> Valid()
    {
      ghost var b, env := Now(), state.env;
      hide InStep, Rostered, Sound, Orderly, ReliabilityOrder, Joint.TryAdvance, Level;
      var open, reason;
      open, reason, order := AdvanceBoth(now);
      if open.None? { return Err(reason), order; }
      AdvanceKeeps(env, b, order, now);
      ghost var b' := Joint.TryAdvance(env, b, order, now);
      view, log := b'.x.view, b'.x.log;
      assert Now() == b';
      if open.value { return Ok(storage.height), order; }
      return Err(reason), order;
    }

    /** The step in state and storage; no outcome when the round is not ready to be left. */
    method AdvanceBoth(now: Time) returns (open: Option<bool>, reason: Error, ghost order: seq<Participant>)
      requires Agree()
      modifies state, storage
      ensures Agree() && (old(storage.Valid()) ==> storage.Valid())
      ensures open.None? ==> state.Snapshot() == old(state.Snapshot()) && storage.Value() == old(storage.Value())
      ensures open.Some? ==>
        && old(storage.height) == old(state.Snapshot()).Height()
        && ReliabilityOrder(old(state.queue), old(storage.height) + 1, order)
        && var b' := Joint.TryAdvance(state.env, old(Now()), order, now);
        state.Snapshot() == b'.x.s && storage.Value() == b'.t
      ensures storage.height == if open == Some(true) then old(storage.height) + 1 else old(storage.height)
    {
      ghost var b, env := Now(), state.env;
      order, reason := [], CurrentRoundNotFinished;
      if state.pendingVerification != map[] || state.current != map[] { return None, reason, order; }
      var m := state.metrics;
      if storage.height > 0
         && !(m.Some? && m.value.aggregated && m.value.startedAggregation.Some? && m.value.finishedAggregation.Some?)
      { return None, CurrentRoundNotAggregated, order; }
      var chosen;
      chosen, order := state.PrecommitNextRound(storage.height + 1, now);
      AdvanceUnfolds(env, b, order, now);
      hide Sound, Ceremony.PrecommitNextRound, ReliabilityOrder, Opens, Joint.TryAdvance, Orderly;
      reason := if chosen.Err? then chosen.error else if chosen.value == [] then ContributorsMissing else StorageFailed;
      var isOpen := OpenOrRollBack(chosen, now);
      open := Some(isOpen);
    }

    method OpenOrRollBack(chosen: Outcome<seq<Participant>>, now: Time) returns (ok: bool)
      requires Agree() && (chosen.Ok? ==> state.status == Precommit)
      modifies state, storage
      ensures Agree() && (old(storage.Valid()) ==> storage.Valid())
      ensures (state.Snapshot(), storage.Value()) == Opens(state.env, old(state.Snapshot()), old(storage.Value()), chosen, now)
      ensures storage.height == if ok then old(storage.height) + 1 else old(storage.height)
    {
      hide Level, Sound, CanOpen, WithNextRound, Ceremony.CommitNextRound, Ceremony.RollbackNextRound, Orderly;
      OpensLevel(state.env, state.Snapshot(), storage.Value(), chosen, now);
      if chosen.Err? {
        state.RollbackNextRound(now);
        return false;
      }
      ok := storage.NextRound(chosen.value);
      if ok {
        state.CommitNextRound();
      } else {
        state.RollbackNextRound(now);
      }
    }

    /** A forced reset; when it succeeds, both heights have gone back by one. */
    method ResetRound(now: Time) returns (r: Outcome<()>, ghost working: seq<Participant>, ghost done: seq<Participant>)
      requires Agree()
      modifies this, state, storage
      ensures Agree() && (old(storage.Valid()) ==> storage.Valid())
      ensures storage.height == if r.Ok? then old(storage.height) - 1 else old(storage.height)
      ensures r.Err? ==> Now() == old(Now())
      ensures ResetOrder(old(state.Snapshot()), working, done) && Now() == ForcedReset(state.env, old(Now()), working, done, now)
      ensures old(Valid()) ==> Valid()
    {
      ghost var b, env := Now(), state.env;
      hide InStep, Rostered, Sound, Orderly, ResetOrder, ForcedReset, Level;
      r, working, done := ResetBoth(now);
      ResetKeeps(env, b, working, done, now);
      ghost var b' := ForcedReset(env, b, working, done, now);
      view, log := b'.x.view, b'.x.log;
    }

    method ResetBoth(now: Time) returns (r: Outcome<()>, ghost working: seq<Participant>, ghost done: seq<Participant>)
      requires Agree()
      modifies state, storage
      ensures Agree() && (old(storage.Valid()) ==> storage.Valid())
      ensures storage.height == if r.Ok? then old(storage.height) - 1 else old(storage.height)
      ensures r.Err? ==> state.Snapshot() == old(state.Snapshot()) && storage.Value() == old(storage.Value())
      ensures ResetOrder(old(state.Snapshot()), working, done)
        && var b' := ForcedReset(state.env, old(Now()), working, done, now);
        state.Snapshot() == b'.x.s && storage.Value() == b'.t && (r.Err? ==> b' == old(Now()))
    {
      ghost var b, env := Now(), state.env;
      hide Sound, Orderly, Ceremony.ResetCurrentRound, ForcedReset, WithReset;
      var reset;
      reset, working, done := state.ResetCurrentRound(true, now);
      ResetMoves(env, b.x.s, true, working, done, now);
      ResetUnfolds(env, b, working, done, now);
      hide ResetOrder;
      if reset.Err? { return Err(reset.error), working, done; }
      RollbackStore(b.t, env.chunks, reset.value);
      r := storage.ResetRound(reset.value);
    }

    /** Drops a participant from the state, and then from the round in storage. */
    method DropParticipant(p: Participant, now: Time)
      returns (r: Outcome<()>, ghost working: seq<Participant>, ghost done: seq<Participant>)
      requires Agree()
      modifies this, state, storage
      ensures Agree()
      ensures DropOrder(state.env, old(state.Snapshot()), p, working, done, now)
      ensures Now() == TryDrop(state.env, old(Now()), p, working, done, now)
      ensures old(Valid()) && (DropsMember(old(state.Snapshot()), p) ==> state.env.coordinatorContributors == []) ==> Valid()
      ensures storage.height == old(storage.height) || storage.height == old(storage.height) - 1
      ensures r.Err? || state.env.coordinatorContributors != [] ==> storage.height == old(storage.height)
    {
      ghost var b, env := Now(), state.env;
      hide Sound, Ceremony.DropParticipant, DropOrder, StoredDrop, TryDrop, InStep, Rostered, DropsMember;
      var dropped;
      dropped, working, done := state.DropParticipant(p, now);
      DroppedLevel(env, b.x.s, b.t, p, working, done, now);
      DropKeepsStep(env, b, p, working, done, now);
      DropUnfolds(env, b, p, working, done, now);
      hide Level;
      ghost var b' := TryDrop(env, b, p, working, done, now);
      view, log := b'.x.view, b'.x.log;
      if dropped.Err? { return Err(dropped.error), working, done; }
      r := DropFromStorage(p, dropped.value);
    }

    /** What the drop of a participant asks of storage. */
    method DropFromStorage(p: Participant, action: DropAction) returns (r: Outcome<()>)
      modifies storage
      ensures (storage.Value(), r) == StoredDrop(old(storage.Value()), p, action)
    {
      hide WithReset, WithReplacement, ByChunk;
      match action {
        case DropQueue => return Ok(());
        case Replace(_, locked, tasks, replacement) =>
          storage.ReplaceContributor(p, locked, ByChunk(tasks), replacement);
          return Ok(());
        case Reset(removed, rollback) =>
          r := storage.ResetRound(ResetAction(removed, rollback));
      }
    }

    method OpenForWork() returns (r: bool)
      ensures r == Working(state.Snapshot())
    {
      var m := state.metrics;
      var over := state.pendingVerification == map[] && state.current == map[];
      var aggregating := m.Some? && !m.value.aggregated && m.value.startedAggregation.Some? && m.value.finishedAggregation.None?;
      var aggregated := m.Some? && m.value.aggregated && m.value.startedAggregation.Some? && m.value.finishedAggregation.Some?;
      r := !over && !aggregating && !aggregated;
    }
  }

  /** The state is sound, and at the height of a store that has every round up to its own. */
  ghost predicate Level(env: Environment, s: State, t: Store) {
    Sound(env, s) && s.height == Some(t.height) && forall r: nat :: r <= t.height ==> r in t.rounds
  }

  lemma LockRefused(env: Environment, t: Store, c: nat, p: Participant, blank: Bytes)
    ensures !CanLock(env, t, c, p) ==> WithLock(env, t, c, p, blank) == t
  {
  }

  /** A response to the pending task: accepted and completed, or erased. */
  function Answer(env: Environment, hash: Bytes -> Hash, s: State, t: Store, p: Participant, c: nat, signed: bool, task: Task)
    : (State, Store)
  {
    if CanContribute(hash, t, c, p, signed)
    then (CompletedTask(env, s, p, Task(c, |t.rounds[t.height].chunks[c].verified|)).0, WithResponse(hash, t, c, p, signed))
    else (s, Erased(t, Locator(t.height, c, task.contribution, false)))
  }

  lemma ResponseShape(hash: Bytes -> Hash, t: Store, c: nat, p: Participant, signed: bool)
    ensures var t' := WithResponse(hash, t, c, p, signed);
      if CanContribute(hash, t, c, p, signed) then
        && t.HasChunk(c) && t'.HasChunk(c) && t'.height == t.height
        && |t'.rounds[t'.height].chunks[c].verified| == |t.rounds[t.height].chunks[c].verified| + 1
      else t' == t
  {
  }

  lemma ContributeUnfolds(env: Environment, hash: Bytes -> Hash, b: Both, p: Participant, c: nat, signed: bool)
    requires Undisturbed(env, b.x.s)
    ensures var s, b' := b.x.s, Joint.TryContribute(env, hash, b, p, c, signed);
      if c > env.chunks || !IsCurrent(s, p) || !Working(s) || c !in s.current[p].locked
         || |OnChunk(s.current[p].pendingTasks, c)| != 1
      then b' == b
      else (b'.x.s, b'.t) == Answer(env, hash, s, b.t, p, c, signed, OnChunk(s.current[p].pendingTasks, c)[0])
  {
    if p in b.x.s.current {
      OnChunkEmpty(b.x.s.current[p].disposingTasks, c);
    }
    if CanContribute(hash, b.t, c, p, signed) {
      NextComplete(env, b.x, p, Task(c, |b.t.rounds[b.t.height].chunks[c].verified|));
    }
    hide Next, Working, CompletedTask, OnChunk;
  }

  lemma VerifyUnfolds(env: Environment, hash: Bytes -> Hash, b: Both, v: Participant, task: Task, signed: bool)
    ensures var s, t, b' := b.x.s, b.t, Joint.TryVerify(env, hash, b, v, task, signed);
      if v.Contributor? || task.chunk > env.chunks || !Working(s) then b' == b
      else if CanVerify(hash, t, task, v, signed) then
        b'.x.s == CompletedTask(env, s, v, task).0 && b'.t == WithChallenge(hash, t, task, v, signed)
      else
        && b'.x == b.x && WithChallenge(hash, t, task, v, signed) == t
        && b'.t == if t.height in t.rounds
                   then Erased(t, NextChallenge(t.height, task.chunk, task.contribution, |t.rounds[t.height].contributors|))
                   else t
  {
    NextComplete(env, b.x, v, task);
    ChallengeRefused(hash, b.t, task, v, signed);
    hide CanVerify, WithChallenge, Next, CompletedTask;
  }

  lemma ChallengeRefused(hash: Bytes -> Hash, t: Store, task: Task, v: Participant, signed: bool)
    ensures !CanVerify(hash, t, task, v, signed) ==> WithChallenge(hash, t, task, v, signed) == t
  {
  }

  lemma NextRollback(env: Environment, x: Exec, now: Time)
    ensures Next(env, x, RollbackRound(now)) == x.(s := RollbackNextRound(x.s, now))
  {
    hide RollbackNextRound;
  }

  ghost predicate Advances(env: Environment, b: Both, order: seq<Participant>, now: Time, b': Both) {
    ReliabilityOrder(b.x.s.queue, b.x.s.Height() + 1, order) && b' == Joint.TryAdvance(env, b, order, now)
  }

  lemma StepParts(env: Environment, b: Both)
    requires InStep(env, b)
    ensures b.x.s.height.Some? && Orderly(b.t, env.chunks)
  {
    hide Good, Orderly;
  }

  lemma AdvanceKeeps(env: Environment, b: Both, order: seq<Participant>, now: Time)
    requires ReliabilityOrder(b.x.s.queue, b.x.s.Height() + 1, order)
    ensures InStep(env, b) && Rostered(b) ==>
      InStep(env, Joint.TryAdvance(env, b, order, now)) && Rostered(Joint.TryAdvance(env, b, order, now))
  {
    hide InStep, Rostered, Joint.TryAdvance, ReliabilityOrder;
    if InStep(env, b) && Rostered(b) {
      StepParts(env, b);
      AdvanceInStep(env, b, order, now);
      AdvanceRostered(env, b, order, now);
    }
  }

  lemma ResetKeeps(env: Environment, b: Both, working: seq<Participant>, done: seq<Participant>, now: Time)
    requires ResetOrder(b.x.s, working, done)
    ensures InStep(env, b) && Rostered(b) ==>
      InStep(env, ForcedReset(env, b, working, done, now)) && Rostered(ForcedReset(env, b, working, done, now))
  {
    hide InStep, Rostered, ForcedReset, ResetOrder;
    if InStep(env, b) && Rostered(b) {
      StepParts(env, b);
      ResetInStep(env, b, working, done, now);
      ResetRostered(env, b, working, done, now);
    }
  }

  /** The aggregation of a round that has started: recorded in both places, or taken back. */
  function Combines(env: Environment, s: State, t: Store, succeeds: bool, now: Time): (State, Store) {
    if t.height == 0 then (AggregatedCurrentRound(env, s, now).0, t)
    else
      var t' := WithAggregate(t, succeeds);
      if t.height in t'.aggregated then (AggregatedCurrentRound(env, s, now).0, t')
      else (RollbackAggregatingCurrentRound(s).0, t')
  }

  lemma KeepsHeight(t: Store, succeeds: bool)
    ensures WithAggregate(t, succeeds).height == t.height
  {
  }

  lemma AggregateUnfolds(env: Environment, b: Both, succeeds: bool, now: Time)
    requires b.x.s.height == Some(b.t.height)
    ensures var s, b' := b.x.s, Joint.TryAggregate(env, b, succeeds, now);
      var (s1, r) := AggregatingCurrentRound(s, now);
      && b'.x.view == b.x.view && b'.x.log == b.x.log && (r.Err? ==> s1 == s) && s1.height == s.height
      && if !s.IsRoundFinished() || s.IsRoundAggregated() || r.Err? then b' == b
         else (b'.x.s, b'.t) == Combines(env, s1, b.t, succeeds, now)
  {
    hide Next, WithAggregate, AggregatedCurrentRound, RollbackAggregatingCurrentRound, AggregatingCurrentRound;
    var x1 := Next(env, b.x, StartAggregation(now));
    NextAggregation(env, b.x, now);
    NextAggregation(env, x1, now);
    StartKeeps(b.x.s, now);
  }

  lemma StartKeeps(s: State, now: Time)
    ensures var (s', r) := AggregatingCurrentRound(s, now); s'.height == s.height && (r.Err? ==> s' == s)
  {
  }

  lemma NextAggregation(env: Environment, x: Exec, now: Time)
    ensures Next(env, x, StartAggregation(now)) == x.(s := AggregatingCurrentRound(x.s, now).0)
    ensures Next(env, x, EndAggregation(now)) == x.(s := AggregatedCurrentRound(env, x.s, now).0)
    ensures Next(env, x, CancelAggregation) == x.(s := RollbackAggregatingCurrentRound(x.s).0)
  {
    hide AggregatingCurrentRound, AggregatedCurrentRound, RollbackAggregatingCurrentRound;
  }

  /** The precommitted round opens in both places, or is rolled back. */
  function Opens(env: Environment, s: State, t: Store, chosen: Outcome<seq<Participant>>, now: Time): (State, Store) {
    if chosen.Ok? && CanOpen(env, t, chosen.value) then (CommitNextRound(s), WithNextRound(env, t, chosen.value))
    else (RollbackNextRound(s, now), t)
  }

  lemma OpensLevel(env: Environment, s: State, t: Store, chosen: Outcome<seq<Participant>>, now: Time)
    requires Level(env, s, t) && (chosen.Ok? ==> s.status == Precommit)
    ensures Sound(env, s)
    ensures var (s', t') := Opens(env, s, t, chosen, now);
      && Level(env, s', t') && (Orderly(t, env.chunks) ==> Orderly(t', env.chunks))
      && t'.height == if chosen.Ok? && CanOpen(env, t, chosen.value) then t.height + 1 else t.height
    ensures chosen.Ok? && !CanOpen(env, t, chosen.value) ==> WithNextRound(env, t, chosen.value) == t
  {
    hide Sound, CanOpen, WithNextRound, CommitNextRound, RollbackNextRound, Orderly;
    EitherSound(env, s, now);
    RollbackKeepsHeight(s, now);
    if chosen.Ok? {
      OpenStore(env, t, chosen.value);
      if Orderly(t, env.chunks) { AdvanceOrderly(env, t, chosen.value); }
      CommitRaises(s);
    }
  }

  lemma EitherSound(env: Environment, s: State, now: Time)
    requires Sound(env, s)
    ensures Sound(env, CommitNextRound(s)) && Sound(env, RollbackNextRound(s, now))
  {
    QueueSound(env, s, RollbackRound(now));
    CommitSound(env, s);
    hide Sound;
  }

  lemma RollbackKeepsHeight(s: State, now: Time)
    ensures RollbackNextRound(s, now).height == s.height
  {
    hide Requeued;
  }

  /** What advancing does, told by the operations on the state and on the store. */
  lemma AdvanceUnfolds(env: Environment, b: Both, order: seq<Participant>, now: Time)
    requires ReliabilityOrder(b.x.s.queue, b.t.height + 1, order)
    requires b.x.s.height == Some(b.t.height) && b.x.s.IsRoundFinished() && (b.t.height > 0 ==> b.x.s.IsRoundAggregated())
    ensures var b', (s1, r) := Joint.TryAdvance(env, b, order, now), PrecommitNextRound(env, b.x.s, b.t.height + 1, order, now);
      && s1.height == b.x.s.height && (r.Ok? ==> s1.status == Precommit)
      && (b'.x.s, b'.t) == Opens(env, s1, b.t, r, now)
  {
    hide Next, PrecommitNextRound, CanOpen, CommitNextRound, RollbackNextRound, WithNextRound, ReliabilityOrder;
    var s, height := b.x.s, b.t.height + 1;
    NextPrecommit(env, b.x, height, order, now);
    var x1 := Next(env, b.x, PrecommitRound(height, order, now));
    NextRollback(env, x1, now);
    PrecommitKeeps(env, s, height, order, now);
    if PrecommitNextRound(env, s, height, order, now).1.Ok? {
      NextCommit(env, x1);
    }
  }

  lemma PrecommitKeeps(env: Environment, s: State, height: nat, order: seq<Participant>, now: Time)
    requires ReliabilityOrder(s.queue, height, order)
    ensures var (s', r) := PrecommitNextRound(env, s, height, order, now);
      s'.height == s.height && (r.Ok? ==> r.value == order && s'.status == Precommit)
  {
    hide Stage, PrecommitGuard, ReliabilityOrder;
  }

  /** What opening a round does to the heights. */
  lemma OpenStore(env: Environment, t: Store, contributors: seq<Participant>)
    ensures var t' := WithNextRound(env, t, contributors);
      if CanOpen(env, t, contributors)
      then t'.height == t.height + 1 && forall r :: r in t'.rounds <==> r in t.rounds || r == t.height + 1
      else t' == t
  {
    hide CanOpen;
  }

  lemma CommitRaises(s: State)
    requires s.status == Precommit && s.height.Some?
    ensures CommitNextRound(s).height == Some(s.height.value + 1)
  {
    hide Contributors;
  }

  lemma ResetUnfolds(env: Environment, b: Both, working: seq<Participant>, done: seq<Participant>, now: Time)
    requires ResetOrder(b.x.s, working, done)
    ensures var (s', r) := ResetCurrentRound(env, b.x.s, true, working, done, now);
      if r.Ok? then
        var b' := ForcedReset(env, b, working, done, now);
        b'.x.s == s' && b'.t == WithReset(b.t, r.value).0
      else ForcedReset(env, b, working, done, now) == b
  {
    if ResetCurrentRound(env, b.x.s, true, working, done, now).1.Ok? {
      NextReset(env, b.x, working, done, now);
    }
    hide ResetCurrentRound, ResetOrder, WithReset, Next;
  }

  /** What a reset does to the stored height. */
  lemma ResetStore(t: Store, action: ResetAction)
    requires 0 < t.height && forall r: nat :: r <= t.height ==> r in t.rounds
    ensures var (t', r) := WithReset(t, action);
      && r.Ok? && t'.height == (if action.rollback then t.height - 1 else t.height)
      && forall q: nat :: q <= t'.height ==> q in t'.rounds
  {
  }

  lemma RollbackStore(t: Store, chunks: nat, action: ResetAction)
    requires 0 < t.height && (forall r: nat :: r <= t.height ==> r in t.rounds) && action.rollback
    ensures var (t', r) := WithReset(t, action);
      && r.Ok? && t'.height == t.height - 1
      && (forall q: nat :: q <= t'.height ==> q in t'.rounds) && (Orderly(t, chunks) ==> Orderly(t', chunks))
  {
    hide Orderly, WithReset;
    ResetStore(t, action);
    if Orderly(t, chunks) {
      ResetOrderly(t, chunks, action);
    }
  }

  lemma ReplaceStore(t: Store, dropped: Participant, locked: set<nat>, lost: map<nat, nat>, replacement: Participant)
    ensures var t' := WithReplacement(t, dropped, locked, lost, replacement);
      t'.height == t.height && t'.rounds.Keys == t.rounds.Keys
  {
  }

  /** A successful reset takes the height down exactly when it says so. */
  lemma ResetMoves(env: Environment, s: State, force: bool, working: seq<Participant>, done: seq<Participant>, now: Time)
    requires ResetOrder(s, working, done) && s.height.Some?
    ensures var (s', r) := Ceremony.ResetCurrentRound(env, s, force, working, done, now);
      && (r.Err? ==> s' == s)
      && (r.Ok? ==> 0 < s.height.value && (force ==> r.value.rollback)
                    && s'.height == if r.value.rollback then Some(s.height.value - 1) else s.height)
  {
    hide Ceremony.Restart, Members, ResetOrder, Requeued;
  }

  lemma DropUnfolds(env: Environment, b: Both, p: Participant, working: seq<Participant>, done: seq<Participant>, now: Time)
    requires DropOrder(env, b.x.s, p, working, done, now)
    ensures var (s', r), b' := Ceremony.DropParticipant(env, b.x.s, p, working, done, now), TryDrop(env, b, p, working, done, now);
      b'.x.s == s' && b'.t == if r.Err? then b.t else StoredDrop(b.t, p, r.value).0
  {
    NextDrop(env, b.x, p, working, done, now);
    hide DropNext, Ceremony.DropParticipant, DropOrder, DropsMember, StoredDrop;
  }

  lemma DropKeepsStep(env: Environment, b: Both, p: Participant, working: seq<Participant>, done: seq<Participant>, now: Time)
    requires DropOrder(env, b.x.s, p, working, done, now)
    ensures InStep(env, b) && Rostered(b) && (DropsMember(b.x.s, p) ==> env.coordinatorContributors == []) ==>
      InStep(env, TryDrop(env, b, p, working, done, now)) && Rostered(TryDrop(env, b, p, working, done, now))
  {
    hide InStep, Rostered, DropOrder, DropsMember, TryDrop;
    if InStep(env, b) && Rostered(b) && (DropsMember(b.x.s, p) ==> env.coordinatorContributors == []) {
      DismissInStep(env, b, p, working, done, now);
      DismissRostered(env, b, p, working, done, now);
    }
  }

  /** A drop keeps both heights equal; they go back by one at most, and not where there are replacements. */
  lemma DroppedLevel(env: Environment, s: State, t: Store, p: Participant, working: seq<Participant>, done: seq<Participant>,
                     now: Time)
    requires Level(env, s, t) && DropOrder(env, s, p, working, done, now)
    requires Sound(env, Ceremony.DropParticipant(env, s, p, working, done, now).0)
    ensures var (s', r) := Ceremony.DropParticipant(env, s, p, working, done, now);
      var t' := if r.Err? then t else StoredDrop(t, p, r.value).0;
      && Level(env, s', t') && (t'.height == t.height || t'.height == t.height - 1)
      && (env.coordinatorContributors != [] ==> t'.height == t.height)
    ensures var r := Ceremony.DropParticipant(env, s, p, working, done, now).1;
      r.Ok? ==> StoredDrop(t, p, r.value).1.Ok?
  {
    hide Sound, Ceremony.DropParticipant, DropOrder, StoredDrop;
    DropMoves(env, s, p, working, done, now);
    var r := Ceremony.DropParticipant(env, s, p, working, done, now).1;
    if r.Ok? {
      StoredDropMoves(t, p, r.value);
    }
  }

  lemma StoredDropMoves(t: Store, p: Participant, action: DropAction)
    requires forall r: nat :: r <= t.height ==> r in t.rounds
    requires action.Reset? ==> 0 < t.height
    ensures var (t', r) := StoredDrop(t, p, action);
      && r.Ok? && t'.height == (if action.Reset? && action.rollback then t.height - 1 else t.height)
      && forall q: nat :: q <= t'.height ==> q in t'.rounds
  {
    hide WithReset, WithReplacement, ByChunk;
    match action
    case DropQueue =>
    case Replace(_, locked, tasks, replacement) => ReplaceStore(t, p, locked, ByChunk(tasks), replacement);
    case Reset(removed, rollback) => ResetStore(t, ResetAction(removed, rollback));
  }

  /** How a drop may move the height. */
  ghost predicate HeightAfterDrop(env: Environment, s: State, s': State, r: Outcome<DropAction>)
    requires s.height.Some?
  {
    && (r.Err? ==> s'.height == s.height)
    && (r.Ok? && r.value.Reset? ==>
          && env.coordinatorContributors == [] && 0 < s.height.value
          && s'.height == if r.value.rollback then Some(s.height.value - 1) else s.height)
    && (r.Ok? && !r.value.Reset? ==> s'.height == s.height)
  }

  lemma DropMoves(env: Environment, s: State, p: Participant, working: seq<Participant>, done: seq<Participant>, now: Time)
    requires Sound(env, s) && DropOrder(env, s, p, working, done, now)
    ensures var (s', r) := Ceremony.DropParticipant(env, s, p, working, done, now); HeightAfterDrop(env, s, s', r)
  {
    assert s.status != Initializing && s.height.Some? && BucketsKnown(env, s.current, s.metrics.value.contributors);
    hide Sound, BucketsKnown;
    if !InQueue(s, p) && DropGuard(s, p).Ok? {
      DropMemberMoves(env, s, p, working, done, now);
    }
    hide DropGuard, AfterDrop, Ceremony.ResetCurrentRound, AddReplacement;
  }

  lemma DropMemberMoves(env: Environment, s: State, p: Participant, working: seq<Participant>, done: seq<Participant>, now: Time)
    requires s.height.Some? && s.status != Initializing && DropOrder(env, s, p, working, done, now)
    requires !InQueue(s, p) && DropGuard(s, p).Ok?
    ensures var (s', r) := Ceremony.DropParticipant(env, s, p, working, done, now); HeightAfterDrop(env, s, s', r)
  {
    var s1 := AfterDrop(env, s, p, now);
    assert s1.height == s.height;
    hide AfterDrop, DropGuard, BucketsKnown, Ceremony.ResetCurrentRound, Extended;
    if env.coordinatorContributors == [] {
      ResetMoves(env, s1, false, working, done, now);
      hide DropOrder;
    } else {
      hide DropOrder;
    }
  }
}
