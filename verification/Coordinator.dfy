/**
  The coordinator state as the program keeps it: one object whose operations update its maps
  and lists in place, looping over hash maps in an order of their own choice. Every operation is
  proved to do what the value-level operation of the same name says, and to keep the state sound.
 */
module Coordinator {
  import opened Wrappers
  import opened Tasks
  import opened Lists
  import opened Participants
  import opened Ceremony
  import opened Rounds
  import opened Queueing

  /** The keys of a set in the arbitrary order a hash table yields them. */
  method Listing(keys: set<Participant>) returns (order: seq<Participant>)
    ensures Enumerates(order, keys)
  {
    order := [];
    var rest := keys;
    while rest != {}
      invariant rest <= keys
      invariant Enumerates(order, keys - rest)
    {
      var p :| p in rest;
      order := order + [p];
      rest := rest - {p};
    }
  }

  /** Ascending by `rank`. */
  ghost predicate Ascending(order: seq<Participant>, rank: map<Participant, int>) {
    && (forall p :: p in order ==> p in rank)
    && forall i, j :: 0 <= i < j < |order| ==> rank[order[i]] <= rank[order[j]]
  }

  method Insert(order: seq<Participant>, p: Participant, rank: map<Participant, int>) returns (r: seq<Participant>)
    requires Ascending(order, rank) && Distinct(order) && p in rank && p !in order
    ensures Ascending(r, rank) && Distinct(r)
    ensures forall q :: q in r <==> q in order || q == p
  {
    var i := |order|;
    while i > 0 && rank[p] < rank[order[i - 1]]
      invariant 0 <= i <= |order|
      invariant forall j :: i <= j < |order| ==> rank[p] < rank[order[j]]
    {
      i := i - 1;
    }
    r := order[..i] + [p] + order[i..];
    hide Ascending, Distinct;
  }

  method Sorted(keys: seq<Participant>, rank: map<Participant, int>) returns (order: seq<Participant>)
    requires Distinct(keys) && forall p :: p in keys ==> p in rank
    ensures Ascending(order, rank) && Distinct(order)
    ensures forall q :: q in order <==> q in keys
  {
    order := [];
    for k := 0 to |keys|
      invariant Ascending(order, rank) && Distinct(order)
      invariant forall q :: q in order <==> q in keys[..k]
    {
      order := Insert(order, keys[k], rank);
      assert keys[..k + 1] == keys[..k] + [keys[k]];
    }
    assert keys[..|keys|] == keys;
  }

  /** The entries of a map whose keys have been visited. */
  ghost function Part<V>(m: map<Participant, V>, keys: seq<Participant>): map<Participant, V> {
    map p | p in keys && p in m :: m[p]
  }

  lemma PartStep<V>(m: map<Participant, V>, keys: seq<Participant>, k: nat)
    requires k < |keys|
    ensures Part(m, keys[..k + 1]) ==
      if keys[k] in m then Part(m, keys[..k])[keys[k] := m[keys[k]]] else Part(m, keys[..k])
  {
    assert keys[..k + 1] == keys[..k] + [keys[k]];
  }

  /** A map overlaid with the visited entries of another. */
  ghost function Overlay<V>(base: map<Participant, V>, m: map<Participant, V>, keys: seq<Participant>): map<Participant, V> {
    base + Part(m, keys)
  }

  lemma OverlayNone<V>(base: map<Participant, V>, m: map<Participant, V>, keys: seq<Participant>)
    ensures Overlay(base, m, keys[..0]) == base
  {
  }

  lemma OverlayStep<V>(base: map<Participant, V>, m: map<Participant, V>, keys: seq<Participant>, k: nat)
    requires k < |keys|
    ensures Overlay(base, m, keys[..k + 1]) ==
      if keys[k] in m then Overlay(base, m, keys[..k])[keys[k] := m[keys[k]]] else Overlay(base, m, keys[..k])
  {
    PartStep(m, keys, k);
    hide Part;
  }

  lemma OverlayAll<V>(base: map<Participant, V>, m: map<Participant, V>, keys: seq<Participant>)
    requires forall p :: p in m ==> p in keys
    ensures Overlay(base, m, keys[..|keys|]) == base + m
  {
    assert keys[..|keys|] == keys;
    PartAll(m, keys);
  }

  lemma PartAll<V>(m: map<Participant, V>, keys: seq<Participant>)
    requires forall p :: p in m ==> p in keys
    ensures Part(m, keys) == m
  {
  }

  method SplitFinished(ghost s: State, current: Roster, now: Time) returns (working: Roster, done: Roster)
    requires s.current == current
    ensures working == StillWorking(s, now) && done == NewlyFinished(s, now)
  {
    var keys := Listing(current.Keys);
    working, done := map[], map[];
    for k := 0 to |keys|
      invariant working == Part(StillWorking(s, now), keys[..k])
      invariant done == Part(NewlyFinished(s, now), keys[..k])
    {
      var p := keys[k];
      PartStep(StillWorking(s, now), keys, k);
      PartStep(NewlyFinished(s, now), keys, k);
      if !current[p].IsFinished() {
        match current[p].Finish(now) {
          case Err(_) => working := working[p := current[p]];
          case Ok(info) => done := done[p := info];
        }
      }
    }
    assert keys[..|keys|] == keys;
    PartAll(StillWorking(s, now), keys);
    PartAll(NewlyFinished(s, now), keys);
  }

  method ByJoinTime(ghost s: State, queue: map<Participant, QueueEntry>) returns (order: seq<Participant>)
    requires s.queue == queue
    ensures QueueOrder(s, order)
  {
    var keys := Listing(queue.Keys);
    var rank := map p | p in queue :: queue[p].joined;
    order := Sorted(keys, rank);
  }

  /** Walks down the line in blocks of the maximum size, one round per block. */
  method AssignRounds(env: Environment, ghost s: State, queue: map<Participant, QueueEntry>, line: seq<Participant>, first: nat)
    returns (updated: map<Participant, QueueEntry>)
    requires s.queue == queue && s.height.Some? && first == s.height.value + 1
    requires 0 < env.maximumContributors && Distinct(line) && forall p :: p in line ==> p in queue
    ensures updated == UpdatedQueue(env, s, line)
  {
    ghost var all := UpdatedQueue(env, s, line);
    hide Part;
    PartNone(all, line);
    updated := map[];
    for k := 0 to |line|
      invariant updated == Part(all, line[..k])
    {
      PartStep(all, line, k);
      updated := updated[line[k] := queue[line[k]].(round := Some(first + k / env.maximumContributors))];
    }
    assert line[..|line|] == line;
    PartAll(all, line);
  }

  method ByReliability(queue: map<Participant, QueueEntry>, height: nat) returns (order: seq<Participant>)
    ensures ReliabilityOrder(queue, height, order)
  {
    var keys := Listing(AssignedTo(queue, height));
    var rank: map<Participant, int> := map p | p in queue :: 0 - queue[p].reliability;
    order := Sorted(keys, rank);
  }

  lemma {:induction false} StageFails(env: Environment, s: State, order: seq<Participant>, height: nat, now: Time, k: nat, m: nat)
    requires k <= m <= |order| && forall p :: p in order ==> p in s.queue
    requires Stage(env, s, order, height, now, k).Err?
    ensures Stage(env, s, order, height, now, m) == Stage(env, s, order, height, now, k)
  {
    if k < m {
      StageFails(env, s, order, height, now, k, m - 1);
    }
  }

  /** Gives the members their buckets and tasks in the given order, taking each out of the queue. */
  method StageMembers(env: Environment, ghost s: State, queue: map<Participant, QueueEntry>, order: seq<Participant>,
                      height: nat, now: Time)
    returns (r: Outcome<Roster>, left: map<Participant, QueueEntry>)
    requires s.queue == queue && forall p :: p in order ==> p in queue
    ensures r == Stage(env, s, order, height, now, |order|)
    ensures r.Ok? ==> left == queue - r.value.Keys
  {
    var staged: Roster;
    staged, left := map[], queue;
    for k := 0 to |order|
      invariant Stage(env, s, order, height, now, k) == Ok(staged)
      invariant left == queue - staged.Keys
    {
      var p := order[k];
      var one := StageMember(env, p, queue[p].reliability, height, k, |order|, now);
      match one {
        case Err(e) =>
          StageFails(env, s, order, height, now, k + 1, |order|);
          return Err(e), left;
        case Ok(info) =>
          staged, left := staged[p := info], left - {p};
      }
    }
    r := Ok(staged);
  }

  method StageMember(env: Environment, p: Participant, reliability: nat, height: nat, bucket: nat, n: nat, now: Time)
    returns (r: Outcome<ParticipantInfo>)
    ensures r == StageOne(env, p, reliability, height, bucket, n, now)
  {
    var list := InitializeTasks(bucket, env.chunks, n);
    if list.TaskErr? { return Err(TaskInitializationFailed(list.error)); }
    r := NewInfo(p, height, reliability, bucket).Start(list.tasks, now);
    if r.Ok? && r.value.assignedTasks == [] { return Err(ParticipantNotReady); }
  }

  lemma PartSize<V>(m: map<Participant, V>, keys: seq<Participant>, k: nat)
    requires k < |keys| && Distinct(keys)
    ensures |Part(m, keys[..k + 1])| == |Part(m, keys[..k])| + if keys[k] in m then 1 else 0
  {
    PartStep(m, keys, k);
    if keys[k] in m {
      assert keys[k] !in Part(m, keys[..k]);
      assert Part(m, keys[..k + 1]).Keys == Part(m, keys[..k]).Keys + {keys[k]};
    }
  }

  /** Moves the staged contributors into the round and counts them. */
  method Join(current: Roster, next: Roster) returns (joined: Roster, count: nat)
    ensures joined == current + Contributors(next) && count == |Contributors(next)|
  {
    hide Part, Overlay;
    ghost var joining := Contributors(next);
    var keys := Listing(next.Keys);
    OverlayNone(current, joining, keys);
    PartNone(joining, keys);
    joined, count := current, 0;
    for k := 0 to |keys|
      invariant joined == Overlay(current, joining, keys[..k])
      invariant count == |Part(joining, keys[..k])|
    {
      OverlayStep(current, joining, keys, k);
      PartSize(joining, keys, k);
      if keys[k].Contributor? {
        joined, count := joined[keys[k] := next[keys[k]]], count + 1;
      }
    }
    OverlayAll(current, joining, keys);
    assert keys[..|keys|] == keys;
    PartAll(joining, keys);
  }

  lemma PartNone<V>(m: map<Participant, V>, keys: seq<Participant>)
    ensures Part(m, keys[..0]) == map[]
  {
  }

  method BackInQueue(queue: map<Participant, QueueEntry>, roster: Roster, now: Time) returns (r: map<Participant, QueueEntry>)
    ensures r == queue + Requeued(roster, now)
  {
    hide Part, Overlay;
    ghost var back := Requeued(roster, now);
    var keys := Listing(roster.Keys);
    OverlayNone(queue, back, keys);
    r := queue;
    for k := 0 to |keys|
      invariant r == Overlay(queue, back, keys[..k])
    {
      OverlayStep(queue, back, keys, k);
      var info := roster[keys[k]];
      r := r[keys[k] := QueueEntry(info.reliability, Some(info.roundHeight), now, now)];
    }
    OverlayAll(queue, back, keys);
  }

  lemma {:induction false} RestartFails(env: Environment, keys: seq<Participant>, members: seq<ParticipantInfo>, now: Time,
                                        k: nat, m: nat)
    requires k <= m <= |members| == |keys|
    requires Restart(env, keys, members, now, k).Err?
    ensures Restart(env, keys, members, now, m) == Restart(env, keys, members, now, k)
  {
    if k < m {
      RestartFails(env, keys, members, now, k, m - 1);
    }
  }

  method RestartMembers(env: Environment, keys: seq<Participant>, members: seq<ParticipantInfo>, now: Time)
    returns (r: Outcome<Roster>)
    requires |keys| == |members|
    ensures r == Restart(env, keys, members, now, |members|)
  {
    var restarted: Roster := map[];
    for k := 0 to |members|
      invariant Restart(env, keys, members, now, k) == Ok(restarted)
    {
      var list := InitializeTasks(k, env.chunks, |members|);
      if list.TaskErr? {
        RestartFails(env, keys, members, now, k + 1, |members|);
        return Err(TaskInitializationFailed(list.error));
      }
      match members[k].RestartTasks(list.tasks, now) {
        case Err(e) =>
          RestartFails(env, keys, members, now, k + 1, |members|);
          return Err(e);
        case Ok(info) =>
          restarted := restarted[keys[k] := info];
      }
    }
    r := Ok(restarted);
  }

  /** The first candidate with the smallest load. */
  method FindLeastLoaded(current: Roster, candidates: seq<Participant>) returns (best: Participant)
    requires candidates != []
    ensures best == LeastLoaded(current, candidates)
  {
    hide Load;
    best := candidates[0];
    assert candidates[..1] == [candidates[0]];
    for k := 1 to |candidates|
      invariant best == LeastLoaded(current, candidates[..k])
    {
      assert candidates[..k + 1][..k] == candidates[..k] && candidates[..k + 1][k] == candidates[k];
      if Load(current, candidates[k]) < Load(current, best) {
        best := candidates[k];
      }
    }
    assert candidates[..|candidates|] == candidates;
  }

  ghost function AllAffected(env: Environment, s: State, lost: map<nat, nat>, n: nat): Roster
    requires BucketsKnown(env, s.current, n)
  {
    map q | q in s.current :: Affected(env, lost, n, s.current[q])
  }

  /** Disposes the work built on the lost tasks and refills the task list of one record. */
  method ReassignRecord(env: Environment, before: ParticipantInfo, lost: map<nat, nat>, n: nat) returns (info: ParticipantInfo)
    requires TaskList(before.bucket, env.chunks, n).TaskOk?
    ensures info == Affected(env, lost, n, before)
  {
    info := before.(disposingTasks := Filter(before.pendingTasks, (t: Task) => t.chunk in lost),
                    pendingTasks := Filter(before.pendingTasks, (t: Task) => t.chunk !in lost));
    info := info.(completedTasks := Filter(before.completedTasks, (t: Task) => !BuiltOn(lost, t)),
                  disposedTasks := before.disposedTasks + Filter(before.completedTasks, (t: Task) => BuiltOn(lost, t)));
    var list := InitializeTasks(info.bucket, env.chunks, n);
    info := Reassigned(list.tasks, info);
  }

  method ReassignTasks(env: Environment, ghost s: State, current: Roster, lost: map<nat, nat>, n: nat) returns (r: Roster)
    requires s.current == current && BucketsKnown(env, current, n)
    ensures r == AllAffected(env, s, lost, n)
  {
    ghost var all := AllAffected(env, s, lost, n);
    assert forall q :: q in current ==> q in all && all[q] == Affected(env, lost, n, current[q]);
    hide Part, Overlay, Affected, TaskList, AllAffected;
    var keys := Listing(current.Keys);
    OverlayNone(current, all, keys);
    r := current;
    for k := 0 to |keys|
      invariant r == Overlay(current, all, keys[..k])
    {
      OverlayStep(current, all, keys, k);
      var info := ReassignRecord(env, current[keys[k]], lost, n);
      r := r[keys[k] := info];
    }
    OverlayAll(current, all, keys);
    AllReplaced(env, s, lost, n);
  }

  lemma AllReplaced(env: Environment, s: State, lost: map<nat, nat>, n: nat)
    requires BucketsKnown(env, s.current, n)
    ensures AllAffected(env, s, lost, n).Keys == s.current.Keys
    ensures s.current + AllAffected(env, s, lost, n) == AllAffected(env, s, lost, n)
  {
    hide Affected;
    assert AllAffected(env, s, lost, n).Keys == s.current.Keys;
  }

  class CoordinatorState {
    const env: Environment
    var status: Status
    var queue: map<Participant, QueueEntry>
    var next: Roster
    var metrics: Option<Metrics>
    var height: Option<nat>
    var current: Roster
    var pendingVerification: map<Task, Participant>
    var finished: map<nat, Roster>
    var dropped: seq<ParticipantInfo>
    var banned: set<Participant>

    ghost function Snapshot(): State
      reads this
    {
      State(status, queue, next, metrics, height, current, pendingVerification, finished, dropped, banned)
    }

    ghost predicate Valid()
      reads this
    {
      Sound(env, Snapshot())
    }

    constructor (env: Environment, height: nat)
      requires env.Valid()
      ensures Valid() && this.env == env && Snapshot() == Initialize(NEW_STATE, height)
    {
      this.env := env;
      this.status := Initialized;
      this.queue, this.next, this.current := map[], map[], map[];
      this.metrics, this.height := Some(NEW_METRICS), Some(height);
      this.pendingVerification, this.finished := map[], map[height := map[]];
      this.dropped, this.banned := [], {};
      new;
      InitialSound(env, height);
    }

    method AddToQueue(p: Participant, reliability: nat, now: Time) returns (r: Outcome<()>)
      requires Valid()
      modifies this
      ensures Valid() && (Snapshot(), r) == Ceremony.AddToQueue(env, old(Snapshot()), p, reliability, now)
    {
      StepSound(env, Snapshot(), Enqueue(p, reliability, now));
      if p in banned { return Err(ParticipantBanned); }
      if p in queue || p in next { return Err(ParticipantAlreadyAdded); }
      if p.Verifier? { return Err(ExpectedContributor); }
      if !env.allowCurrentInQueue && p in current { return Err(ParticipantInCurrentRoundCannotJoinQueue); }
      queue := queue[p := QueueEntry(reliability, None, now, now)];
      return Ok(());
    }

    method RemoveFromQueue(p: Participant) returns (r: Outcome<()>)
      requires Valid()
      modifies this
      ensures Valid() && (Snapshot(), r) == Ceremony.RemoveFromQueue(old(Snapshot()), p)
    {
      StepSound(env, Snapshot(), Dequeue(p));
      if p in next { return Err(ParticipantAlreadyPrecommitted); }
      if p !in queue { return Err(ParticipantMissing); }
      queue := queue - {p};
      return Ok(());
    }

    /** Sorts the queue by time of joining and hands out rounds in blocks of the maximum size. */
    method UpdateQueue() returns (ghost order: seq<Participant>)
      requires Valid() && 0 < env.maximumContributors
      modifies this
      ensures QueueOrder(old(Snapshot()), order)
      ensures Valid() && Snapshot() == Rounds.UpdateQueue(env, old(Snapshot()), order)
    {
      ghost var s := Snapshot();
      var sorted := ByJoinTime(s, queue);
      order := sorted;
      StepSound(env, s, Requeue(order));
      EligibleInQueue(s, sorted);
      var outlawed := banned;
      var line := Filter(sorted, (p: Participant) => p.Contributor? && p !in outlawed);
      LineDistinct(s, order);
      queue := AssignRounds(env, s, queue, line, height.value + 1);
    }

    method FetchTask(p: Participant) returns (r: Outcome<Task>)
      requires Valid()
      modifies this
      ensures Valid() && (Snapshot(), r) == Ceremony.FetchTask(env, old(Snapshot()), p)
    {
      StepSound(env, Snapshot(), Fetch(p));
      if p.Verifier? { return Err(ExpectedContributor); }
      if p !in current { return Err(ParticipantNotFound(p)); }
      if |current[p].locked| >= env.lockLimit { return Err(ParticipantHasLockedMaximumChunks); }
      match current[p].PopTask()
      case Err(e) => return Err(e);
      case Ok((info, task)) =>
        current := current[p := info];
        return Ok(task);
    }

    method AcquiredLock(p: Participant, chunk: nat) returns (r: Outcome<()>)
      requires Valid()
      modifies this
      ensures Valid() && (Snapshot(), r) == Ceremony.AcquiredLock(env, old(Snapshot()), p, chunk)
    {
      StepSound(env, Snapshot(), Lock(p, chunk));
      if chunk > env.chunks { return Err(ChunkIdInvalid); }
      if p.Verifier? { return Err(ExpectedContributor); }
      if p !in current { return Err(ParticipantNotFound(p)); }
      match current[p].AcquiredLock(chunk)
      case Err(e) => return Err(e);
      case Ok(info) =>
        current := current[p := info];
        return Ok(());
    }

    method RollbackPendingTask(p: Participant, task: Task) returns (r: Outcome<()>)
      requires Valid()
      modifies this
      ensures Valid() && (Snapshot(), r) == Ceremony.RollbackPendingTask(env, old(Snapshot()), p, task)
    {
      StepSound(env, Snapshot(), Unfetch(p, task));
      if task.chunk > env.chunks { return Err(ChunkIdInvalid); }
      if p !in current { return Err(ParticipantNotFound(p)); }
      var (info, outcome) := current[p].RollbackPendingTask(task);
      current := current[p := info];
      return outcome;
    }

    method RollbackLockedTask(p: Participant, task: Task) returns (r: Outcome<()>)
      requires Valid()
      modifies this
      ensures Valid() && (Snapshot(), r) == Ceremony.RollbackLockedTask(env, old(Snapshot()), p, task)
    {
      StepSound(env, Snapshot(), Unlock(p, task));
      if task.chunk > env.chunks { return Err(ChunkIdInvalid); }
      if p !in current { return Err(ParticipantNotFound(p)); }
      var (info, outcome) := current[p].RollbackLockedTask(task);
      current := current[p := info];
      return outcome;
    }

    method DisposedTask(p: Participant, task: Task) returns (r: Outcome<()>)
      requires Valid()
      modifies this
      ensures Valid() && (Snapshot(), r) == Ceremony.DisposedTask(env, old(Snapshot()), p, task)
    {
      StepSound(env, Snapshot(), Dispose(p, task));
      if task.chunk > env.chunks { return Err(ChunkIdInvalid); }
      if p !in current { return Err(ParticipantNotFound(p)); }
      match current[p].DisposeTask(task)
      case Err(e) => return Err(e);
      case Ok(info) =>
        current := current[p := info];
        return Ok(());
    }

    /** The participant's record changes first; it stays changed if the verification cannot be queued. */
    method CompletedTask(p: Participant, task: Task) returns (r: Outcome<()>)
      requires Valid()
      modifies this
      ensures Valid() && (Snapshot(), r) == Ceremony.CompletedTask(env, old(Snapshot()), p, task)
    {
      CompleteSound(env, Snapshot(), p, task);
      hide Sound;
      if task.chunk > env.chunks { return Err(ChunkIdInvalid); }
      if p.Verifier? {
        if task !in pendingVerification { return Err(ChunkIdMissing); }
        pendingVerification := pendingVerification - {task};
        return Ok(());
      }
      if p !in current { return Err(ParticipantNotFound(p)); }
      match current[p].CompletedTask(task) {
        case Err(e) => return Err(e);
        case Ok(info) => current := current[p := info];
      }
      if task in pendingVerification { return Err(ChunkIdAlreadyAdded); }
      if env.coordinatorVerifiers == [] { return Err(VerifierMissing); }
      pendingVerification := pendingVerification[task := env.coordinatorVerifiers[0]];
      return Ok(());
    }

    method UpdateCurrentContributors(now: Time) returns (r: Outcome<()>)
      requires Valid()
      modifies this
      ensures Valid() && (Snapshot(), r) == Ceremony.UpdateCurrentContributors(old(Snapshot()), now)
    {
      MarkSound(env, Snapshot(), now);
      assert height.Some?;
      hide Sound, StillWorking, NewlyFinished;
      var before := |current|;
      var working, done := SplitFinished(Snapshot(), current, now);
      current := working;
      if before != |current| + |done| { return Err(RoundUpdateCorruptedStateOfContributors); }
      if height.value !in finished { return Err(RoundCommitFailedOrCorrupted); }
      finished := finished[height.value := finished[height.value] + done];
      return Ok(());
    }

    /** The checks before a precommit, in the order they are made. */
    method CheckPrecommit(members: seq<Participant>, round: nat, now: Time) returns (r: Outcome<()>)
      requires Valid() && ReliabilityOrder(queue, round, members)
      ensures r == PrecommitGuard(env, Snapshot(), round, now)
    {
      EnumerationSize(members, AssignedTo(queue, round));
      SomeoneBanned(members, AssignedTo(queue, round), banned);
      hide AssignedTo, ReliabilityOrder, Staged, Listed, BucketsKnown;
      if status == Precommit { return Err(NextRoundAlreadyInPrecommit); }
      if round != height.value + 1 { return Err(RoundHeightMismatch); }
      if queue == map[] { return Err(QueueIsEmpty); }
      if next != map[] { return Err(NextRoundShouldBeEmpty); }
      if pendingVerification != map[] || current != map[] { return Err(RoundNotComplete); }
      if height.value > 0
         && !(metrics.value.aggregated && metrics.value.startedAggregation.Some? && metrics.value.finishedAggregation.Some?)
      { return Err(RoundNotAggregated); }
      if metrics.value.nextRoundAfter.Some? && now < metrics.value.nextRoundAfter.value { return Err(QueueWaitTimeIncomplete); }
      if exists p :: p in members && p in banned { return Err(ParticipantUnauthorized); }
      if |members| < env.minimumContributors || |members| > env.maximumContributors {
        return Err(RoundNumberOfContributorsUnauthorized);
      }
      return Ok(());
    }

    /** Stages the next round, if it may start; on any refusal nothing changes. */
    method PrecommitNextRound(round: nat, now: Time) returns (r: Outcome<seq<Participant>>, ghost order: seq<Participant>)
      requires Valid()
      modifies this
      ensures ReliabilityOrder(old(Snapshot()).queue, round, order)
      ensures Valid() && (Snapshot(), r) == Ceremony.PrecommitNextRound(env, old(Snapshot()), round, order, now)
    {
      hide Sound, PrecommitGuard, ReliabilityOrder, Stage, Ceremony.PrecommitNextRound;
      var members := ByReliability(queue, round);
      order := members;
      ghost var s := Snapshot();
      PrecommitIs(env, s, round, order, now);
      var checked := CheckPrecommit(members, round, now);
      if checked.Err? { return Err(checked.error), order; }
      var staged, left := StageMembers(env, Snapshot(), queue, members, round, now);
      if staged.Err? { return Err(staged.error), order; }
      queue, next, status := left, staged.value, Precommit;
      assert Snapshot() == s.(queue := left, next := staged.value, status := Precommit);
      return Ok(members), order;
    }

    method CommitNextRound()
      requires Valid()
      modifies this
      ensures Valid() && Snapshot() == Ceremony.CommitNextRound(old(Snapshot()))
    {
      ghost var s := Snapshot();
      CommitSound(env, s);
      assert s.height.Some?;
      hide Sound, Contributors;
      if status != Precommit { return; }
      var round := height.value + 1;
      height, status := Some(round), Commit;
      var joined, count := Join(current, next);
      current := joined;
      metrics := Some(NEW_METRICS.(contributors := count));
      finished := finished[round := map[]];
      next := map[];
      assert Snapshot() == s.(height := Some(round), status := Commit, current := joined,
                              metrics := Some(NEW_METRICS.(contributors := count)),
                              finished := s.finished[round := map[]], next := map[]);
    }

    method RollbackNextRound(now: Time)
      modifies this
      ensures old(Valid()) ==> Valid()
      ensures Snapshot() == Ceremony.RollbackNextRound(old(Snapshot()), now)
    {
      ghost var s := Snapshot();
      if Sound(env, s) { QueueSound(env, s, RollbackRound(now)); }
      hide Sound, Requeued;
      if status != Precommit { return; }
      var back := BackInQueue(queue, next, now);
      status, queue, next := Rollback, back, map[];
      assert Snapshot() == s.(status := Rollback, queue := back, next := map[]);
    }

    /** Everyone in the round, with their records, in the order the maps yield them. */
    method RoundMembers() returns (working: seq<Participant>, done: seq<Participant>, members: seq<ParticipantInfo>)
      requires Valid()
      ensures ResetOrder(Snapshot(), working, done) && members == Members(Snapshot(), working, done)
    {
      hide Staged, Listed, BucketsKnown;
      var over := finished[height.value];
      working := Listing(current.Keys);
      done := Listing(over.Keys);
      var here := current;
      members := seq(|working| + |done|, i requires 0 <= i < |working| + |done| =>
        if i < |working| then
          assert working[i] in working; here[working[i]]
        else
          assert done[i - |working|] in done; over[done[i - |working|]]);
    }

    method RollBack(restarted: Roster, now: Time)
      requires height.Some? && 0 < height.value
      modifies this
      ensures Snapshot() == RolledBack(env, old(Snapshot()), restarted, now)
    {
      var back := BackInQueue(queue, restarted, now);
      back := BackInQueue(back, next, now);
      assert back == queue + Requeued(restarted, now) + Requeued(next, now);
      hide Requeued;
      var round := height.value - 1;
      var over := Some(Metrics(0, true, Some(now), Some(now), Some(now + env.queueWaitTime)));
      queue, metrics, height := back, over, Some(round);
      next, current, pendingVerification, dropped := map[], map[], map[], [];
      finished, status := map[round := map[]], Initialized;
      assert Snapshot() == State(Initialized, back, map[], over, Some(round), map[], map[], map[round := map[]], [], banned);
    }

    method RunAgain(restarted: Roster)
      requires height.Some?
      modifies this
      ensures Snapshot() == Rerun(old(Snapshot()), restarted)
    {
      metrics, current := Some(NEW_METRICS), restarted;
      next, pendingVerification := map[], map[];
      finished, status := map[height.value := map[]], Initialized;
    }

    method ResetCurrentRound(force: bool, now: Time)
      returns (r: Outcome<ResetAction>, ghost working: seq<Participant>, ghost done: seq<Participant>)
      requires Valid()
      modifies this
      ensures ResetOrder(old(Snapshot()), working, done)
      ensures Valid() && (Snapshot(), r) == Ceremony.ResetCurrentRound(env, old(Snapshot()), force, working, done, now)
    {
      ghost var s := Snapshot();
      var first, second, members := RoundMembers();
      working, done := first, second;
      var keys := first + second;
      ResetSound(env, s, force, working, done, now);
      assert s.height.Some?;
      hide Sound, Restart, Members, ResetOrder, RolledBack, Rerun;
      if height.value == 0 { return Err(RoundHeightIsZero), working, done; }
      var restarted := RestartMembers(env, keys, members, now);
      if restarted.Err? { return Err(restarted.error), working, done; }
      if force || |members| == 0 {
        RollBack(restarted.value, now);
        return Ok(ResetAction(keys, true)), working, done;
      }
      RunAgain(restarted.value);
      return Ok(ResetAction([], false)), working, done;
    }

    method AddReplacement(bucket: nat, now: Time) returns (r: Outcome<Participant>)
      requires height.Some?
      modifies this
      ensures (Snapshot(), r) == Ceremony.AddReplacement(env, old(Snapshot()), bucket, now)
    {
      if env.coordinatorContributors == [] { return Err(CoordinatorContributorMissing); }
      var p := FindLeastLoaded(current, env.coordinatorContributors);
      if metrics.None? { return Err(CoordinatorStateNotInitialized); }
      var list := InitializeTasks(bucket, env.chunks, metrics.value.contributors);
      if list.TaskErr? { return Err(TaskInitializationFailed(list.error)); }
      match NewInfo(p, height.value, 10, bucket).Start(list.tasks, now) {
        case Err(e) => return Err(e);
        case Ok(info) => current := current[p := info];
      }
      return Ok(p);
    }

    /** Takes the contributor out of the round and has everyone else redo what was built on its work. */
    method TakeOut(p: Participant, now: Time)
      requires DropGuard(Snapshot(), p).Ok? && BucketsKnown(env, current, metrics.value.contributors)
      modifies this
      ensures Snapshot() == AfterDrop(env, old(Snapshot()), p, now)
    {
      var info := current[p];
      var lost := ByChunk(info.completedTasks);
      var rest := ReassignTasks(env, Snapshot(), current, lost, metrics.value.contributors);
      AfterDropIs(env, Snapshot(), p, now, rest);
      hide AfterDrop, ByChunk;
      current, dropped := rest - {p}, dropped + [info.(droppedAt := Some(now))];
    }

    method DropParticipant(p: Participant, now: Time)
      returns (r: Outcome<DropAction>, ghost working: seq<Participant>, ghost done: seq<Participant>)
      requires Valid()
      modifies this
      ensures DropOrder(env, old(Snapshot()), p, working, done, now)
      ensures Valid() && (Snapshot(), r) == Ceremony.DropParticipant(env, old(Snapshot()), p, working, done, now)
    {
      ghost var s := Snapshot();
      working, done := [], [];
      if p in queue || p in next {
        DropSound(env, s, p, working, done, now);
        DropQueued(p, now);
        return Ok(DropQueue), working, done;
      }
      if p !in current || p.Verifier? {
        DropSound(env, s, p, working, done, now);
        return Err(ParticipantNotFound(p)), working, done;
      }
      var info := current[p];
      if info.IsDropped() || (!info.IsFinished() && info.droppedAt.Some?) {
        DropSound(env, s, p, working, done, now);
        return Err(ParticipantAlreadyDropped), working, done;
      }
      if info.IsFinished() || info.finishedAt.Some? {
        DropSound(env, s, p, working, done, now);
        return Err(ParticipantAlreadyFinished), working, done;
      }
      AfterDropSound(env, s, p, now);
      TakeOut(p, now);
      if env.coordinatorContributors != [] {
        DropSound(env, s, p, working, done, now);
        var replaced := AddReplacement(info.bucket, now);
        if replaced.Err? { return Err(replaced.error), working, done; }
        return Ok(Replace(info.bucket, info.locked, info.completedTasks, replaced.value)), working, done;
      }
      var reset;
      reset, working, done := ResetCurrentRound(false, now);
      if reset.Err? { return Err(reset.error), working, done; }
      return Ok(Reset(Extended([p], reset.value.removed), reset.value.rollback)), working, done;
    }

    method BanParticipant(p: Participant, now: Time)
      returns (r: Outcome<DropAction>, ghost working: seq<Participant>, ghost done: seq<Participant>)
      requires Valid()
      modifies this
      ensures p !in old(banned) ==>
        && DropOrder(env, old(Snapshot()), p, working, done, now)
        && (Snapshot(), r) == Ceremony.BanParticipant(env, old(Snapshot()), p, working, done, now)
      ensures p in old(banned) ==> r == Err(ParticipantAlreadyBanned) && Snapshot() == old(Snapshot())
      ensures Valid()
    {
      hide Sound, Ceremony.DropParticipant, DropOrder;
      if p in banned { return Err(ParticipantAlreadyBanned), [], []; }
      r, working, done := DropParticipant(p, now);
      if r.Err? { return; }
      if r.value.DropQueue? { return Err(JustificationInvalid), working, done; }
      BannedSound(env, Snapshot(), banned + {p});
      banned := banned + {p};
    }

    method UnbanParticipant(p: Participant)
      requires Valid()
      modifies this
      ensures Valid() && Snapshot() == Ceremony.UnbanParticipant(old(Snapshot()), p)
    {
      hide Sound;
      BannedSound(env, Snapshot(), banned - {p});
      banned := banned - {p};
    }

    method DropQueued(p: Participant, now: Time)
      modifies this
      ensures Snapshot() == DropFromQueue(old(Snapshot()), p, now)
    {
      queue := queue - {p};
      if p in next {
        next := next - {p};
        RollbackNextRound(now);
      }
    }

    method AggregatingCurrentRound(now: Time) returns (r: Outcome<()>)
      requires Valid()
      modifies this
      ensures Valid() && (Snapshot(), r) == Ceremony.AggregatingCurrentRound(old(Snapshot()), now)
    {
      AggregationSound(env, Snapshot(), now);
      assert metrics.Some?;
      hide Sound;
      if metrics.value.startedAggregation.Some? { return Err(RoundAggregationFailed); }
      if metrics.value.aggregated || metrics.value.finishedAggregation.Some? { return Err(RoundAlreadyAggregated); }
      metrics := Some(metrics.value.(startedAggregation := Some(now)));
      return Ok(());
    }

    method AggregatedCurrentRound(now: Time) returns (r: Outcome<()>)
      requires Valid()
      modifies this
      ensures Valid() && (Snapshot(), r) == Ceremony.AggregatedCurrentRound(env, old(Snapshot()), now)
    {
      ghost var s := Snapshot();
      AggregatedIs(env, s, now);
      assert metrics.Some?;
      hide Sound, Ceremony.AggregatedCurrentRound, Aggregated;
      if metrics.value.startedAggregation.None? { return Err(RoundAggregationFailed); }
      if metrics.value.aggregated || metrics.value.finishedAggregation.Some? { return Err(RoundAlreadyAggregated); }
      var m := Finish(metrics.value, now);
      metrics := Some(m);
      return Ok(());
    }

    /** The end mark, and the time from which the next round may start unless it is set already. */
    method Finish(before: Metrics, now: Time) returns (m: Metrics)
      ensures m == Aggregated(env, before, now)
    {
      m := before.(aggregated := true, finishedAggregation := Some(now));
      if m.nextRoundAfter.None? {
        m := m.(nextRoundAfter := Some(now + env.queueWaitTime));
      }
    }

    method RollbackAggregatingCurrentRound() returns (r: Outcome<()>)
      requires Valid()
      modifies this
      ensures Valid() && (Snapshot(), r) == Ceremony.RollbackAggregatingCurrentRound(old(Snapshot()))
    {
      AggregationSound(env, Snapshot(), 0);
      assert metrics.Some?;
      hide Sound;
      if metrics.value.aggregated || metrics.value.finishedAggregation.Some? { return Err(RoundAlreadyAggregated); }
      metrics := Some(metrics.value.(startedAggregation := None));
      return Ok(());
    }
  }

  lemma AggregatedIs(env: Environment, s: State, now: Time)
    requires Sound(env, s)
    ensures Sound(env, Ceremony.AggregatedCurrentRound(env, s, now).0)
    ensures var m := s.metrics.value;
      Ceremony.AggregatedCurrentRound(env, s, now) ==
      if m.startedAggregation.None? then (s, Err(RoundAggregationFailed))
      else if m.aggregated || m.finishedAggregation.Some? then (s, Err(RoundAlreadyAggregated))
      else (s.(metrics := Some(Aggregated(env, m, now))), Ok(()))
  {
    AggregationSound(env, s, now);
    assert s.metrics.Some?;
    hide Sound, Aggregated;
  }

  lemma AfterDropIs(env: Environment, s: State, p: Participant, now: Time, rest: Roster)
    requires DropGuard(s, p).Ok? && BucketsKnown(env, s.current, s.metrics.value.contributors)
    requires rest == AllAffected(env, s, ByChunk(s.current[p].completedTasks), s.metrics.value.contributors)
    ensures AfterDrop(env, s, p, now) ==
      s.(current := rest - {p}, dropped := s.dropped + [s.current[p].(droppedAt := Some(now))])
  {
    hide ByChunk, Affected;
    assert AfterDrop(env, s, p, now).current == rest - {p};
  }

  lemma PrecommitIs(env: Environment, s: State, round: nat, order: seq<Participant>, now: Time)
    requires ReliabilityOrder(s.queue, round, order)
    ensures forall p :: p in order ==> p in s.queue
    ensures Sound(env, s) ==> Sound(env, Ceremony.PrecommitNextRound(env, s, round, order, now).0)
    ensures var guard, staged := PrecommitGuard(env, s, round, now), Stage(env, s, order, round, now, |order|);
      Ceremony.PrecommitNextRound(env, s, round, order, now) ==
      if guard.Err? then (s, Err(guard.error))
      else if staged.Err? then (s, Err(staged.error))
      else (s.(queue := s.queue - staged.value.Keys, next := staged.value, status := Precommit), Ok(order))
  {
    if Sound(env, s) {
      PrecommitSound(env, s, PrecommitRound(round, order, now));
    }
    hide PrecommitGuard, Stage, Sound;
  }

  lemma SomeoneBanned(members: seq<Participant>, all: set<Participant>, banned: set<Participant>)
    requires Enumerates(members, all)
    ensures (exists p :: p in members && p in banned) <==> all * banned != {}
  {
    if all * banned != {} {
      var p :| p in all * banned;
      assert p in members && p in banned;
    }
    if p :| p in members && p in banned {
      assert p in all * banned;
    }
  }

  lemma LineDistinct(s: State, order: seq<Participant>)
    requires QueueOrder(s, order)
    ensures Distinct(Eligible(s, order))
  {
    LineOrdered(s, order);
  }
}
