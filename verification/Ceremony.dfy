/**
  The ceremony state and the meaning of every operation on it.

  Each operation maps a state to the state it leaves behind together with its outcome; an
  operation that fails after changing something leaves the changed state, as the program does.
  Where the program iterates over a hash map, the iteration order is an argument.
 */
module Ceremony {
  import opened Wrappers
  import opened Tasks
  import opened Lists
  import opened Participants

  datatype Environment = Environment(
    chunks: nat,
    lockLimit: nat,
    coordinatorContributors: seq<Participant>,
    coordinatorVerifiers: seq<Participant>,
    minimumContributors: nat,
    maximumContributors: nat,
    allowCurrentInQueue: bool,
    queueWaitTime: nat)
  {
    /** What the builder of an environment enforces. */
    predicate Valid() {
      && (forall p :: p in coordinatorContributors ==> p.Contributor?)
      && (forall p :: p in coordinatorVerifiers ==> p.Verifier?)
    }
  }

  datatype Status = Initializing | Initialized | Precommit | Commit | Rollback

  datatype QueueEntry = QueueEntry(reliability: nat, round: Option<nat>, lastSeen: Time, joined: Time)

  datatype Metrics = Metrics(
    contributors: nat,
    aggregated: bool,
    startedAggregation: Option<Time>,
    finishedAggregation: Option<Time>,
    nextRoundAfter: Option<Time>)

  const NEW_METRICS := Metrics(0, false, None, None, None)

  type Roster = map<Participant, ParticipantInfo>

  datatype State = State(
    status: Status,
    queue: map<Participant, QueueEntry>,
    next: Roster,
    metrics: Option<Metrics>,
    height: Option<nat>,
    current: Roster,
    pendingVerification: map<Task, Participant>,
    finished: map<nat, Roster>,
    dropped: seq<ParticipantInfo>,
    banned: set<Participant>)
  {
    function Height(): nat { if height.Some? then height.value else 0 }

    /** Contributors that have finished the current round. */
    function Finished(): Roster {
      if Height() in finished then finished[Height()] else map[]
    }

    predicate IsRoundFinished() { pendingVerification == map[] && current == map[] }

    predicate IsRoundAggregated() {
      metrics.Some? && metrics.value.aggregated && metrics.value.startedAggregation.Some?
      && metrics.value.finishedAggregation.Some?
    }
  }

  const NEW_STATE := State(Initializing, map[], map[], None, None, map[], map[], map[], [], {})

  function Initialize(s: State, height: nat): State {
    s.(height := if s.height.None? then Some(height) else s.height,
       metrics := if s.metrics.None? then Some(NEW_METRICS) else s.metrics,
       finished := if height in s.finished then s.finished else s.finished[height := map[]],
       status := Initialized)
  }

  // ----- the queue

  function AddToQueue(env: Environment, s: State, p: Participant, reliability: nat, now: Time): (State, Outcome<()>) {
    if p in s.banned then (s, Err(ParticipantBanned))
    else if p in s.queue || p in s.next then (s, Err(ParticipantAlreadyAdded))
    else if p.Verifier? then (s, Err(ExpectedContributor))
    else if !env.allowCurrentInQueue && p in s.current then (s, Err(ParticipantInCurrentRoundCannotJoinQueue))
    else (s.(queue := s.queue[p := QueueEntry(reliability, None, now, now)]), Ok(()))
  }

  function RemoveFromQueue(s: State, p: Participant): (State, Outcome<()>) {
    if p in s.next then (s, Err(ParticipantAlreadyPrecommitted))
    else if p !in s.queue then (s, Err(ParticipantMissing))
    else (s.(queue := s.queue - {p}), Ok(()))
  }

  /** `order` lists the queue by time of joining, in one of the ways a sort may return it. */
  ghost predicate QueueOrder(s: State, order: seq<Participant>) {
    && Enumerates(order, s.queue.Keys)
    && forall i, j :: 0 <= i < j < |order| ==> s.queue[order[i]].joined <= s.queue[order[j]].joined
  }

  /** The queue members that stay: contributors that are not banned. */
  function Eligible(s: State, order: seq<Participant>): seq<Participant> {
    Filter(order, (p: Participant) => p.Contributor? && p !in s.banned)
  }

  /** Position k in the line is assigned round k / maximum after the next one. */
  ghost function UpdatedQueue(env: Environment, s: State, line: seq<Participant>): map<Participant, QueueEntry>
    requires s.height.Some? && 0 < env.maximumContributors
    requires forall p :: p in line ==> p in s.queue
  {
    map p | p in line ::
      s.queue[p].(round := Some(s.height.value + 1 + Position(line, p) / env.maximumContributors))
  }

  ghost function Position<T>(line: seq<T>, x: T): (i: nat)
    requires x in line
    ensures i < |line| && line[i] == x && x !in line[..i]
  {
    if line[0] == x then 0 else 1 + Position(line[1..], x)
  }

  // ----- tasks of the current round

  function WithInfo(s: State, p: Participant, info: ParticipantInfo): State {
    s.(current := s.current[p := info])
  }

  function FetchTask(env: Environment, s: State, p: Participant): (State, Outcome<Task>) {
    if p.Verifier? then (s, Err(ExpectedContributor))
    else if p !in s.current then (s, Err(ParticipantNotFound(p)))
    else if |s.current[p].locked| >= env.lockLimit then (s, Err(ParticipantHasLockedMaximumChunks))
    else match s.current[p].PopTask()
      case Err(e) => (s, Err(e))
      case Ok((info, task)) => (WithInfo(s, p, info), Ok(task))
  }

  function AcquiredLock(env: Environment, s: State, p: Participant, chunk: nat): (State, Outcome<()>) {
    if chunk > env.chunks then (s, Err(ChunkIdInvalid))
    else if p.Verifier? then (s, Err(ExpectedContributor))
    else if p !in s.current then (s, Err(ParticipantNotFound(p)))
    else match s.current[p].AcquiredLock(chunk)
      case Err(e) => (s, Err(e))
      case Ok(info) => (WithInfo(s, p, info), Ok(()))
  }

  function RollbackPendingTask(env: Environment, s: State, p: Participant, task: Task): (State, Outcome<()>) {
    if task.chunk > env.chunks then (s, Err(ChunkIdInvalid))
    else if p !in s.current then (s, Err(ParticipantNotFound(p)))
    else
      var (info, r) := s.current[p].RollbackPendingTask(task);
      (WithInfo(s, p, info), r)
  }

  function RollbackLockedTask(env: Environment, s: State, p: Participant, task: Task): (State, Outcome<()>) {
    if task.chunk > env.chunks then (s, Err(ChunkIdInvalid))
    else if p !in s.current then (s, Err(ParticipantNotFound(p)))
    else
      var (info, r) := s.current[p].RollbackLockedTask(task);
      (WithInfo(s, p, info), r)
  }

  function DisposedTask(env: Environment, s: State, p: Participant, task: Task): (State, Outcome<()>) {
    if task.chunk > env.chunks then (s, Err(ChunkIdInvalid))
    else if p !in s.current then (s, Err(ParticipantNotFound(p)))
    else match s.current[p].DisposeTask(task)
      case Err(e) => (s, Err(e))
      case Ok(info) => (WithInfo(s, p, info), Ok(()))
  }

  function AddPendingVerification(env: Environment, s: State, task: Task): (State, Outcome<()>) {
    if task.chunk > env.chunks then (s, Err(ChunkIdInvalid))
    else if task in s.pendingVerification then (s, Err(ChunkIdAlreadyAdded))
    else if env.coordinatorVerifiers == [] then (s, Err(VerifierMissing))
    else (s.(pendingVerification := s.pendingVerification[task := env.coordinatorVerifiers[0]]), Ok(()))
  }

  function RemovePendingVerification(env: Environment, s: State, task: Task): (State, Outcome<()>) {
    if task.chunk > env.chunks then (s, Err(ChunkIdInvalid))
    else if task !in s.pendingVerification then (s, Err(ChunkIdMissing))
    else (s.(pendingVerification := s.pendingVerification - {task}), Ok(()))
  }

  /** A contributor's completion waits for verification; a verifier's completion ends the wait. */
  function CompletedTask(env: Environment, s: State, p: Participant, task: Task): (State, Outcome<()>) {
    if task.chunk > env.chunks then (s, Err(ChunkIdInvalid))
    else if p.Verifier? then RemovePendingVerification(env, s, task)
    else if p !in s.current then (s, Err(ParticipantNotFound(p)))
    else match s.current[p].CompletedTask(task)
      case Err(e) => (s, Err(e))
      case Ok(info) => AddPendingVerification(env, WithInfo(s, p, info), task)
  }

  /** Contributors that can be marked finished now, so marked. */
  function NewlyFinished(s: State, now: Time): Roster {
    map p | p in s.current && !s.current[p].IsFinished() && s.current[p].Finish(now).Ok? ::
      s.current[p].Finish(now).value
  }

  function StillWorking(s: State, now: Time): Roster {
    map p | p in s.current && !s.current[p].IsFinished() && s.current[p].Finish(now).Err? :: s.current[p]
  }

  function UpdateCurrentContributors(s: State, now: Time): (State, Outcome<()>) {
    if s.height.None? then (s, Err(RoundHeightNotSet))
    else
      var working, done := StillWorking(s, now), NewlyFinished(s, now);
      var s' := s.(current := working);
      if |s.current| != |working| + |done| then (s', Err(RoundUpdateCorruptedStateOfContributors))
      else if s.height.value !in s.finished then (s', Err(RoundCommitFailedOrCorrupted))
      else (s'.(finished := s.finished[s.height.value := s.finished[s.height.value] + done]), Ok(()))
  }

  // ----- aggregation of the current round

  function AggregatingCurrentRound(s: State, now: Time): (State, Outcome<()>) {
    if s.metrics.None? then (s, Err(CoordinatorStateNotInitialized))
    else if s.metrics.value.startedAggregation.Some? then (s, Err(RoundAggregationFailed))
    else if s.metrics.value.aggregated || s.metrics.value.finishedAggregation.Some? then (s, Err(RoundAlreadyAggregated))
    else (s.(metrics := Some(s.metrics.value.(startedAggregation := Some(now)))), Ok(()))
  }

  function AggregatedCurrentRound(env: Environment, s: State, now: Time): (State, Outcome<()>) {
    if s.metrics.None? then (s, Err(CoordinatorStateNotInitialized))
    else if s.metrics.value.startedAggregation.None? then (s, Err(RoundAggregationFailed))
    else if s.metrics.value.aggregated || s.metrics.value.finishedAggregation.Some? then (s, Err(RoundAlreadyAggregated))
    else (s.(metrics := Some(Aggregated(env, s.metrics.value, now))), Ok(()))
  }

  function Aggregated(env: Environment, m: Metrics, now: Time): Metrics {
    m.(aggregated := true, finishedAggregation := Some(now),
       nextRoundAfter := if m.nextRoundAfter.None? then Some(now + env.queueWaitTime) else m.nextRoundAfter)
  }

  function RollbackAggregatingCurrentRound(s: State): (State, Outcome<()>) {
    if s.metrics.None? then (s, Err(CoordinatorStateNotInitialized))
    else if s.metrics.value.aggregated || s.metrics.value.finishedAggregation.Some? then (s, Err(RoundAlreadyAggregated))
    else (s.(metrics := Some(s.metrics.value.(startedAggregation := None))), Ok(()))
  }

  // ----- transition to the next round

  /** Queue members assigned to round `height`. */
  function AssignedTo(queue: map<Participant, QueueEntry>, height: nat): set<Participant> {
    set p | p in queue && p.Contributor? && (if queue[p].round.Some? then queue[p].round.value else 0) == height
  }

  /** `order` lists the members of round `height` from the most to the least reliable. */
  ghost predicate ReliabilityOrder(queue: map<Participant, QueueEntry>, height: nat, order: seq<Participant>) {
    && Enumerates(order, AssignedTo(queue, height))
    && (forall p :: p in order ==> p in queue)
    && forall i, j :: 0 <= i < j < |order| ==> queue[order[i]].reliability >= queue[order[j]].reliability
  }

  function StageOne(env: Environment, p: Participant, reliability: nat, height: nat, bucket: nat, n: nat, now: Time)
    : Outcome<ParticipantInfo>
  {
    match TaskList(bucket, env.chunks, n)
    case TaskErr(e) => Err(TaskInitializationFailed(e))
    case TaskOk(tasks) =>
      match NewInfo(p, height, reliability, bucket).Start(tasks, now)
      case Err(e) => Err(e)
      case Ok(info) => if info.assignedTasks == [] then Err(ParticipantNotReady) else Ok(info)
  }

  /** The first `k` members of `order`, staged for the next round with bucket ids in that order. */
  function Stage(env: Environment, s: State, order: seq<Participant>, height: nat, now: Time, k: nat): Outcome<Roster>
    requires k <= |order| && forall p :: p in order ==> p in s.queue
  {
    if k == 0 then Ok(map[])
    else match Stage(env, s, order, height, now, k - 1)
      case Err(e) => Err(e)
      case Ok(staged) =>
        var p := order[k - 1];
        match StageOne(env, p, s.queue[p].reliability, height, k - 1, |order|, now)
        case Err(e) => Err(e)
        case Ok(info) => Ok(staged[p := info])
  }

  /** The refusals of a precommit, in the order they are checked. */
  ghost function PrecommitGuard(env: Environment, s: State, height: nat, now: Time): Outcome<()> {
    if s.status == Initializing then Err(CoordinatorStateNotInitialized)
    else if s.status == Precommit then Err(NextRoundAlreadyInPrecommit)
    else if s.height.None? then Err(RoundHeightNotSet)
    else if height != s.height.value + 1 then Err(RoundHeightMismatch)
    else if s.queue == map[] then Err(QueueIsEmpty)
    else if s.next != map[] then Err(NextRoundShouldBeEmpty)
    else if !s.IsRoundFinished() then Err(RoundNotComplete)
    else if s.Height() > 0 && !s.IsRoundAggregated() then Err(RoundNotAggregated)
    else if s.metrics.Some? && s.metrics.value.nextRoundAfter.Some? && now < s.metrics.value.nextRoundAfter.value
    then Err(QueueWaitTimeIncomplete)
    else
      var members := AssignedTo(s.queue, height);
      if members * s.banned != {} then Err(ParticipantUnauthorized)
      else if |members| < env.minimumContributors || |members| > env.maximumContributors
      then Err(RoundNumberOfContributorsUnauthorized)
      else Ok(())
  }

  ghost function PrecommitNextRound(env: Environment, s: State, height: nat, order: seq<Participant>, now: Time)
    : (State, Outcome<seq<Participant>>)
    requires ReliabilityOrder(s.queue, height, order)
  {
    if PrecommitGuard(env, s, height, now).Err? then (s, Err(PrecommitGuard(env, s, height, now).error))
    else match Stage(env, s, order, height, now, |order|)
      case Err(e) => (s, Err(e))
      case Ok(staged) => (s.(queue := s.queue - staged.Keys, next := staged, status := Precommit), Ok(order))
  }

  function Contributors(roster: Roster): Roster {
    map p | p in roster && p.Contributor? :: roster[p]
  }

  function CommitNextRound(s: State): State {
    if s.status != Precommit || s.height.None? then s
    else
      var height := s.height.value + 1;
      var joining := Contributors(s.next);
      s.(height := Some(height), status := Commit, current := s.current + joining,
         metrics := Some(NEW_METRICS.(contributors := |joining|)),
         finished := s.finished[height := map[]], next := map[])
  }

  /** A roster member returned to the queue, for the round it was meant for. */
  function Requeued(roster: Roster, now: Time): map<Participant, QueueEntry> {
    map p | p in roster :: QueueEntry(roster[p].reliability, Some(roster[p].roundHeight), now, now)
  }

  function RollbackNextRound(s: State, now: Time): State {
    if s.status != Precommit then s
    else s.(status := Rollback, queue := s.queue + Requeued(s.next, now), next := map[])
  }

  // ----- reset of the current round

  /** Everyone in the round, in the order of iteration: `working` then `done`. */
  function Members(s: State, working: seq<Participant>, done: seq<Participant>): seq<ParticipantInfo>
    requires forall p :: p in working ==> p in s.current
    requires forall p :: p in done ==> p in s.Finished()
  {
    seq(|working| + |done|, i requires 0 <= i < |working| + |done| =>
      if i < |working| then s.current[working[i]] else s.Finished()[done[i - |working|]])
  }

  /** The first `k` members, each given the task list of its position and started again. */
  function Restart(env: Environment, keys: seq<Participant>, members: seq<ParticipantInfo>, now: Time, k: nat)
    : Outcome<Roster>
    requires k <= |members| == |keys|
  {
    if k == 0 then Ok(map[])
    else match Restart(env, keys, members, now, k - 1)
      case Err(e) => Err(e)
      case Ok(restarted) =>
        match TaskList(k - 1, env.chunks, |members|)
        case TaskErr(e) => Err(TaskInitializationFailed(e))
        case TaskOk(tasks) =>
          match members[k - 1].RestartTasks(tasks, now)
          case Err(e) => Err(e)
          case Ok(info) => Ok(restarted[keys[k - 1] := info])
  }

  /** Back to the round before, complete and aggregated, with everyone in the queue again. */
  function RolledBack(env: Environment, s: State, restarted: Roster, now: Time): State
    requires s.height.Some? && 0 < s.height.value
  {
    var height := s.height.value - 1;
    var metrics := Metrics(0, true, Some(now), Some(now), Some(now + env.queueWaitTime));
    Initialize(NEW_STATE.(
      metrics := Some(metrics), height := Some(height), banned := s.banned,
      queue := s.queue + Requeued(restarted, now) + Requeued(s.next, now)), height)
  }

  /** The same round from its start, for the members that are left. */
  function Rerun(s: State, restarted: Roster): State
    requires s.height.Some?
  {
    Initialize(NEW_STATE.(current := restarted, queue := s.queue, banned := s.banned, dropped := s.dropped), s.height.value)
  }

  datatype ResetAction = ResetAction(removed: seq<Participant>, rollback: bool)

  ghost predicate ResetOrder(s: State, working: seq<Participant>, done: seq<Participant>) {
    Enumerates(working, s.current.Keys) && Enumerates(done, s.Finished().Keys)
  }

  ghost function ResetCurrentRound(env: Environment, s: State, force: bool,
                                   working: seq<Participant>, done: seq<Participant>, now: Time)
    : (State, Outcome<ResetAction>)
    requires ResetOrder(s, working, done)
  {
    if s.height.None? then (s, Err(RoundDoesNotExist))
    else if s.height.value == 0 then (s, Err(RoundHeightIsZero))
    else
      var keys, members := working + done, Members(s, working, done);
      match Restart(env, keys, members, now, |members|)
      case Err(e) => (s, Err(e))
      case Ok(restarted) =>
        if force || |members| == 0 then
          (RolledBack(env, s, restarted, now), Ok(ResetAction(keys, true)))
        else
          (Rerun(s, restarted), Ok(ResetAction([], false)))
  }

  // ----- dropping a participant

  /** The dropped contributor's completed contribution id for each chunk it worked on. */
  function ByChunk(tasks: seq<Task>): map<nat, nat> {
    if tasks == [] then map[]
    else ByChunk(tasks[..|tasks| - 1])[tasks[|tasks| - 1].chunk := tasks[|tasks| - 1].contribution]
  }

  /** A completed task that was built on a task of the dropped contributor. */
  predicate BuiltOn(lost: map<nat, nat>, t: Task) {
    t.chunk in lost && lost[t.chunk] < t.contribution
  }

  function Keeping(lost: map<nat, nat>, info: ParticipantInfo): ParticipantInfo {
    info.(disposingTasks := Filter(info.pendingTasks, (t: Task) => t.chunk in lost),
          pendingTasks := Filter(info.pendingTasks, (t: Task) => t.chunk !in lost),
          completedTasks := Filter(info.completedTasks, (t: Task) => !BuiltOn(lost, t)),
          disposedTasks := info.disposedTasks + Filter(info.completedTasks, (t: Task) => BuiltOn(lost, t)))
  }

  function Reassigned(tasks: seq<Task>, info: ParticipantInfo): ParticipantInfo {
    info.(assignedTasks := Filter(tasks, (t: Task) =>
            !HasChunk(info.completedTasks, t.chunk) && !HasChunk(info.pendingTasks, t.chunk)))
  }

  /** A contributor after another one was dropped: affected work disposed, its list refilled. */
  function Affected(env: Environment, lost: map<nat, nat>, n: nat, info: ParticipantInfo): ParticipantInfo
    requires TaskList(info.bucket, env.chunks, n).TaskOk?
  {
    Reassigned(TaskList(info.bucket, env.chunks, n).tasks, Keeping(lost, info))
  }

  function Load(current: Roster, p: Participant): nat {
    if p in current then |current[p].pendingTasks| + |current[p].assignedTasks| else 0
  }

  /** The first coordinator contributor with the least load. */
  function LeastLoaded(current: Roster, candidates: seq<Participant>): (p: Participant)
    requires candidates != []
    ensures p in candidates
    ensures forall q :: q in candidates ==> Load(current, p) <= Load(current, q)
  {
    var last := candidates[|candidates| - 1];
    if |candidates| == 1 then last
    else
      var best := LeastLoaded(current, candidates[..|candidates| - 1]);
      assert forall q :: q in candidates ==> q == last || q in candidates[..|candidates| - 1];
      if Load(current, last) < Load(current, best) then last else best
  }

  function AddReplacement(env: Environment, s: State, bucket: nat, now: Time): (State, Outcome<Participant>) {
    if env.coordinatorContributors == [] then (s, Err(CoordinatorContributorMissing))
    else if s.metrics.None? then (s, Err(CoordinatorStateNotInitialized))
    else
      var p := LeastLoaded(s.current, env.coordinatorContributors);
      match TaskList(bucket, env.chunks, s.metrics.value.contributors)
      case TaskErr(e) => (s, Err(TaskInitializationFailed(e)))
      case TaskOk(tasks) =>
        match NewInfo(p, s.Height(), 10, bucket).Start(tasks, now)
        case Err(e) => (s, Err(e))
        case Ok(info) => (WithInfo(s, p, info), Ok(p))
  }

  datatype DropAction =
    | DropQueue
    | Replace(bucket: nat, locked: set<nat>, tasks: seq<Task>, replacement: Participant)
    | Reset(removed: seq<Participant>, rollback: bool)

  /** The refusals before a drop changes anything in the round. */
  function DropGuard(s: State, p: Participant): Outcome<()> {
    if p !in s.current || p.Verifier? then Err(ParticipantNotFound(p))
    else if s.current[p].IsDropped() then Err(ParticipantAlreadyDropped)
    else if s.current[p].IsFinished() then Err(ParticipantAlreadyFinished)
    else if s.current[p].droppedAt.Some? then Err(ParticipantAlreadyDropped)
    else if s.current[p].finishedAt.Some? then Err(ParticipantAlreadyFinished)
    else if s.metrics.None? then Err(CoordinatorStateNotInitialized)
    else Ok(())
  }

  /** Every contributor's bucket has a task list, so the reassignment loop cannot stop midway. */
  ghost predicate BucketsKnown(env: Environment, current: Roster, n: nat) {
    forall p :: p in current ==> TaskList(current[p].bucket, env.chunks, n).TaskOk?
  }

  /** The round without `p`: work built on its tasks disposed, lists refilled. */
  function AfterDrop(env: Environment, s: State, p: Participant, now: Time): State
    requires DropGuard(s, p).Ok? && BucketsKnown(env, s.current, s.metrics.value.contributors)
  {
    var lost := ByChunk(s.current[p].completedTasks);
    s.(current := map q | q in s.current && q != p :: Affected(env, lost, s.metrics.value.contributors, s.current[q]),
       dropped := s.dropped + [s.current[p].(droppedAt := Some(now))])
  }

  function DropFromQueue(s: State, p: Participant, now: Time): State {
    var s1 := s.(queue := s.queue - {p});
    if p in s1.next then RollbackNextRound(s1.(next := s1.next - {p}), now) else s1
  }

  ghost predicate InQueue(s: State, p: Participant) { p in s.queue || p in s.next }

  /** The iteration order a drop needs: that of a reset, when nobody can replace the dropped. */
  ghost predicate DropOrder(env: Environment, s: State, p: Participant, working: seq<Participant>,
                            done: seq<Participant>, now: Time)
  {
    s.status != Initializing && !InQueue(s, p) && DropGuard(s, p).Ok? ==>
      && BucketsKnown(env, s.current, s.metrics.value.contributors)
      && (env.coordinatorContributors == [] ==> ResetOrder(AfterDrop(env, s, p, now), working, done))
  }

  /** `list` followed by the elements of `more` it does not have yet. */
  function Extended(list: seq<Participant>, more: seq<Participant>): seq<Participant>
    decreases more
  {
    if more == [] then list
    else Extended(if more[0] in list then list else list + [more[0]], more[1..])
  }

  ghost function DropParticipant(env: Environment, s: State, p: Participant,
                                 working: seq<Participant>, done: seq<Participant>, now: Time)
    : (State, Outcome<DropAction>)
    requires DropOrder(env, s, p, working, done, now)
  {
    if s.status == Initializing then (s, Err(CoordinatorStateNotInitialized))
    else if InQueue(s, p) then (DropFromQueue(s, p, now), Ok(DropQueue))
    else if DropGuard(s, p).Err? then (s, Err(DropGuard(s, p).error))
    else
      var info, s1 := s.current[p], AfterDrop(env, s, p, now);
      if env.coordinatorContributors == [] then
        match ResetCurrentRound(env, s1, false, working, done, now)
        case (s2, Err(e)) => (s2, Err(e))
        case (s2, Ok(reset)) =>
          (s2, Ok(Reset(Extended([p], reset.removed), reset.rollback)))
      else
        match AddReplacement(env, s1, info.bucket, now)
        case (s2, Err(e)) => (s2, Err(e))
        case (s2, Ok(q)) => (s2, Ok(Replace(info.bucket, info.locked, info.completedTasks, q)))
  }

  // ----- bans

  /** A ban drops a member of the round and excludes it; anyone else is dropped from the queue but not banned. */
  ghost function BanParticipant(env: Environment, s: State, p: Participant,
                                working: seq<Participant>, done: seq<Participant>, now: Time)
    : (State, Outcome<DropAction>)
    requires DropOrder(env, s, p, working, done, now)
  {
    if p in s.banned then (s, Err(ParticipantAlreadyBanned))
    else match DropParticipant(env, s, p, working, done, now)
      case (s1, Err(e)) => (s1, Err(e))
      case (s1, Ok(action)) =>
        if action.DropQueue? then (s1, Err(JustificationInvalid))
        else (s1.(banned := s1.banned + {p}), Ok(action))
  }

  function UnbanParticipant(s: State, p: Participant): State {
    s.(banned := s.banned - {p})
  }
}
