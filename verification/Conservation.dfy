/**
  Conservation of work over whole runs: through locks, rollbacks, completions, drops,
  replacements and resets, the members of a round together hold every (chunk, contribution)
  task exactly once; and a finished round is a fully contributed and verified round.
 */
module Conservation {
  import opened Wrappers
  import opened Tasks
  import opened Lists
  import opened Participants
  import opened Ceremony
  import opened Rounds

  // ----- one record through a drop

  /** Refilling a list with the chunks that were not kept restores the bucket's full list. */
  lemma AffectedConserves(env: Environment, lost: map<nat, nat>, n: nat, info: ParticipantInfo, b: nat)
    requires Conserved(info, b, env.chunks, n) && info.bucket == b
    ensures Conserved(Affected(env, lost, n, info), b, env.chunks, n)
  {
    var all := BucketTasks(b, env.chunks, n);
    var kept := Keeping(lost, info);
    forall t ensures Held(Affected(env, lost, n, info))[t] == multiset(all)[t] {
      RefillCount(env, lost, n, info, b, t);
    }
  }

  lemma RefillCount(env: Environment, lost: map<nat, nat>, n: nat, info: ParticipantInfo, b: nat, t: Task)
    requires Conserved(info, b, env.chunks, n) && info.bucket == b
    ensures Held(Affected(env, lost, n, info))[t] == multiset(BucketTasks(b, env.chunks, n))[t]
  {
    var all := BucketTasks(b, env.chunks, n);
    var kept := Keeping(lost, info);
    FilterCount(info.pendingTasks, (u: Task) => u.chunk !in lost, t);
    FilterCount(info.completedTasks, (u: Task) => !BuiltOn(lost, u), t);
    var free := (u: Task) => !HasChunk(kept.completedTasks, u.chunk) && !HasChunk(kept.pendingTasks, u.chunk);
    FilterCount(all, free, t);
    BucketCount(b, env.chunks, n, t);
    assert Held(info)[t] == multiset(all)[t];
    InMultiset(kept.pendingTasks, t);
    InMultiset(kept.completedTasks, t);
    if t in all {
      assert free(t) <==> t !in kept.pendingTasks && t !in kept.completedTasks by {
        KeptChunk(env, lost, n, info, b, t);
      }
    }
  }

  /** Kept tasks come from the bucket's list, where a chunk has one task only. */
  lemma KeptChunk(env: Environment, lost: map<nat, nat>, n: nat, info: ParticipantInfo, b: nat, t: Task)
    requires Conserved(info, b, env.chunks, n) && t in BucketTasks(b, env.chunks, n)
    ensures var kept := Keeping(lost, info);
      && (HasChunk(kept.pendingTasks, t.chunk) <==> t in kept.pendingTasks)
      && (HasChunk(kept.completedTasks, t.chunk) <==> t in kept.completedTasks)
  {
    var kept := Keeping(lost, info);
    forall u | u in kept.pendingTasks || u in kept.completedTasks ensures u.chunk == t.chunk ==> u == t {
      FilterMember(info.pendingTasks, (v: Task) => v.chunk !in lost, u);
      FilterMember(info.completedTasks, (v: Task) => !BuiltOn(lost, v), u);
      HeldInBucket(info, b, env.chunks, n, u);
      TaskInBucket(b, u, env.chunks, n);
      TaskInBucket(b, t, env.chunks, n);
    }
  }

  lemma HeldInBucket(info: ParticipantInfo, b: nat, chunks: nat, n: nat, t: Task)
    requires Conserved(info, b, chunks, n)
    requires t in info.assignedTasks || t in info.pendingTasks || t in info.completedTasks
    ensures t in BucketTasks(b, chunks, n)
  {
    InMultiset(info.assignedTasks, t);
    InMultiset(info.pendingTasks, t);
    InMultiset(info.completedTasks, t);
    InMultiset(BucketTasks(b, chunks, n), t);
    assert Held(info)[t] > 0;
  }

  // ----- the members of a round

  ghost predicate Active(env: Environment, p: Participant, info: ParticipantInfo, b: nat, n: nat, height: nat) {
    && info.id == p
    && info.roundHeight == height
    && info.Activity().Ok?
    && Conserved(info, b, env.chunks, n)
  }

  ghost predicate Done(env: Environment, info: ParticipantInfo, b: nat, n: nat, height: nat) {
    && info.roundHeight == height
    && info.assignedTasks == [] && info.pendingTasks == []
    && Conserved(info, b, env.chunks, n)
  }

  ghost predicate AllActive(env: Environment, current: Roster, bucket: map<Participant, nat>, n: nat, height: nat) {
    forall p :: p in current ==> p in bucket && Active(env, p, current[p], bucket[p], n, height)
  }

  ghost predicate AllDone(env: Environment, done: Roster, bucket: map<Participant, nat>, n: nat, height: nat) {
    forall p :: p in done ==> p in bucket && Done(env, done[p], bucket[p], n, height)
  }

  /** With replacements available, records carry the bucket they hold and the round its size. */
  ghost predicate Numbered(metrics: Option<Metrics>, current: Roster, n: nat, bucket: map<Participant, nat>) {
    && metrics.Some? && metrics.value.contributors == n
    && forall p :: p in current ==> p in bucket && current[p].bucket == bucket[p]
  }

  /** The `n` members of the round, working or finished, hold one bucket each. */
  ghost predicate Covered(env: Environment, s: State, n: nat, bucket: map<Participant, nat>) {
    && s.height.Some? && 0 < s.height.value && s.height.value in s.finished
    && var done := s.finished[s.height.value];
    && s.current.Keys !! done.Keys
    && bucket.Keys == s.current.Keys + done.Keys
    && Bijection(bucket, n)
    && AllActive(env, s.current, bucket, n, s.height.value)
    && AllDone(env, done, bucket, n, s.height.value)
    && (env.coordinatorContributors != [] ==> Numbered(s.metrics, s.current, n, bucket))
  }

  lemma RecordCovered(env: Environment, s: State, n: nat, bucket: map<Participant, nat>, p: Participant, info: ParticipantInfo)
    requires Covered(env, s, n, bucket) && p in s.current
    requires SameOwner(s.current[p], info) && info.Activity().Ok? && Conserved(info, bucket[p], env.chunks, n)
    ensures Covered(env, WithInfo(s, p, info), n, bucket)
  {
    hide Conserved;
    assert WithInfo(s, p, info).current.Keys == s.current.Keys;
    assert AllActive(env, s.current[p := info], bucket, n, s.height.value);
  }

  /** Marking splits the roster in two when nobody on it is already finished. */
  lemma MarkSplits(s: State, now: Time)
    requires forall p :: p in s.current ==> s.current[p].finishedAt.None?
    ensures var working, done := StillWorking(s, now), NewlyFinished(s, now);
      && working.Keys !! done.Keys && working.Keys + done.Keys == s.current.Keys
      && |s.current| == |working| + |done|
  {
    var working, done := StillWorking(s, now), NewlyFinished(s, now);
    assert forall p :: p in working <==> p in s.current && s.current[p].Finish(now).Err?;
    assert forall p :: p in done <==> p in s.current && s.current[p].Finish(now).Ok?;
    hide *;
    assert working.Keys + done.Keys == s.current.Keys;
    assert working.Keys !! done.Keys;
    assert |s.current.Keys| == |working.Keys| + |done.Keys|;
  }

  lemma MarkRecords(env: Environment, s: State, n: nat, bucket: map<Participant, nat>, height: nat, now: Time)
    requires AllActive(env, s.current, bucket, n, height)
    ensures forall p :: p in s.current ==> s.current[p].finishedAt.None?
    ensures forall p :: p in StillWorking(s, now) ==> p in s.current && StillWorking(s, now)[p] == s.current[p]
    ensures AllActive(env, StillWorking(s, now), bucket, n, height)
    ensures AllDone(env, NewlyFinished(s, now), bucket, n, height)
  {
    assert forall p :: p in NewlyFinished(s, now) ==> p in bucket && Done(env, NewlyFinished(s, now)[p], bucket[p], n, height);
    hide Conserved;
  }

  /** Moving part of the working roster to the finished one keeps the cover. */
  lemma MoveCovered(env: Environment, s: State, n: nat, bucket: map<Participant, nat>, working: Roster, done: Roster)
    requires Covered(env, s, n, bucket)
    requires working.Keys !! done.Keys && working.Keys + done.Keys == s.current.Keys
    requires forall p :: p in working ==> working[p] == s.current[p]
    requires AllActive(env, working, bucket, n, s.height.value) && AllDone(env, done, bucket, n, s.height.value)
    ensures Covered(env, s.(current := working,
                            finished := s.finished[s.height.value := s.finished[s.height.value] + done]), n, bucket)
  {
    hide Active, Done, Bijection;
    var before := s.finished[s.height.value];
    assert AllDone(env, before + done, bucket, n, s.height.value);
    assert (before + done).Keys == before.Keys + done.Keys;
    assert working.Keys !! (before + done).Keys;
    assert bucket.Keys == working.Keys + (before + done).Keys;
  }

  lemma MarkCovered(env: Environment, s: State, n: nat, bucket: map<Participant, nat>, now: Time)
    requires Covered(env, s, n, bucket)
    ensures UpdateCurrentContributors(s, now).1.Ok?
    ensures Covered(env, UpdateCurrentContributors(s, now).0, n, bucket)
  {
    MarkRecords(env, s, n, bucket, s.height.value, now);
    MarkSplits(s, now);
    MoveCovered(env, s, n, bucket, StillWorking(s, now), NewlyFinished(s, now));
    hide StillWorking, NewlyFinished, Covered, AllActive, AllDone;
  }

  lemma StagedActive(env: Environment, next: Roster, height: nat)
    requires Staged(env, next, height)
    ensures AllActive(env, next, Buckets(next), |next|, height) && Bijection(Buckets(next), |next|)
  {
    forall p | p in next ensures Active(env, p, next[p], next[p].bucket, |next|, height) {
      FreshActive(env, p, next[p], next[p].bucket, |next|, height);
    }
  }

  lemma CommitShape(env: Environment, s: State)
    requires Sound(env, s) && s.status == Precommit
    ensures Staged(env, s.next, s.height.value + 1)
    ensures var s' := CommitNextRound(s);
      && s'.current == s.next && s'.height == Some(s.height.value + 1)
      && s'.finished == s.finished[s.height.value + 1 := map[]]
      && s'.metrics.Some? && s'.metrics.value.contributors == |s.next|
  {
    assert Staged(env, s.next, s.height.value + 1) && s.current == map[];
    hide Sound;
    StagedListed(env, s.next, s.height.value + 1);
    CommitMoves(s);
    hide *;
  }

  lemma CommitCovered(env: Environment, s: State)
    requires Sound(env, s) && s.status == Precommit
    ensures Covered(env, CommitNextRound(s), |s.next|, Buckets(s.next))
  {
    CommitShape(env, s);
    hide Sound;
    NewRoundCovered(env, CommitNextRound(s), s.height.value + 1);
  }

  lemma NewRoundCovered(env: Environment, s: State, height: nat)
    requires Staged(env, s.current, height) && 0 < height && s.height == Some(height)
    requires height in s.finished && s.finished[height] == map[]
    requires s.metrics.Some? && s.metrics.value.contributors == |s.current|
    ensures Covered(env, s, |s.current|, Buckets(s.current))
  {
    hide Staged, Bijection, AllActive, Buckets, AllDone;
    var bucket := Buckets(s.current);
    StagedActive(env, s.current, height);
    BucketKeys(s.current);
    NoneDone(env, bucket, |s.current|, height);
  }

  lemma BucketKeys(roster: Roster)
    ensures Buckets(roster).Keys == roster.Keys
    ensures forall p :: p in roster ==> Buckets(roster)[p] == roster[p].bucket
  {
  }

  lemma FreshActive(env: Environment, p: Participant, info: ParticipantInfo, b: nat, n: nat, height: nat)
    requires Fresh(env, p, info, b, n, height)
    ensures Active(env, p, info, b, n, height)
  {
  }

  // ----- resets

  /** The position of each participant in the order of a reset. */
  ghost function Indices(keys: seq<Participant>): map<Participant, nat> {
    map p | p in keys :: Position(keys, p)
  }

  lemma IndicesBijective(keys: seq<Participant>)
    requires Distinct(keys)
    ensures Bijection(Indices(keys), |keys|)
  {
    forall b: nat | b < |keys| ensures Taken(Indices(keys), b) {
      assert keys[b] in Indices(keys);
    }
  }

  /** Every member restarted at its own position with the task list of that position. */
  ghost predicate RestartedAt(env: Environment, keys: seq<Participant>, members: seq<ParticipantInfo>, restarted: Roster, i: nat)
    requires i < |keys| == |members|
  {
    && keys[i] in restarted
    && SameOwner(members[i], restarted[keys[i]]) && restarted[keys[i]].reliability == members[i].reliability
    && Fresh(env, keys[i], restarted[keys[i]], i, |keys|, members[i].roundHeight)
  }

  lemma {:induction false} RestartAll(env: Environment, keys: seq<Participant>, members: seq<ParticipantInfo>, now: Time, k: nat)
    requires Paired(keys, members) && k <= |keys| <= env.chunks
    requires Distinct(keys)
    ensures Restart(env, keys, members, now, k).Ok?
    ensures var restarted := Restart(env, keys, members, now, k).value;
      && (forall p :: p in restarted <==> p in keys[..k])
      && (forall i: nat :: i < k ==> RestartedAt(env, keys, members, restarted, i))
  {
    if k > 0 {
      RestartAll(env, keys, members, now, k - 1);
      assert keys[..k] == keys[..k - 1] + [keys[k - 1]];
      var before := Restart(env, keys, members, now, k - 1).value;
      var restarted := Restart(env, keys, members, now, k).value;
      forall i: nat | i < k ensures RestartedAt(env, keys, members, restarted, i) {
        if i < k - 1 {
          assert RestartedAt(env, keys, members, before, i);
        }
      }
    }
  }

  lemma ConcatDistinct(a: seq<Participant>, b: seq<Participant>, left: set<Participant>, right: set<Participant>)
    requires Enumerates(a, left) && Enumerates(b, right) && left !! right
    ensures Distinct(a + b)
    ensures forall p :: p in a + b <==> p in left || p in right
  {
    var c := a + b;
    forall i, j | 0 <= i < j < |c| ensures c[i] != c[j] {
      assert c[i] in if i < |a| then a else b;
      assert c[j] in if j < |a| then a else b;
    }
  }

  /** The roster a reset restarts: every member, fresh, with the bucket of its position. */
  ghost predicate FreshRoster(env: Environment, roster: Roster, keys: seq<Participant>, members: set<Participant>, height: nat) {
    && roster.Keys == members == Indices(keys).Keys
    && Bijection(Indices(keys), |keys|)
    && forall p :: p in roster ==> p in Indices(keys) && Fresh(env, p, roster[p], Indices(keys)[p], |keys|, height)
  }

  /** Restarting every member: each gets the bucket of its position. */
  lemma RestartRoster(env: Environment, keys: seq<Participant>, members: seq<ParticipantInfo>, all: set<Participant>,
                      now: Time, height: nat)
    requires Paired(keys, members) && Distinct(keys) && |keys| <= env.chunks
    requires forall i :: 0 <= i < |members| ==> members[i].roundHeight == height
    requires forall p :: p in keys <==> p in all
    ensures Restart(env, keys, members, now, |keys|).Ok?
    ensures FreshRoster(env, Restart(env, keys, members, now, |keys|).value, keys, all, height)
  {
    RestartAll(env, keys, members, now, |keys|);
    IndicesBijective(keys);
    var restarted := Restart(env, keys, members, now, |keys|).value;
    assert keys[..|keys|] == keys;
    hide Fresh, Bijection;
    forall p | p in restarted ensures Fresh(env, p, restarted[p], Indices(keys)[p], |keys|, height) {
      var i := Position(keys, p);
      assert RestartedAt(env, keys, members, restarted, i);
    }
    assert restarted.Keys == all == Indices(keys).Keys;
  }

  lemma MembersHeight(s: State, working: seq<Participant>, done: seq<Participant>, height: nat)
    requires ResetOrder(s, working, done)
    requires forall p :: p in s.current ==> s.current[p].roundHeight == height
    requires forall p :: p in s.Finished() ==> s.Finished()[p].roundHeight == height
    ensures forall i :: 0 <= i < |Members(s, working, done)| ==> Members(s, working, done)[i].roundHeight == height
  {
  }

  lemma {:induction false} BijectionSize(bucket: map<Participant, nat>, n: nat)
    requires Bijection(bucket, n)
    ensures |bucket| == n
  {
    if n == 0 {
      assert bucket == map[];
    } else {
      assert Taken(bucket, n - 1);
      var p :| p in bucket && bucket[p] == n - 1;
      var rest := bucket - {p};
      forall b: nat | b < n - 1 ensures Taken(rest, b) {
        assert Taken(bucket, b);
        var q :| q in bucket && bucket[q] == b;
        assert q in rest && rest[q] == b;
      }
      BijectionSize(rest, n - 1);
      assert bucket.Keys == rest.Keys + {p};
    }
  }

  /** The round can restart: its members have the round's height and are no more than the chunks. */
  ghost predicate Restartable(env: Environment, s: State) {
    && s.height.Some? && 0 < s.height.value && s.height.value in s.finished
    && s.current.Keys !! s.finished[s.height.value].Keys
    && (forall p :: p in s.current ==> s.current[p].roundHeight == s.height.value)
    && (forall p :: p in s.finished[s.height.value] ==> s.finished[s.height.value][p].roundHeight == s.height.value)
    && |s.current| + |s.finished[s.height.value]| <= env.chunks
  }

  lemma CoveredRestartable(env: Environment, s: State, n: nat, bucket: map<Participant, nat>)
    requires Covered(env, s, n, bucket)
    ensures Restartable(env, s) && |s.current| + |s.finished[s.height.value]| == n
  {
    var done := s.finished[s.height.value];
    CoverFits(env, s, n, bucket);
    CoverSize(bucket, n, s.current.Keys, done.Keys);
    CoverHeights(env, s.current, done, bucket, n, s.height.value);
    hide AllActive, AllDone, Bijection, Numbered;
  }

  lemma CoverSize(bucket: map<Participant, nat>, n: nat, working: set<Participant>, done: set<Participant>)
    requires Bijection(bucket, n) && bucket.Keys == working + done && working !! done
    ensures |working| + |done| == n
  {
    BijectionSize(bucket, n);
    hide Bijection;
    assert |bucket.Keys| == |working + done|;
  }

  lemma CoverHeights(env: Environment, current: Roster, done: Roster, bucket: map<Participant, nat>, n: nat, height: nat)
    requires AllActive(env, current, bucket, n, height) && AllDone(env, done, bucket, n, height)
    ensures forall p :: p in current ==> current[p].roundHeight == height
    ensures forall p :: p in done ==> done[p].roundHeight == height
  {
    hide Conserved;
  }

  lemma CoverFits(env: Environment, s: State, n: nat, bucket: map<Participant, nat>)
    requires Covered(env, s, n, bucket)
    ensures n <= env.chunks
  {
    hide Conserved, Numbered;
    if n > 0 {
      assert Taken(bucket, 0);
      var p :| p in bucket && bucket[p] == 0;
      var done := s.finished[s.height.value];
      ValidFromConserved(if p in s.current then s.current[p] else done[p], 0, env.chunks, n);
    }
  }

  lemma ValidFromConserved(info: ParticipantInfo, b: nat, chunks: nat, n: nat)
    requires Conserved(info, b, chunks, n)
    ensures n <= chunks
  {
  }

  lemma ResetMembers(env: Environment, s: State, working: seq<Participant>, done: seq<Participant>)
    requires ResetOrder(s, working, done) && Restartable(env, s)
    requires Listed(s.current) && Listed(s.finished[s.height.value])
    ensures var keys, members := working + done, Members(s, working, done);
      && Paired(keys, members) && Distinct(keys) && |keys| <= env.chunks
      && (forall i :: 0 <= i < |members| ==> members[i].roundHeight == s.height.value)
      && (forall p :: p in keys <==> p in s.current.Keys + s.finished[s.height.value].Keys)
  {
    EnumerationSize(working, s.current.Keys);
    EnumerationSize(done, s.Finished().Keys);
    MembersPaired(s, working, done);
    MembersHeight(s, working, done, s.height.value);
    ConcatDistinct(working, done, s.current.Keys, s.Finished().Keys);
  }

  lemma ResetRoster(env: Environment, s: State, working: seq<Participant>, done: seq<Participant>, now: Time)
    requires ResetOrder(s, working, done) && Restartable(env, s)
    requires Listed(s.current) && Listed(s.finished[s.height.value])
    ensures var keys := working + done; var r := Restart(env, keys, Members(s, working, done), now, |keys|);
      && r.Ok?
      && FreshRoster(env, r.value, keys, s.current.Keys + s.finished[s.height.value].Keys, s.height.value)
  {
    ResetMembers(env, s, working, done);
    var keys, members, all := working + done, Members(s, working, done), s.current.Keys + s.finished[s.height.value].Keys;
    hide Restartable, Members, ResetOrder, Restart, Listed, FreshRoster;
    RestartRoster(env, keys, members, all, now, s.height.value);
  }

  /**
    A reset of a restartable round always succeeds. With nobody left, or when forced, it goes back
    one round; otherwise the remaining members hold every task of their new, smaller round.
   */
  lemma ResetCovers(env: Environment, s: State, force: bool, working: seq<Participant>, done: seq<Participant>, now: Time)
    requires ResetOrder(s, working, done) && Restartable(env, s)
    requires Listed(s.current) && Listed(s.finished[s.height.value])
    ensures var (s', r) := ResetCurrentRound(env, s, force, working, done, now); var keys := working + done;
      && r == Ok(ResetAction(if force || keys == [] then keys else [], force || keys == []))
      && (r.value.rollback ==> s'.current == map[] && s'.height == Some(s.height.value - 1) && s'.Finished() == map[])
      && (!r.value.rollback ==>
            && s'.height == s.height
            && s'.finished == map[s.height.value := map[]] && s'.pendingVerification == map[]
            && FreshRoster(env, s'.current, keys, s.current.Keys + s.finished[s.height.value].Keys, s.height.value))
  {
    ResetRoster(env, s, working, done, now);
    assert |Members(s, working, done)| == |working + done|;
    hide FreshRoster, Members, Restart, Requeued;
  }

  // ----- drops

  lemma AffectedActive(env: Environment, lost: map<nat, nat>, n: nat, q: Participant, info: ParticipantInfo, b: nat, height: nat)
    requires Active(env, q, info, b, n, height) && info.bucket == b
    ensures Active(env, q, Affected(env, lost, n, info), b, n, height)
    ensures Affected(env, lost, n, info).bucket == b
  {
    AffectedConserves(env, lost, n, info, b);
  }

  /** The other contributors after a drop: same owners, same buckets, all tasks still held. */
  lemma AfterDropActive(env: Environment, s: State, n: nat, bucket: map<Participant, nat>, p: Participant, now: Time, height: nat)
    requires AllActive(env, s.current, bucket, n, height) && Numbered(s.metrics, s.current, n, bucket)
    requires DropGuard(s, p).Ok? && BucketsKnown(env, s.current, n)
    ensures var s1 := AfterDrop(env, s, p, now);
      && s1.current.Keys == s.current.Keys - {p}
      && AllActive(env, s1.current, bucket, n, height)
      && Numbered(s1.metrics, s1.current, n, bucket)
  {
    hide Affected, Active;
    var lost := ByChunk(s.current[p].completedTasks);
    forall q | q in s.current
      ensures Active(env, q, Affected(env, lost, n, s.current[q]), bucket[q], n, height)
      ensures Affected(env, lost, n, s.current[q]).bucket == bucket[q]
    {
      AffectedActive(env, lost, n, q, s.current[q], bucket[q], height);
    }
  }

  ghost function Reassign(bucket: map<Participant, nat>, p: Participant, q: Participant): map<Participant, nat>
    requires p in bucket
  {
    (bucket - {p})[q := bucket[p]]
  }

  lemma ReassignBijective(bucket: map<Participant, nat>, n: nat, p: Participant, q: Participant)
    requires Bijection(bucket, n) && p in bucket && (q == p || q !in bucket)
    ensures Bijection(Reassign(bucket, p, q), n)
  {
    var bucket' := Reassign(bucket, p, q);
    forall b: nat | b < n ensures Taken(bucket', b) {
      assert Taken(bucket, b);
      var r :| r in bucket && bucket[r] == b;
      assert (if r == p then q else r) in bucket';
    }
  }

  /** The contributor that would replace a dropped one, and whether it is in the round already. */
  ghost function Replacement(env: Environment, s: State, p: Participant, now: Time): Participant
    requires DropGuard(s, p).Ok? && BucketsKnown(env, s.current, s.metrics.value.contributors)
    requires env.coordinatorContributors != []
  {
    LeastLoaded(AfterDrop(env, s, p, now).current, env.coordinatorContributors)
  }

  ghost predicate OutsideRound(s: State, p: Participant, q: Participant) {
    q !in s.Finished() && (q == p || q !in s.current)
  }

  /** How much a contributor still has to do once `p` is dropped; nobody outside the round has anything. */
  function LoadAfterDrop(env: Environment, s: State, p: Participant, q: Participant): int
    requires p in s.current
  {
    if q == p || q !in s.current then 0
    else
      var lost := ByChunk(s.current[p].completedTasks);
      env.chunks - |Filter(s.current[q].completedTasks, (t: Task) => !BuiltOn(lost, t))|
  }

  /**
    The first coordinator contributor with nothing to do is outside the round. A member of the
    round that has done all its tasks, finished or not, has nothing to do either.
   */
  ghost predicate FreeReplacement(env: Environment, s: State, p: Participant)
    requires p in s.current
  {
    var candidates := env.coordinatorContributors;
    exists i :: 0 <= i < |candidates| && OutsideRound(s, p, candidates[i])
      && forall j :: 0 <= j < i ==> LoadAfterDrop(env, s, p, candidates[j]) != 0
  }

  lemma ConservedSize(info: ParticipantInfo, b: nat, chunks: nat, n: nat)
    requires Conserved(info, b, chunks, n)
    ensures |info.assignedTasks| + |info.pendingTasks| + |info.completedTasks| == chunks
  {
    assert |Held(info)| == |info.assignedTasks| + |info.pendingTasks| + |info.completedTasks|;
    assert |multiset(BucketTasks(b, chunks, n))| == |BucketTasks(b, chunks, n)|;
  }

  /** The load that the choice of a replacement looks at, told from the state before the drop. */
  lemma LoadIs(env: Environment, s: State, n: nat, bucket: map<Participant, nat>, p: Participant, now: Time, q: Participant)
    requires env.coordinatorContributors != []
    requires Covered(env, s, n, bucket) && DropGuard(s, p).Ok? && BucketsKnown(env, s.current, n)
    ensures Load(AfterDrop(env, s, p, now).current, q) == LoadAfterDrop(env, s, p, q)
  {
    assert s.metrics.Some? && s.metrics.value.contributors == n;
    if q in s.current && q != p {
      var lost := ByChunk(s.current[p].completedTasks);
      assert Conserved(s.current[q], bucket[q], env.chunks, n) && s.current[q].bucket == bucket[q];
      hide Covered, Conserved, Affected;
      AffectedLoad(env, lost, n, s.current[q], bucket[q]);
    }
  }

  /** What a record still has to do after a drop: everything but what it keeps as completed. */
  lemma AffectedLoad(env: Environment, lost: map<nat, nat>, n: nat, info: ParticipantInfo, b: nat)
    requires Conserved(info, b, env.chunks, n) && info.bucket == b
    ensures var info' := Affected(env, lost, n, info);
      |info'.pendingTasks| + |info'.assignedTasks| ==
      env.chunks - |Filter(info.completedTasks, (t: Task) => !BuiltOn(lost, t))|
  {
    AffectedConserves(env, lost, n, info, b);
    ConservedSize(Affected(env, lost, n, info), b, env.chunks, n);
    hide Conserved;
  }

  /** The least loaded candidate comes before all others of its load. */
  lemma {:induction false} LeastLoadedFirst(current: Roster, candidates: seq<Participant>) returns (i: nat)
    requires candidates != []
    ensures i < |candidates| && candidates[i] == LeastLoaded(current, candidates)
    ensures forall j :: 0 <= j < i ==> Load(current, candidates[j]) > Load(current, candidates[i])
  {
    hide Load, LeastLoaded;
    LeastLoadedUnfolds(current, candidates);
    var last := |candidates| - 1;
    if last == 0 {
      i := 0;
    } else {
      i := LeastLoadedFirst(current, candidates[..last]);
      if Load(current, candidates[last]) < Load(current, candidates[i]) {
        i := last;
      }
    }
  }

  lemma LeastLoadedUnfolds(current: Roster, candidates: seq<Participant>)
    requires candidates != []
    ensures var last := |candidates| - 1;
      if last == 0 then LeastLoaded(current, candidates) == candidates[0]
      else
        var best := LeastLoaded(current, candidates[..last]);
        && LeastLoaded(current, candidates) ==
           (if Load(current, candidates[last]) < Load(current, best) then candidates[last] else best)
        && forall j :: 0 <= j < last ==> Load(current, best) <= Load(current, candidates[j])
  {
    hide Load;
    var last := |candidates| - 1;
    if last > 0 {
      forall j | 0 <= j < last ensures candidates[j] in candidates[..last] {
        assert candidates[..last][j] == candidates[j];
      }
    }
  }

  /** The replacement comes from outside the round exactly when a free one is first in line. */
  lemma ReplacementIff(env: Environment, s: State, n: nat, bucket: map<Participant, nat>, p: Participant, now: Time)
    requires env.coordinatorContributors != []
    requires Covered(env, s, n, bucket) && DropGuard(s, p).Ok? && BucketsKnown(env, s.current, n)
    ensures s.metrics.Some? && s.metrics.value.contributors == n
    ensures OutsideRound(s, p, Replacement(env, s, p, now)) <==> FreeReplacement(env, s, p)
  {
    assert s.metrics.Some? && s.metrics.value.contributors == n;
    hide Covered;
    assert p in s.current;
    hide DropGuard, BucketsKnown, AfterDrop, Load, LoadAfterDrop, FreeReplacement, OutsideRound;
    var current := AfterDrop(env, s, p, now).current;
    forall q ensures Load(current, q) == LoadAfterDrop(env, s, p, q) {
      LoadIs(env, s, n, bucket, p, now, q);
    }
    LeastLoadedFree(env, s, p, current);
    hide LeastLoaded;
  }

  lemma LeastLoadedFree(env: Environment, s: State, p: Participant, current: Roster)
    requires p in s.current && env.coordinatorContributors != []
    requires forall q :: Load(current, q) == LoadAfterDrop(env, s, p, q)
    ensures OutsideRound(s, p, LeastLoaded(current, env.coordinatorContributors)) <==> FreeReplacement(env, s, p)
  {
    hide Load, LoadAfterDrop, FreeReplacement, OutsideRound, LeastLoaded;
    var candidates := env.coordinatorContributors;
    var i := LeastLoadedFirst(current, candidates);
    FirstIdle(env, s, p, i);
  }

  lemma FirstIdle(env: Environment, s: State, p: Participant, i: nat)
    requires p in s.current && i < |env.coordinatorContributors|
    requires var candidates := env.coordinatorContributors;
      && (forall j :: 0 <= j < |candidates| ==>
            LoadAfterDrop(env, s, p, candidates[i]) <= LoadAfterDrop(env, s, p, candidates[j]))
      && (forall j :: 0 <= j < i ==> LoadAfterDrop(env, s, p, candidates[j]) > LoadAfterDrop(env, s, p, candidates[i]))
      && forall j :: 0 <= j < |candidates| ==> 0 <= LoadAfterDrop(env, s, p, candidates[j])
    ensures OutsideRound(s, p, env.coordinatorContributors[i]) <==> FreeReplacement(env, s, p)
  {
    var candidates := env.coordinatorContributors;
    if k :| 0 <= k < |candidates| && OutsideRound(s, p, candidates[k])
            && forall j :: 0 <= j < k ==> LoadAfterDrop(env, s, p, candidates[j]) != 0
    {
      assert LoadAfterDrop(env, s, p, candidates[k]) == 0;
      assert LoadAfterDrop(env, s, p, candidates[i]) <= LoadAfterDrop(env, s, p, candidates[k]);
      assert i == k;
    }
  }

  lemma ReplacementStarts(env: Environment, s: State, bucket: nat, now: Time)
    requires env.Valid() && env.coordinatorContributors != [] && s.metrics.Some? && 0 < s.Height()
    requires ValidBucket(bucket, env.chunks, s.metrics.value.contributors)
    ensures var (s', r) := AddReplacement(env, s, bucket, now);
      var q := LeastLoaded(s.current, env.coordinatorContributors);
      && r == Ok(q)
      && s' == s.(current := s'.current)
      && q in s'.current && s'.current == s.current[q := s'.current[q]]
      && s'.current[q].bucket == bucket
      && Fresh(env, q, s'.current[q], bucket, s.metrics.value.contributors, s.Height())
  {
  }

  /** What a drop with a replacement does to the round, wherever the replacement comes from. */
  lemma ReplaceResult(env: Environment, s: State, n: nat, bucket: map<Participant, nat>, p: Participant, now: Time)
    requires env.Valid() && env.coordinatorContributors != []
    requires Covered(env, s, n, bucket) && DropGuard(s, p).Ok? && BucketsKnown(env, s.current, n)
    ensures var s1, q := AfterDrop(env, s, p, now), Replacement(env, s, p, now);
      var (s', r) := AddReplacement(env, s1, s.current[p].bucket, now);
      && r == Ok(q)
      && s'.height == s.height && s'.finished == s.finished
      && s1.current.Keys == s.current.Keys - {p}
      && AllActive(env, s1.current, bucket, n, s.height.value) && Numbered(s1.metrics, s1.current, n, bucket)
      && q in s'.current && s' == WithInfo(s1, q, s'.current[q])
      && s'.current[q].bucket == bucket[p] && s'.current[q].completedTasks == [] && s'.current[q].pendingTasks == []
      && Active(env, q, s'.current[q], bucket[p], n, s.height.value)
  {
    var s1, q := AfterDrop(env, s, p, now), Replacement(env, s, p, now);
    AfterDropActive(env, s, n, bucket, p, now, s.height.value);
    assert ValidBucket(bucket[p], env.chunks, n) by {
      assert Active(env, p, s.current[p], bucket[p], n, s.height.value);
    }
    ReplacementStarts(env, s1, bucket[p], now);
    var s' := AddReplacement(env, s1, s.current[p].bucket, now).0;
    FreshActive(env, q, s'.current[q], bucket[p], n, s.height.value);
  }

  /** A drop with an outside replacement hands the dropped bucket over and keeps the cover. */
  lemma ReplaceCovers(env: Environment, s: State, n: nat, bucket: map<Participant, nat>, p: Participant, now: Time)
    requires env.Valid() && env.coordinatorContributors != []
    requires Covered(env, s, n, bucket) && DropGuard(s, p).Ok? && BucketsKnown(env, s.current, n)
    requires OutsideRound(s, p, Replacement(env, s, p, now))
    ensures var (s', r) := AddReplacement(env, AfterDrop(env, s, p, now), s.current[p].bucket, now);
      r.Ok? && Covered(env, s', n, Reassign(bucket, p, r.value))
  {
    ReplaceResult(env, s, n, bucket, p, now);
    var s1, q := AfterDrop(env, s, p, now), Replacement(env, s, p, now);
    var s' := AddReplacement(env, s1, s.current[p].bucket, now).0;
    ReassignBijective(bucket, n, p, q);
    hide AfterDrop, AddReplacement, Active, Replacement;
    InstallCovers(env, s, n, bucket, p, q, s1, s'.current[q]);
  }

  /** A replacement that is already in the round overwrites a record: no assignment covers the round any more. */
  lemma InsiderBreaksCover(env: Environment, s: State, n: nat, bucket: map<Participant, nat>, p: Participant, now: Time,
                           bucket': map<Participant, nat>)
    requires env.Valid() && env.coordinatorContributors != []
    requires Covered(env, s, n, bucket) && DropGuard(s, p).Ok? && BucketsKnown(env, s.current, n)
    requires !OutsideRound(s, p, Replacement(env, s, p, now))
    ensures !Covered(env, AddReplacement(env, AfterDrop(env, s, p, now), s.current[p].bucket, now).0, n, bucket')
  {
    assert s.metrics.Some? && s.metrics.value.contributors == n;
    hide AddReplacement, AfterDrop, Replacement, Covered, BucketsKnown;
    var s' := AddReplacement(env, AfterDrop(env, s, p, now), s.current[p].bucket, now).0;
    ReplaceKeys(env, s, n, bucket, p, now);
    if Covered(env, s', n, bucket') {
      CoverForbidsInsider(env, s, s', n, bucket, bucket', p, Replacement(env, s, p, now));
    }
  }

  lemma ReplaceKeys(env: Environment, s: State, n: nat, bucket: map<Participant, nat>, p: Participant, now: Time)
    requires env.Valid() && env.coordinatorContributors != []
    requires Covered(env, s, n, bucket) && DropGuard(s, p).Ok? && BucketsKnown(env, s.current, n)
    ensures s.Finished() == s.finished[s.height.value]
    ensures var s' := AddReplacement(env, AfterDrop(env, s, p, now), s.current[p].bucket, now).0;
      && s'.height == s.height && s'.finished == s.finished
      && s'.current.Keys == (s.current.Keys - {p}) + {Replacement(env, s, p, now)}
  {
    assert s.height.Some? && s.Finished() == s.finished[s.height.value];
    hide Covered;
    ReplaceResult(env, s, n, bucket, p, now);
    var s1, q := AfterDrop(env, s, p, now), Replacement(env, s, p, now);
    var s' := AddReplacement(env, s1, s.current[p].bucket, now).0;
    InstallKeys(s1, q, s'.current[q]);
    hide *;
  }

  lemma InstallKeys(s: State, q: Participant, info: ParticipantInfo)
    ensures WithInfo(s, q, info).current.Keys == s.current.Keys + {q}
  {
  }

  /** Two covers of the same size cannot differ by a member that was already in the round. */
  lemma CoverForbidsInsider(env: Environment, s: State, s': State, n: nat, bucket: map<Participant, nat>,
                            bucket': map<Participant, nat>, p: Participant, q: Participant)
    requires Covered(env, s, n, bucket) && Covered(env, s', n, bucket')
    requires s'.height == s.height && s'.finished == s.finished && p in s.current
    requires s'.current.Keys == (s.current.Keys - {p}) + {q}
    ensures q !in s.finished[s.height.value] && (q == p || q !in s.current)
  {
    CoveredRestartable(env, s, n, bucket);
    CoveredRestartable(env, s', n, bucket');
    assert s'.current.Keys !! s.finished[s.height.value].Keys;
    hide *;
  }

  /** Some assignment of the buckets covers the round. */
  ghost predicate Coverable(env: Environment, s: State, n: nat) {
    exists bucket :: Covered(env, s, n, bucket)
  }

  /** A drop with a replacement leaves a covered round exactly when a free replacement is first in line. */
  lemma CoverKeptIff(env: Environment, s: State, n: nat, bucket: map<Participant, nat>, p: Participant, now: Time)
    requires env.Valid() && env.coordinatorContributors != []
    requires Covered(env, s, n, bucket) && DropGuard(s, p).Ok? && BucketsKnown(env, s.current, n)
    ensures s.metrics.Some? && s.metrics.value.contributors == n
    ensures Coverable(env, AddReplacement(env, AfterDrop(env, s, p, now), s.current[p].bucket, now).0, n) <==>
      FreeReplacement(env, s, p)
  {
    ReplacementIff(env, s, n, bucket, p, now);
    hide Covered, DropGuard, BucketsKnown, AfterDrop, AddReplacement, Replacement, FreeReplacement, OutsideRound;
    var (s', r) := AddReplacement(env, AfterDrop(env, s, p, now), s.current[p].bucket, now);
    if OutsideRound(s, p, Replacement(env, s, p, now)) {
      ReplaceCovers(env, s, n, bucket, p, now);
      assert Covered(env, s', n, Reassign(bucket, p, r.value));
    } else {
      forall bucket' ensures !Covered(env, s', n, bucket') {
        InsiderBreaksCover(env, s, n, bucket, p, now, bucket');
      }
    }
  }

  /** A round of two, the only coordinator contributor among them: dropping the other one breaks the cover. */
  lemma InsiderDropExists() returns (env: Environment, s: State, bucket: map<Participant, nat>, p: Participant)
    ensures env.Valid() && env.coordinatorContributors != []
    ensures Covered(env, s, 2, bucket) && DropGuard(s, p).Ok? && BucketsKnown(env, s.current, 2)
    ensures !FreeReplacement(env, s, p)
  {
    p := Contributor("p");
    var c := Contributor("c");
    env := Environment(2, 1, [c], [Verifier("v")], 1, 2, false, 0);
    bucket := map[p := 0, c := 1];
    var first := NewInfo(p, 1, 10, 0).(startedAt := Some(0), assignedTasks := BucketTasks(0, 2, 2));
    var second := NewInfo(c, 1, 10, 1).(startedAt := Some(0), assignedTasks := BucketTasks(1, 2, 2));
    s := Initialize(NEW_STATE, 1).(current := map[p := first, c := second],
                                   metrics := Some(NEW_METRICS.(contributors := 2)));
    assert env.Valid() && DropGuard(s, p).Ok?;
    assert Fresh(env, p, first, 0, 2, 1) && Fresh(env, c, second, 1, 2, 1);
    hide Covered, BucketsKnown, Fresh, FreeReplacement, DropGuard;
    PairCovered(env, s, bucket, p, c);
    NobodyFree(env, s, p, c);
    hide *;
  }

  lemma NobodyFree(env: Environment, s: State, p: Participant, c: Participant)
    requires env.coordinatorContributors == [c] && p in s.current && c in s.current && c != p
    ensures !FreeReplacement(env, s, p)
  {
    hide LoadAfterDrop;
  }

  /** Two fresh members cover a new round of two. */
  lemma PairCovered(env: Environment, s: State, bucket: map<Participant, nat>, p: Participant, q: Participant)
    requires p != q && bucket == map[p := 0, q := 1] && s.current.Keys == {p, q}
    requires s.height == Some(1) && s.finished == map[1 := map[]]
    requires s.metrics.Some? && s.metrics.value.contributors == 2
    requires s.current[p].bucket == 0 && Fresh(env, p, s.current[p], 0, 2, 1)
    requires s.current[q].bucket == 1 && Fresh(env, q, s.current[q], 1, 2, 1)
    ensures Covered(env, s, 2, bucket) && BucketsKnown(env, s.current, 2)
  {
    hide Fresh, AllActive, AllDone, Bijection, BucketsKnown;
    TwoTaken(bucket, p, q);
    PairActive(env, s.current, p, q);
    NoneDone(env, bucket, 2, 1);
  }

  lemma PairActive(env: Environment, current: Roster, p: Participant, q: Participant)
    requires p != q && current.Keys == {p, q}
    requires current[p].bucket == 0 && Fresh(env, p, current[p], 0, 2, 1)
    requires current[q].bucket == 1 && Fresh(env, q, current[q], 1, 2, 1)
    ensures AllActive(env, current, map[p := 0, q := 1], 2, 1) && BucketsKnown(env, current, 2)
    ensures forall r :: r in current ==> current[r].bucket == map[p := 0, q := 1][r]
  {
    assert 2 <= env.chunks;
    FreshActive(env, p, current[p], 0, 2, 1);
    FreshActive(env, q, current[q], 1, 2, 1);
    hide Fresh, Active, BucketTasks;
  }

  lemma NoneDone(env: Environment, bucket: map<Participant, nat>, n: nat, height: nat)
    ensures AllDone(env, map[], bucket, n, height)
  {
  }

  lemma TwoTaken(bucket: map<Participant, nat>, p: Participant, q: Participant)
    requires p != q && bucket == map[p := 0, q := 1]
    ensures Bijection(bucket, 2)
  {
    assert bucket[p] == 0 && bucket[q] == 1;
    forall b: nat | b < 2 ensures Taken(bucket, b) {
      assert bucket[if b == 0 then p else q] == b;
    }
  }

  /** Putting an active record of the dropped bucket in place of the dropped contributor. */
  lemma InstallCovers(env: Environment, s: State, n: nat, bucket: map<Participant, nat>, p: Participant, q: Participant,
                      s1: State, info: ParticipantInfo)
    requires Covered(env, s, n, bucket) && p in s.current && OutsideRound(s, p, q)
    requires s1.height == s.height && s1.finished == s.finished && s1.current.Keys == s.current.Keys - {p}
    requires AllActive(env, s1.current, bucket, n, s.height.value) && Numbered(s1.metrics, s1.current, n, bucket)
    requires info.bucket == bucket[p] && Active(env, q, info, bucket[p], n, s.height.value)
    requires Bijection(Reassign(bucket, p, q), n)
    ensures Covered(env, WithInfo(s1, q, info), n, Reassign(bucket, p, q))
  {
    hide Active, Done, Bijection;
    var bucket', s' := Reassign(bucket, p, q), WithInfo(s1, q, info);
    var done := s.finished[s.height.value];
    assert s.Finished() == done;
    assert bucket'.Keys == s'.current.Keys + done.Keys;
    assert AllActive(env, s'.current, bucket', n, s.height.value);
    assert AllDone(env, done, bucket', n, s.height.value);
  }

  // ----- runs with their history

  datatype Event = Completed(p: Participant, task: Task) | Verified(task: Task)

  datatype View = NoRound | Running(n: nat, bucket: map<Participant, nat>)

  /** A state, who holds which bucket in its round, and what was completed and verified since it began. */
  datatype Exec = Exec(s: State, view: View, log: seq<Event>)

  /** The last thing that happened to a task. */
  function LastAbout(log: seq<Event>, t: Task): Option<Event> {
    if log == [] then None
    else if log[|log| - 1].task == t then Some(log[|log| - 1])
    else LastAbout(log[..|log| - 1], t)
  }

  ghost predicate Pending(pending: map<Task, Participant>, log: seq<Event>, t: Task) {
    t in pending || LastAbout(log, t) == Some(Verified(t))
  }

  /** Every completed task was logged, and waits for its verification or was verified since. */
  ghost predicate Accounted(pending: map<Task, Participant>, log: seq<Event>, roster: Roster) {
    forall p, t :: p in roster && t in roster[p].completedTasks ==> Completed(p, t) in log && Pending(pending, log, t)
  }

  ghost predicate Good(env: Environment, x: Exec) {
    && Sound(env, x.s)
    && env.coordinatorVerifiers != []
    && (x.view.NoRound? ==> x.s.current == map[] && x.s.Finished() == map[])
    && (x.view.Running? ==>
          && Covered(env, x.s, x.view.n, x.view.bucket)
          && Accounted(x.s.pendingVerification, x.log, x.s.current)
          && Accounted(x.s.pendingVerification, x.log, x.s.Finished()))
  }

  /** The drop reaches the round: it is not answered from the queue and not refused. */
  ghost predicate DropsMember(s: State, p: Participant) {
    s.status != Initializing && !InQueue(s, p) && DropGuard(s, p).Ok?
  }

  ghost function NextView(env: Environment, s: State, view: View, op: Op): View
    requires Possible(env, s, op)
    decreases op.Ban?
  {
    match op
    case CommitRound => if s.status == Precommit && s.height.Some? then Running(|s.next|, Buckets(s.next)) else view
    case ForceReset(working, done, now) =>
      if ResetCurrentRound(env, s, true, working, done, now).1.Ok? then NoRound else view
    case Drop(p, working, done, now) =>
      if !DropsMember(s, p) then view
      else if env.coordinatorContributors == [] then
        if working + done == [] then NoRound else Running(|working + done|, Indices(working + done))
      else if view.Running? && p in view.bucket then
        view.(bucket := Reassign(view.bucket, p, Replacement(env, s, p, now)))
      else view
    case Ban(p, working, done, now) => if p in s.banned then view else NextView(env, s, view, Drop(p, working, done, now))
    case _ => view
  }

  ghost function NextLog(env: Environment, s: State, log: seq<Event>, op: Op): seq<Event>
    requires Possible(env, s, op)
    decreases op.Ban?
  {
    match op
    case CommitRound => if s.status == Precommit then [] else log
    case Drop(p, working, done, now) => if DropsMember(s, p) && env.coordinatorContributors == [] then [] else log
    case Ban(p, working, done, now) => if p in s.banned then log else NextLog(env, s, log, Drop(p, working, done, now))
    case Complete(p, task) =>
      if p.Verifier? then if CompletedTask(env, s, p, task).1.Ok? then log + [Verified(task)] else log
      else if task.chunk <= env.chunks && p in s.current && s.current[p].CompletedTask(task).Ok?
      then log + [Completed(p, task)] else log
    case _ => log
  }

  ghost function Next(env: Environment, x: Exec, op: Op): Exec
    requires Possible(env, x.s, op)
  {
    Exec(Apply(env, x.s, op), NextView(env, x.s, x.view, op), NextLog(env, x.s, x.log, op))
  }

  /** What the run must respect: rollbacks of tasks the participant holds, replacements from outside the round. */
  ghost predicate Careful(env: Environment, s: State, op: Op)
    requires Possible(env, s, op)
  {
    match op
    case Unfetch(p, task) => task.chunk <= env.chunks && p in s.current ==> RollbackSafe(s.current[p], task, false)
    case Unlock(p, task) => task.chunk <= env.chunks && p in s.current ==> RollbackSafe(s.current[p], task, true)
    case Drop(p, _, _, _) => DropsMember(s, p) && env.coordinatorContributors != [] ==> FreeReplacement(env, s, p)
    case Ban(p, _, _, _) =>
      p !in s.banned && DropsMember(s, p) && env.coordinatorContributors != [] ==> FreeReplacement(env, s, p)
    case _ => true
  }

  // ----- the log through completions and verifications

  lemma LogAppend(log: seq<Event>, e: Event, t: Task)
    ensures LastAbout(log + [e], t) == if e.task == t then Some(e) else LastAbout(log, t)
  {
    assert (log + [e])[..|log|] == log;
  }

  lemma VerifyAccounted(pending: map<Task, Participant>, log: seq<Event>, roster: Roster, task: Task)
    requires Accounted(pending, log, roster)
    ensures Accounted(pending - {task}, log + [Verified(task)], roster)
  {
    forall p, t | p in roster && t in roster[p].completedTasks
      ensures Completed(p, t) in log + [Verified(task)] && Pending(pending - {task}, log + [Verified(task)], t)
    {
      LogAppend(log, Verified(task), t);
    }
  }

  lemma CompleteAccounted(pending: map<Task, Participant>, pending': map<Task, Participant>, log: seq<Event>,
                          roster: Roster, q: Participant, task: Task)
    requires Accounted(pending, log, roster)
    requires task in pending' && forall t :: t in pending ==> t in pending'
    ensures Accounted(pending', log + [Completed(q, task)], roster)
  {
    forall p, t | p in roster && t in roster[p].completedTasks
      ensures Completed(p, t) in log + [Completed(q, task)] && Pending(pending', log + [Completed(q, task)], t)
    {
      LogAppend(log, Completed(q, task), t);
    }
  }

  // ----- every operation keeps a good execution good

  /** Operations that leave the round, its members and the tasks awaiting verification alone. */
  lemma AsideGood(env: Environment, x: Exec, s': State)
    requires Good(env, x) && Sound(env, s')
    requires s'.current == x.s.current && s'.finished == x.s.finished && s'.height == x.s.height
    requires s'.pendingVerification == x.s.pendingVerification
    requires s'.metrics.Some? && s'.metrics.value.contributors == x.s.metrics.value.contributors
    ensures Good(env, x.(s := s'))
  {
    hide Sound, Accounted, AllActive, AllDone, Bijection;
  }

  predicate Aside(op: Op) {
    || op.Enqueue? || op.Dequeue? || op.Requeue? || op.PrecommitRound? || op.RollbackRound?
    || op.StartAggregation? || op.EndAggregation? || op.CancelAggregation? || op.Unban?
  }

  /** The same round, with the same work done and awaited. */
  ghost predicate SameRound(s: State, s': State) {
    && s'.current == s.current && s'.finished == s.finished && s'.height == s.height
    && s'.pendingVerification == s.pendingVerification
    && s'.metrics.Some? == s.metrics.Some?
    && (s.metrics.Some? ==> s'.metrics.value.contributors == s.metrics.value.contributors)
  }

  lemma AsideFrame(env: Environment, s: State, op: Op)
    requires Possible(env, s, op) && Aside(op)
    ensures SameRound(s, Apply(env, s, op))
  {
    hide SameRound, AddToQueue, RemoveFromQueue, UpdateQueue, PrecommitNextRound, RollbackNextRound, UnbanParticipant,
      AggregatingCurrentRound, AggregatedCurrentRound, RollbackAggregatingCurrentRound;
    match op
    case PrecommitRound(height, order, now) => PrecommitFrame(env, s, height, order, now);
    case Requeue(order) => RequeueFrame(env, s, order);
    case RollbackRound(now) => RollbackFrame(s, now);
    case StartAggregation(now) => AggregationFrame(env, s, now);
    case EndAggregation(now) => AggregationFrame(env, s, now);
    case CancelAggregation => AggregationFrame(env, s, 0);
    case Enqueue(p, reliability, now) => QueueFrame(env, s, p, reliability, now);
    case Dequeue(p) => QueueFrame(env, s, p, 0, 0);
    case Unban(p) => QueueFrame(env, s, p, 0, 0);
  }

  lemma QueueFrame(env: Environment, s: State, p: Participant, reliability: nat, now: Time)
    ensures SameRound(s, AddToQueue(env, s, p, reliability, now).0)
    ensures SameRound(s, RemoveFromQueue(s, p).0)
    ensures SameRound(s, UnbanParticipant(s, p))
  {
  }

  lemma PrecommitFrame(env: Environment, s: State, height: nat, order: seq<Participant>, now: Time)
    requires ReliabilityOrder(s.queue, height, order)
    ensures SameRound(s, PrecommitNextRound(env, s, height, order, now).0)
  {
    hide Stage, PrecommitGuard, ReliabilityOrder;
  }

  lemma RequeueFrame(env: Environment, s: State, order: seq<Participant>)
    requires 0 < env.maximumContributors && QueueOrder(s, order)
    ensures SameRound(s, UpdateQueue(env, s, order))
  {
    hide UpdatedQueue, Eligible, QueueOrder;
  }

  lemma RollbackFrame(s: State, now: Time)
    ensures SameRound(s, RollbackNextRound(s, now))
  {
    hide Requeued;
  }

  lemma AggregationFrame(env: Environment, s: State, now: Time)
    ensures SameRound(s, AggregatingCurrentRound(s, now).0)
    ensures SameRound(s, AggregatedCurrentRound(env, s, now).0)
    ensures SameRound(s, RollbackAggregatingCurrentRound(s).0)
  {
    if s.metrics.Some? {
      MetricsFrame(s, s.metrics.value.(startedAggregation := Some(now)));
      MetricsFrame(s, s.metrics.value.(startedAggregation := None));
      MetricsFrame(s, Aggregated(env, s.metrics.value, now));
    }
    assert SameRound(s, s);
    hide SameRound;
  }

  lemma MetricsFrame(s: State, m: Metrics)
    requires s.metrics.Some? && m.contributors == s.metrics.value.contributors
    ensures SameRound(s, s.(metrics := Some(m)))
  {
  }

  lemma AsideOps(env: Environment, x: Exec, op: Op)
    requires Good(env, x) && Possible(env, x.s, op) && Aside(op)
    ensures Good(env, Next(env, x, op))
  {
    StepSound(env, x.s, op);
    assert x.s.metrics.Some?;
    hide Good, Sound, Apply, Possible;
    AsideFrame(env, x.s, op);
    AsideGood(env, x, Apply(env, x.s, op));
  }

  /** One record changed, its completed tasks as before. */
  lemma RecordGood(env: Environment, x: Exec, p: Participant, info: ParticipantInfo)
    requires Good(env, x) && p in x.s.current && x.view.Running?
    requires SameOwner(x.s.current[p], info) && info.Activity().Ok? && info.completedTasks == x.s.current[p].completedTasks
    requires Conserved(info, x.view.bucket[p], env.chunks, x.view.n)
    ensures Good(env, x.(s := WithInfo(x.s, p, info)))
  {
    RecordSound(env, x.s, p, info);
    RecordCovered(env, x.s, x.view.n, x.view.bucket, p, info);
    RecordAccounted(x.s.pendingVerification, x.log, x.s.current, p, info);
    hide Sound, Covered, Conserved, Accounted;
  }

  lemma RecordAccounted(pending: map<Task, Participant>, log: seq<Event>, roster: Roster, p: Participant, info: ParticipantInfo)
    requires Accounted(pending, log, roster) && p in roster && info.completedTasks == roster[p].completedTasks
    ensures Accounted(pending, log, roster[p := info])
  {
    hide Pending;
  }

  lemma MemberActive(env: Environment, x: Exec, p: Participant)
    requires Good(env, x) && p in x.s.current
    ensures x.view.Running? && p in x.view.bucket
    ensures Active(env, p, x.s.current[p], x.view.bucket[p], x.view.n, x.s.height.value)
  {
  }

  /** A record whose three task lists are as before still conserves its bucket. */
  lemma SameHeld(info: ParticipantInfo, info': ParticipantInfo, b: nat, chunks: nat, n: nat)
    requires Conserved(info, b, chunks, n)
    requires info'.assignedTasks == info.assignedTasks && info'.pendingTasks == info.pendingTasks
    requires info'.completedTasks == info.completedTasks
    ensures Conserved(info', b, chunks, n)
  {
  }

  lemma FetchGood(env: Environment, x: Exec, p: Participant)
    requires Good(env, x)
    ensures Good(env, Next(env, x, Fetch(p)))
  {
    hide Good;
    if p in x.s.current && x.s.current[p].PopTask().Ok? {
      MemberActive(env, x, p);
      PopConserves(x.s.current[p], x.view.bucket[p], env.chunks, x.view.n);
      hide Conserved;
      RecordGood(env, x, p, x.s.current[p].PopTask().value.0);
    }
  }

  lemma LockGood(env: Environment, x: Exec, p: Participant, chunk: nat)
    requires Good(env, x)
    ensures Good(env, Next(env, x, Lock(p, chunk)))
  {
    hide Good, Conserved;
    if p in x.s.current && x.s.current[p].AcquiredLock(chunk).Ok? {
      MemberActive(env, x, p);
      var info := x.s.current[p].AcquiredLock(chunk).value;
      SameHeld(x.s.current[p], info, x.view.bucket[p], env.chunks, x.view.n);
      RecordGood(env, x, p, info);
    }
  }

  lemma DisposeGood(env: Environment, x: Exec, p: Participant, task: Task)
    requires Good(env, x)
    ensures Good(env, Next(env, x, Dispose(p, task)))
  {
    hide Good, Conserved;
    if p in x.s.current && x.s.current[p].DisposeTask(task).Ok? {
      MemberActive(env, x, p);
      var info := x.s.current[p].DisposeTask(task).value;
      SameHeld(x.s.current[p], info, x.view.bucket[p], env.chunks, x.view.n);
      RecordGood(env, x, p, info);
    }
  }

  lemma RollbackGood(env: Environment, x: Exec, op: Op)
    requires Good(env, x) && (op.Unfetch? || op.Unlock?) && Careful(env, x.s, op)
    ensures Good(env, Next(env, x, op))
  {
    hide Good, Conserved, RollbackSafe;
    var p, task := op.p, op.task;
    if task.chunk <= env.chunks && p in x.s.current {
      MemberActive(env, x, p);
      var info := x.s.current[p];
      RollbackConservesIff(info, x.view.bucket[p], env.chunks, x.view.n, task);
      RecordGood(env, x, p, if op.Unfetch? then info.RollbackPendingTask(task).0 else info.RollbackLockedTask(task).0);
    }
  }

  lemma VerifyGood(env: Environment, x: Exec, p: Participant, task: Task)
    requires Good(env, x) && p.Verifier?
    ensures Good(env, Next(env, x, Complete(p, task)))
  {
    CompleteSound(env, x.s, p, task);
    var s' := CompletedTask(env, x.s, p, task).0;
    if CompletedTask(env, x.s, p, task).1.Ok? && x.view.Running? {
      VerifyAccounted(x.s.pendingVerification, x.log, x.s.current, task);
      VerifyAccounted(x.s.pendingVerification, x.log, x.s.Finished(), task);
    }
    hide Sound, Accounted, AllActive, AllDone, Bijection;
  }

  /** A contributor's completion succeeds at the record, whatever then happens to the verification entry. */
  ghost predicate Records(env: Environment, s: State, p: Participant, task: Task) {
    task.chunk <= env.chunks && p in s.current && s.current[p].CompletedTask(task).Ok?
  }

  lemma CompletionShape(env: Environment, s: State, p: Participant, task: Task)
    requires p.Contributor? && Records(env, s, p, task) && env.coordinatorVerifiers != []
    ensures var s', info := CompletedTask(env, s, p, task).0, s.current[p].CompletedTask(task).value;
      && s' == WithInfo(s, p, info).(pendingVerification := s'.pendingVerification)
      && task in s'.pendingVerification
      && (forall t :: t in s.pendingVerification ==> t in s'.pendingVerification)
      && SameOwner(s.current[p], info) && info.completedTasks == s.current[p].completedTasks + [task]
      && info.Activity().Ok?
  {
  }

  lemma ContributeCovered(env: Environment, x: Exec, p: Participant, task: Task)
    requires Good(env, x) && p.Contributor? && Records(env, x.s, p, task)
    ensures x.view.Running? && Covered(env, CompletedTask(env, x.s, p, task).0, x.view.n, x.view.bucket)
  {
    MemberActive(env, x, p);
    CompletionShape(env, x.s, p, task);
    var info := x.s.current[p].CompletedTask(task).value;
    CompleteConserves(x.s.current[p], x.view.bucket[p], env.chunks, x.view.n, task);
    RecordCovered(env, x.s, x.view.n, x.view.bucket, p, info);
    hide CompletedTask, AllActive, AllDone, Bijection, Sound, Accounted;
  }

  lemma ContributeAccounted(env: Environment, x: Exec, p: Participant, task: Task)
    requires Good(env, x) && p.Contributor? && Records(env, x.s, p, task)
    ensures var s', log := CompletedTask(env, x.s, p, task).0, x.log + [Completed(p, task)];
      && Accounted(s'.pendingVerification, log, s'.current)
      && Accounted(s'.pendingVerification, log, s'.Finished())
  {
    MemberActive(env, x, p);
    CompletionShape(env, x.s, p, task);
    var pending, pending' := x.s.pendingVerification, CompletedTask(env, x.s, p, task).0.pendingVerification;
    hide CompletedTask, Covered, Sound, Active;
    CompleteAccounted(pending, pending', x.log, x.s.current, p, task);
    CompleteAccounted(pending, pending', x.log, x.s.Finished(), p, task);
    NewAccounted(pending', x.log, x.s.current, p, x.s.current[p].CompletedTask(task).value, task);
    hide Accounted;
  }

  lemma ContributeGood(env: Environment, x: Exec, p: Participant, task: Task)
    requires Good(env, x) && p.Contributor?
    ensures Good(env, Next(env, x, Complete(p, task)))
  {
    CompleteSound(env, x.s, p, task);
    ContributeNext(env, x, p, task);
    if Records(env, x.s, p, task) {
      ContributeCovered(env, x, p, task);
      ContributeAccounted(env, x, p, task);
    }
    hide Next, Sound, Covered, Accounted, CompletedTask, Records;
  }

  lemma ContributeNext(env: Environment, x: Exec, p: Participant, task: Task)
    requires p.Contributor?
    ensures var x' := Next(env, x, Complete(p, task));
      && x'.s == CompletedTask(env, x.s, p, task).0 && x'.view == x.view
      && x'.log == if Records(env, x.s, p, task) then x.log + [Completed(p, task)] else x.log
    ensures !Records(env, x.s, p, task) ==> CompletedTask(env, x.s, p, task).0 == x.s
  {
    hide AddPendingVerification;
  }

  lemma NewAccounted(pending: map<Task, Participant>, log: seq<Event>, roster: Roster, p: Participant,
                     info: ParticipantInfo, task: Task)
    requires p in roster && Accounted(pending, log + [Completed(p, task)], roster) && task in pending
    requires info.completedTasks == roster[p].completedTasks + [task]
    ensures Accounted(pending, log + [Completed(p, task)], roster[p := info])
  {
    hide LastAbout;
  }

  lemma SubAccounted(pending: map<Task, Participant>, log: seq<Event>, roster: Roster, part: Roster)
    requires Accounted(pending, log, roster)
    requires forall p :: p in part ==> p in roster && forall t :: t in part[p].completedTasks ==> t in roster[p].completedTasks
    ensures Accounted(pending, log, part)
  {
    hide Pending;
  }

  lemma JoinAccounted(pending: map<Task, Participant>, log: seq<Event>, a: Roster, b: Roster)
    requires Accounted(pending, log, a) && Accounted(pending, log, b)
    ensures Accounted(pending, log, a + b)
  {
    hide Pending;
  }

  lemma MarkAccounted(s: State, log: seq<Event>, now: Time)
    requires Accounted(s.pendingVerification, log, s.current) && Accounted(s.pendingVerification, log, s.Finished())
    requires UpdateCurrentContributors(s, now).1.Ok?
    ensures var s' := UpdateCurrentContributors(s, now).0;
      && s'.pendingVerification == s.pendingVerification
      && Accounted(s.pendingVerification, log, s'.current) && Accounted(s.pendingVerification, log, s'.Finished())
  {
    var working, done := StillWorking(s, now), NewlyFinished(s, now);
    SubAccounted(s.pendingVerification, log, s.current, working);
    SubAccounted(s.pendingVerification, log, s.current, done);
    JoinAccounted(s.pendingVerification, log, s.Finished(), done);
    hide Accounted, StillWorking, NewlyFinished;
  }

  lemma MarkGood(env: Environment, x: Exec, now: Time)
    requires Good(env, x)
    ensures Good(env, Next(env, x, MarkFinished(now)))
  {
    MarkSound(env, x.s, now);
    if x.view.Running? {
      MarkCovered(env, x.s, x.view.n, x.view.bucket, now);
      MarkAccounted(x.s, x.log, now);
      hide UpdateCurrentContributors, Sound, Covered, Accounted;
    } else {
      assert StillWorking(x.s, now) == map[] && NewlyFinished(x.s, now) == map[];
      hide Sound;
    }
  }

  lemma FreshAccounted(env: Environment, roster: Roster, bucket: map<Participant, nat>, n: nat, height: nat,
                       pending: map<Task, Participant>)
    requires forall p :: p in roster ==> p in bucket && Fresh(env, p, roster[p], bucket[p], n, height)
    ensures Accounted(pending, [], roster)
  {
  }

  lemma CommitAccounted(env: Environment, s: State)
    requires Sound(env, s) && s.status == Precommit
    ensures var s' := CommitNextRound(s);
      Accounted(s'.pendingVerification, [], s'.current) && Accounted(s'.pendingVerification, [], s'.Finished())
  {
    CommitShape(env, s);
    hide Sound, CommitNextRound, Accounted;
  }

  lemma CommitGood(env: Environment, x: Exec)
    requires Good(env, x)
    ensures Good(env, Next(env, x, CommitRound))
  {
    CommitSound(env, x.s);
    if x.s.status == Precommit {
      CommitCovered(env, x.s);
      CommitAccounted(env, x.s);
      assert x.s.height.Some?;
      hide Sound, Covered, CommitNextRound, Accounted;
    }
    hide Sound, Covered;
  }

  lemma GoodRestartable(env: Environment, x: Exec)
    requires Good(env, x)
    ensures x.s.height.Some? && x.s.height.value in x.s.finished
    ensures 0 < x.s.height.value ==> Restartable(env, x.s)
    ensures Listed(x.s.current) && Listed(x.s.finished[x.s.height.value])
  {
    if x.view.Running? {
      CoveredRestartable(env, x.s, x.view.n, x.view.bucket);
    }
    hide Covered;
  }

  lemma ForceResetGood(env: Environment, x: Exec, working: seq<Participant>, done: seq<Participant>, now: Time)
    requires Good(env, x) && ResetOrder(x.s, working, done)
    ensures Good(env, Next(env, x, ForceReset(working, done, now)))
  {
    ResetSound(env, x.s, true, working, done, now);
    GoodRestartable(env, x);
    hide Sound, Covered, Accounted, Listed;
    if 0 < x.s.height.value {
      ResetCovers(env, x.s, true, working, done, now);
      hide ResetCurrentRound, Restartable;
    } else {
      assert ResetCurrentRound(env, x.s, true, working, done, now).1.Err?;
      hide Good;
    }
  }

  /** After a drop, what is left of the round can restart. */
  lemma AfterDropRestartable(env: Environment, s: State, p: Participant, now: Time)
    requires Restartable(env, s) && DropGuard(s, p).Ok? && BucketsKnown(env, s.current, s.metrics.value.contributors)
    ensures Restartable(env, AfterDrop(env, s, p, now))
  {
    var s1 := AfterDrop(env, s, p, now);
    assert forall q :: q in s1.current ==> q in s.current && SameOwner(s.current[q], s1.current[q]);
    assert s1.finished == s.finished && s1.height == s.height;
    hide AfterDrop, BucketsKnown;
    SubsetSize(s1.current.Keys, s.current.Keys);
  }

  lemma {:induction false} SubsetSize<T>(a: set<T>, b: set<T>)
    requires a <= b
    ensures |a| <= |b|
  {
    assert b == a + (b - a);
  }

  /** The round after a drop that nobody can replace: everyone left starts again. */
  lemma DropResets(env: Environment, x: Exec, p: Participant, working: seq<Participant>, done: seq<Participant>, now: Time)
    requires Good(env, x) && DropOrder(env, x.s, p, working, done, now)
    requires DropsMember(x.s, p) && env.coordinatorContributors == []
    ensures var s', keys := DropParticipant(env, x.s, p, working, done, now).0, working + done;
      && (keys == [] ==> s'.current == map[] && s'.Finished() == map[])
      && (keys != [] ==>
            && Covered(env, s', |keys|, Indices(keys))
            && Accounted(s'.pendingVerification, [], s'.current) && Accounted(s'.pendingVerification, [], s'.Finished()))
  {
    MemberActive(env, x, p);
    GoodRestartable(env, x);
    assert 0 < x.s.height.value by {
      assert Covered(env, x.s, x.view.n, x.view.bucket);
    }
    AfterDropSound(env, x.s, p, now);
    AfterDropRestartable(env, x.s, p, now);
    var s1, keys := AfterDrop(env, x.s, p, now), working + done;
    assert Listed(s1.current) && Listed(s1.finished[s1.height.value]);
    hide AfterDrop, Good, Sound, Active, Listed, DropGuard;
    ResetCovers(env, s1, false, working, done, now);
    var s' := ResetCurrentRound(env, s1, false, working, done, now).0;
    assert DropParticipant(env, x.s, p, working, done, now).0 == s';
    hide ResetCurrentRound, DropParticipant;
    if keys != [] {
      FreshCovered(env, s', keys, s1.current.Keys + s1.finished[s1.height.value].Keys, s1.height.value);
    }
    hide Covered, Accounted, FreshRoster;
  }

  ghost function ViewOf(keys: seq<Participant>): View {
    if keys == [] then NoRound else Running(|keys|, Indices(keys))
  }

  lemma DropResetNext(env: Environment, x: Exec, p: Participant, working: seq<Participant>, done: seq<Participant>, now: Time)
    requires DropOrder(env, x.s, p, working, done, now)
    requires DropsMember(x.s, p) && env.coordinatorContributors == []
    ensures Next(env, x, Drop(p, working, done, now)) ==
      Exec(DropParticipant(env, x.s, p, working, done, now).0, ViewOf(working + done), [])
  {
    hide DropParticipant;
  }

  lemma DropResetGood(env: Environment, x: Exec, p: Participant, working: seq<Participant>, done: seq<Participant>, now: Time)
    requires Good(env, x) && DropOrder(env, x.s, p, working, done, now)
    requires DropsMember(x.s, p) && env.coordinatorContributors == []
    ensures Good(env, Next(env, x, Drop(p, working, done, now)))
  {
    assert env.coordinatorVerifiers != [];
    DropSound(env, x.s, p, working, done, now);
    DropResets(env, x, p, working, done, now);
    DropResetNext(env, x, p, working, done, now);
    hide Sound, Covered, Accounted, DropParticipant, DropsMember, Next;
  }

  /** A round of fresh members, one per position, is covered and has nothing to account for. */
  lemma FreshCovered(env: Environment, s: State, keys: seq<Participant>, all: set<Participant>, height: nat)
    requires env.coordinatorContributors == [] && 0 < height
    requires s.height == Some(height) && s.finished == map[height := map[]]
    requires FreshRoster(env, s.current, keys, all, height)
    ensures Covered(env, s, |keys|, Indices(keys))
    ensures Accounted(s.pendingVerification, [], s.current) && Accounted(s.pendingVerification, [], s.Finished())
  {
    forall p | p in s.current ensures Active(env, p, s.current[p], Indices(keys)[p], |keys|, height) {
      FreshActive(env, p, s.current[p], Indices(keys)[p], |keys|, height);
    }
    FreshAccounted(env, s.current, Indices(keys), |keys|, height, s.pendingVerification);
  }

  lemma AfterDropAccounted(env: Environment, s: State, log: seq<Event>, p: Participant, now: Time)
    requires DropGuard(s, p).Ok? && BucketsKnown(env, s.current, s.metrics.value.contributors)
    requires Accounted(s.pendingVerification, log, s.current)
    ensures Accounted(s.pendingVerification, log, AfterDrop(env, s, p, now).current)
  {
    var s1 := AfterDrop(env, s, p, now);
    var lost := ByChunk(s.current[p].completedTasks);
    hide Accounted, BucketsKnown;
    forall q, t | q in s1.current && t in s1.current[q].completedTasks ensures t in s.current[q].completedTasks {
      FilterMember(s.current[q].completedTasks, (u: Task) => !BuiltOn(lost, u), t);
    }
    SubAccounted(s.pendingVerification, log, s.current, s1.current);
  }

  lemma DropReplaceAccounted(env: Environment, x: Exec, p: Participant, now: Time)
    requires Good(env, x) && env.coordinatorContributors != [] && DropGuard(x.s, p).Ok?
    ensures var (s', r) := AddReplacement(env, AfterDrop(env, x.s, p, now), x.s.current[p].bucket, now);
      r.Ok? && Accounted(x.s.pendingVerification, x.log, s'.current)
  {
    GoodMember(env, x, p);
    assert env.Valid() && Accounted(x.s.pendingVerification, x.log, x.s.current);
    hide Good, Covered, BucketsKnown, DropGuard;
    AfterDropAccounted(env, x.s, x.log, p, now);
    ReplaceResult(env, x.s, x.view.n, x.view.bucket, p, now);
    hide AfterDrop, AddReplacement, Active, AllActive, Numbered, Replacement, Pending;
  }

  lemma DropIsReplacement(env: Environment, s: State, p: Participant, working: seq<Participant>, done: seq<Participant>, now: Time)
    requires DropOrder(env, s, p, working, done, now) && DropsMember(s, p) && env.coordinatorContributors != []
    ensures DropParticipant(env, s, p, working, done, now).0 ==
      AddReplacement(env, AfterDrop(env, s, p, now), s.current[p].bucket, now).0
  {
    hide AfterDrop, AddReplacement;
  }

  lemma DropReplaces(env: Environment, x: Exec, p: Participant, now: Time)
    requires Good(env, x) && DropsMember(x.s, p) && env.coordinatorContributors != []
    requires FreeReplacement(env, x.s, p)
    ensures var s' := AddReplacement(env, AfterDrop(env, x.s, p, now), x.s.current[p].bucket, now).0;
      && x.view.Running? && p in x.view.bucket
      && Covered(env, s', x.view.n, Reassign(x.view.bucket, p, Replacement(env, x.s, p, now)))
      && s'.pendingVerification == x.s.pendingVerification && s'.Finished() == x.s.Finished()
      && Accounted(x.s.pendingVerification, x.log, s'.current)
  {
    GoodMember(env, x, p);
    assert env.Valid();
    assert AfterDrop(env, x.s, p, now).pendingVerification == x.s.pendingVerification;
    hide Good, Covered, Accounted, AfterDrop, AddReplacement, DropGuard, FreeReplacement, OutsideRound;
    ReplacementIff(env, x.s, x.view.n, x.view.bucket, p, now);
    ReplaceCovers(env, x.s, x.view.n, x.view.bucket, p, now);
    DropReplaceAccounted(env, x, p, now);
    ReplaceResult(env, x.s, x.view.n, x.view.bucket, p, now);
    hide AllActive, Active, Numbered, Replacement, Reassign;
  }

  /** What a drop of a member of a good execution can rely on. */
  lemma GoodMember(env: Environment, x: Exec, p: Participant)
    requires Good(env, x) && p in x.s.current
    ensures x.view.Running? && p in x.view.bucket && Covered(env, x.s, x.view.n, x.view.bucket)
    ensures x.s.metrics.Some? && BucketsKnown(env, x.s.current, x.s.metrics.value.contributors)
    ensures env.coordinatorContributors != [] ==> x.s.metrics.value.contributors == x.view.n
  {
  }

  lemma DropReplaceGood(env: Environment, x: Exec, p: Participant, working: seq<Participant>, done: seq<Participant>, now: Time)
    requires Good(env, x) && DropOrder(env, x.s, p, working, done, now)
    requires DropsMember(x.s, p) && env.coordinatorContributors != [] && FreeReplacement(env, x.s, p)
    ensures Good(env, Next(env, x, Drop(p, working, done, now)))
  {
    DropSound(env, x.s, p, working, done, now);
    assert env.coordinatorVerifiers != [] && Accounted(x.s.pendingVerification, x.log, x.s.Finished());
    DropReplaces(env, x, p, now);
    DropIsReplacement(env, x.s, p, working, done, now);
    DropReplaceNext(env, x, p, working, done, now);
    hide Sound, Covered, Accounted, DropParticipant, Replacement, AddReplacement, AfterDrop, Next;
  }

  lemma DropReplaceNext(env: Environment, x: Exec, p: Participant, working: seq<Participant>, done: seq<Participant>, now: Time)
    requires DropOrder(env, x.s, p, working, done, now) && x.view.Running? && p in x.view.bucket
    requires DropsMember(x.s, p) && env.coordinatorContributors != []
    requires x.s.metrics.Some? && BucketsKnown(env, x.s.current, x.s.metrics.value.contributors)
    ensures Next(env, x, Drop(p, working, done, now)) ==
      Exec(DropParticipant(env, x.s, p, working, done, now).0,
           x.view.(bucket := Reassign(x.view.bucket, p, Replacement(env, x.s, p, now))), x.log)
  {
    hide DropParticipant, Replacement;
  }

  lemma DropAsideGood(env: Environment, x: Exec, p: Participant, working: seq<Participant>, done: seq<Participant>, now: Time)
    requires Good(env, x) && DropOrder(env, x.s, p, working, done, now) && !DropsMember(x.s, p)
    ensures Good(env, Next(env, x, Drop(p, working, done, now)))
  {
    DropSound(env, x.s, p, working, done, now);
    var s' := DropParticipant(env, x.s, p, working, done, now).0;
    assert x.s.metrics.Some?;
    hide Good, Sound;
    assert s' == x.s.(queue := s'.queue, next := s'.next, status := s'.status);
    hide DropParticipant;
    AsideGood(env, x, s');
  }

  lemma DropGood(env: Environment, x: Exec, p: Participant, working: seq<Participant>, done: seq<Participant>, now: Time)
    requires Good(env, x) && DropOrder(env, x.s, p, working, done, now)
    requires Careful(env, x.s, Drop(p, working, done, now))
    ensures Good(env, Next(env, x, Drop(p, working, done, now)))
  {
    hide Good, Next, DropOrder, FreeReplacement;
    if !DropsMember(x.s, p) {
      DropAsideGood(env, x, p, working, done, now);
    } else if env.coordinatorContributors == [] {
      DropResetGood(env, x, p, working, done, now);
    } else {
      DropReplaceGood(env, x, p, working, done, now);
    }
  }

  lemma BannedGood(env: Environment, x: Exec, banned: set<Participant>)
    requires Good(env, x)
    ensures Good(env, x.(s := x.s.(banned := banned)))
  {
    BannedSound(env, x.s, banned);
    assert x.s.metrics.Some?;
    hide Good, Sound;
    AsideGood(env, x, x.s.(banned := banned));
  }

  lemma BanGood(env: Environment, x: Exec, p: Participant, working: seq<Participant>, done: seq<Participant>, now: Time)
    requires Good(env, x) && DropOrder(env, x.s, p, working, done, now)
    requires Careful(env, x.s, Ban(p, working, done, now))
    ensures Good(env, Next(env, x, Ban(p, working, done, now)))
  {
    hide Good, DropOrder, DropsMember, FreeReplacement;
    BanNext(env, x, p, working, done, now);
    hide Next;
    if p !in x.s.banned {
      assert Careful(env, x.s, Drop(p, working, done, now));
      DropGood(env, x, p, working, done, now);
      var x' := Next(env, x, Drop(p, working, done, now));
      BannedGood(env, x', Next(env, x, Ban(p, working, done, now)).s.banned);
    }
  }

  /** A ban is a drop, apart from who is banned. */
  lemma BanNext(env: Environment, x: Exec, p: Participant, working: seq<Participant>, done: seq<Participant>, now: Time)
    requires DropOrder(env, x.s, p, working, done, now)
    ensures p in x.s.banned ==> Next(env, x, Ban(p, working, done, now)) == x
    ensures var x', x2 := Next(env, x, Drop(p, working, done, now)), Next(env, x, Ban(p, working, done, now));
      p !in x.s.banned ==> x2 == x'.(s := x'.s.(banned := x2.s.banned))
  {
    hide DropParticipant, DropsMember;
  }

  lemma StepGood(env: Environment, x: Exec, op: Op)
    requires Good(env, x) && Possible(env, x.s, op) && Careful(env, x.s, op)
    ensures Good(env, Next(env, x, op))
  {
    hide Good, Next;
    match op
    case CommitRound => CommitGood(env, x);
    case Fetch(p) => FetchGood(env, x, p);
    case Lock(p, chunk) => LockGood(env, x, p, chunk);
    case Dispose(p, task) => DisposeGood(env, x, p, task);
    case Unfetch(_, _) => RollbackGood(env, x, op);
    case Unlock(_, _) => RollbackGood(env, x, op);
    case Complete(p, task) =>
      if p.Verifier? {
        VerifyGood(env, x, p, task);
      } else {
        ContributeGood(env, x, p, task);
      }
    case MarkFinished(now) => MarkGood(env, x, now);
    case ForceReset(working, done, now) => ForceResetGood(env, x, working, done, now);
    case Drop(p, working, done, now) => DropGood(env, x, p, working, done, now);
    case Ban(p, working, done, now) => BanGood(env, x, p, working, done, now);
    case _ => AsideOps(env, x, op);
  }

  // ----- the theorems

  /** A careful run: from a fresh coordinator, by any operations, with the view and the log kept along. */
  ghost predicate CarefulRun(env: Environment, xs: seq<Exec>, ops: seq<Op>) {
    && env.Valid() && env.coordinatorVerifiers != []
    && |xs| == |ops| + 1
    && (exists height: nat :: xs[0] == Exec(Initialize(NEW_STATE, height), NoRound, []))
    && forall i :: 0 <= i < |ops| ==>
         Possible(env, xs[i].s, ops[i]) && Careful(env, xs[i].s, ops[i]) && xs[i + 1] == Next(env, xs[i], ops[i])
  }

  lemma {:induction false} RunGood(env: Environment, xs: seq<Exec>, ops: seq<Op>, i: nat)
    requires CarefulRun(env, xs, ops) && i < |xs|
    ensures Good(env, xs[i])
  {
    hide Good;
    if i > 0 {
      RunGood(env, xs, ops, i - 1);
      StepGood(env, xs[i - 1], ops[i - 1]);
    } else {
      var height: nat :| xs[0] == Exec(Initialize(NEW_STATE, height), NoRound, []);
      InitialGood(env, height);
    }
  }

  lemma InitialGood(env: Environment, height: nat)
    requires env.Valid() && env.coordinatorVerifiers != []
    ensures Good(env, Exec(Initialize(NEW_STATE, height), NoRound, []))
  {
    InitialSound(env, height);
  }

  /** Everyone in the round, working or finished. */
  function Everyone(s: State): Roster { s.current + s.Finished() }

  predicate InRange(env: Environment, n: nat, t: Task) { t.chunk < env.chunks && 1 <= t.contribution <= n }

  /** How often the participant holds the task. */
  ghost function Share(s: State, p: Participant, t: Task): nat {
    if p in Everyone(s) then Held(Everyone(s)[p])[t] else 0
  }

  lemma ShareInBucket(env: Environment, x: Exec, p: Participant, t: Task)
    requires Good(env, x) && x.view.Running? && p in Everyone(x.s)
    ensures p in x.view.bucket && ValidBucket(x.view.bucket[p], env.chunks, x.view.n)
    ensures Share(x.s, p, t) ==
      if InRange(env, x.view.n, t) && x.view.bucket[p] == Owner(t.chunk, t.contribution, env.chunks, x.view.n) then 1 else 0
  {
    var b := x.view.bucket[p];
    assert Conserved(Everyone(x.s)[p], b, env.chunks, x.view.n);
    hide Good;
    BucketCount(b, env.chunks, x.view.n, t);
    EveryPairOnce(t.chunk, t.contribution, b, env.chunks, x.view.n);
  }

  /** The member whose bucket holds the task. */
  lemma HolderExists(env: Environment, x: Exec, t: Task) returns (p: Participant)
    requires Good(env, x) && x.view.Running? && InRange(env, x.view.n, t)
    ensures p in Everyone(x.s) && x.view.n <= env.chunks
    ensures x.view.bucket[p] == Owner(t.chunk, t.contribution, env.chunks, x.view.n)
  {
    CoveredRestartable(env, x.s, x.view.n, x.view.bucket);
    var b := Owner(t.chunk, t.contribution, env.chunks, x.view.n);
    assert Taken(x.view.bucket, b);
    p :| p in x.view.bucket && x.view.bucket[p] == b;
  }

  /**
    Conservation. In every state of every careful run in which a round of `n` is running, every
    task in range is held by exactly one member, once, and no member holds anything else.
   */
  lemma TasksConserved(env: Environment, xs: seq<Exec>, ops: seq<Op>, i: nat, t: Task)
    requires CarefulRun(env, xs, ops) && i < |xs| && xs[i].view.Running?
    ensures InRange(env, xs[i].view.n, t) ==>
      exists p :: Share(xs[i].s, p, t) == 1 && forall q :: q != p ==> Share(xs[i].s, q, t) == 0
    ensures !InRange(env, xs[i].view.n, t) ==> forall q :: Share(xs[i].s, q, t) == 0
  {
    RunGood(env, xs, ops, i);
    var x := xs[i];
    if InRange(env, x.view.n, t) {
      var p := HolderExists(env, x, t);
      ShareInBucket(env, x, p, t);
      forall q | q != p ensures Share(x.s, q, t) == 0 {
        if q in Everyone(x.s) {
          ShareInBucket(env, x, q, t);
          assert Bijection(x.view.bucket, x.view.n);
        }
      }
    } else {
      forall q ensures Share(x.s, q, t) == 0 {
        if q in Everyone(x.s) {
          ShareInBucket(env, x, q, t);
        }
      }
    }
  }

  /** Completed by this finished contributor and by no other, and verified after the last completion. */
  ghost predicate Settled(x: Exec, p: Participant, t: Task) {
    && p in x.s.Finished()
    && t in x.s.Finished()[p].completedTasks
    && Completed(p, t) in x.log
    && LastAbout(x.log, t) == Some(Verified(t))
    && forall q :: q in x.s.Finished() && t in x.s.Finished()[q].completedTasks ==> q == p
  }

  /**
    A finished round is a fully done round: whenever a careful run shows the current round as
    finished, every (chunk, contribution) pair was completed by exactly one finished contributor
    and verified after its latest completion.
   */
  lemma FinishedRoundIsDone(env: Environment, xs: seq<Exec>, ops: seq<Op>, i: nat, t: Task)
    requires CarefulRun(env, xs, ops) && i < |xs| && xs[i].view.Running? && xs[i].s.IsRoundFinished()
    requires InRange(env, xs[i].view.n, t)
    ensures exists p :: Settled(xs[i], p, t)
  {
    hide CarefulRun, Good, Settled;
    RunGood(env, xs, ops, i);
    var p := Settler(env, xs[i], t);
  }

  lemma Settler(env: Environment, x: Exec, t: Task) returns (p: Participant)
    requires Good(env, x) && x.view.Running? && x.s.IsRoundFinished() && InRange(env, x.view.n, t)
    ensures Settled(x, p, t)
  {
    assert Accounted(x.s.pendingVerification, x.log, x.s.Finished());
    hide Good;
    p := HolderExists(env, x, t);
    ShareInBucket(env, x, p, t);
    FinishedShare(env, x, p, t);
    FinishedOnce(env, x, p, t);
    hide Share;
  }

  lemma FinishedOnce(env: Environment, x: Exec, p: Participant, t: Task)
    requires Good(env, x) && x.view.Running? && x.s.IsRoundFinished()
    requires p in x.view.bucket && InRange(env, x.view.n, t) && x.view.n <= env.chunks
    requires x.view.bucket[p] == Owner(t.chunk, t.contribution, env.chunks, x.view.n)
    ensures forall q :: q in x.s.Finished() && t in x.s.Finished()[q].completedTasks ==> q == p
  {
    assert Bijection(x.view.bucket, x.view.n);
    hide Good;
    forall q | q in x.s.Finished() && t in x.s.Finished()[q].completedTasks ensures q == p {
      ShareInBucket(env, x, q, t);
      FinishedShare(env, x, q, t);
    }
  }

  lemma FinishedShare(env: Environment, x: Exec, p: Participant, t: Task)
    requires Good(env, x) && x.view.Running? && x.s.IsRoundFinished() && p in Everyone(x.s)
    ensures p in x.s.Finished()
    ensures Share(x.s, p, t) > 0 <==> t in x.s.Finished()[p].completedTasks
  {
    assert Done(env, x.s.Finished()[p], x.view.bucket[p], x.view.n, x.s.height.value);
    hide Good;
    InMultiset(x.s.Finished()[p].completedTasks, t);
  }
}
