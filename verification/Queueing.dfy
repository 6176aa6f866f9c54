/** The queue: who is assigned to which round, and who the next round takes. */
module Queueing {
  import opened Wrappers
  import opened Arith
  import opened Lists
  import opened Participants
  import opened Ceremony
  import opened Rounds

  /** A filter keeps whatever relation holds between earlier and later elements. */
  lemma {:induction false} FilterPairs<T>(s: seq<T>, keep: T -> bool, rel: (T, T) -> bool)
    requires forall i, j :: 0 <= i < j < |s| ==> rel(s[i], s[j])
    ensures forall i, j :: 0 <= i < j < |Filter(s, keep)| ==> rel(Filter(s, keep)[i], Filter(s, keep)[j])
  {
    if s != [] {
      FilterPairs(s[1..], keep, rel);
      forall x | x in Filter(s[1..], keep) ensures rel(s[0], x) {
        FilterMember(s[1..], keep, x);
        var j :| 0 <= j < |s[1..]| && s[1..][j] == x;
        assert rel(s[0], s[j + 1]);
      }
    }
  }

  /** The line of eligible contributors, without repetition and by time of joining. */
  lemma LineOrdered(s: State, order: seq<Participant>)
    requires QueueOrder(s, order)
    ensures var line := Eligible(s, order);
      && Distinct(line)
      && (forall p :: p in line <==> p in s.queue && p.Contributor? && p !in s.banned)
      && (forall i, j :: 0 <= i < j < |line| ==> s.queue[line[i]].joined <= s.queue[line[j]].joined)
  {
    var keep := (p: Participant) => p.Contributor? && p !in s.banned;
    EligibleInQueue(s, order);
    FilterPairs(order, keep, (p: Participant, q: Participant) => p != q);
    FilterPairs(order, keep, (p: Participant, q: Participant) =>
      p in s.queue && q in s.queue && s.queue[p].joined <= s.queue[q].joined);
  }

  /**
    Fairness. Updating the queue keeps exactly the contributors that are not banned, changes
    nothing but their assigned round, and never assigns a strictly earlier joiner a later round.
   */
  lemma QueueFair(env: Environment, s: State, order: seq<Participant>)
    requires s.height.Some? && 0 < env.maximumContributors && QueueOrder(s, order)
    ensures var queue := UpdateQueue(env, s, order).queue;
      && (forall p :: p in queue <==> p in s.queue && p.Contributor? && p !in s.banned)
      && (forall p :: p in queue ==> queue[p].round.Some? && queue[p] == s.queue[p].(round := queue[p].round))
      && (forall p, q :: p in queue && q in queue && queue[p].joined < queue[q].joined ==>
            queue[p].round.value <= queue[q].round.value)
  {
    LineOrdered(s, order);
    var line, queue := Eligible(s, order), UpdateQueue(env, s, order).queue;
    forall p, q | p in queue && q in queue && queue[p].joined < queue[q].joined
      ensures queue[p].round.value <= queue[q].round.value
    {
      assert Position(line, p) < Position(line, q);
      DivMonotone(Position(line, p), Position(line, q), env.maximumContributors);
    }
  }

  /** The i-th block of `max` in line; the last one may be shorter. */
  function Block(line: seq<Participant>, max: nat, i: nat): (r: seq<Participant>)
    ensures |r| == if |line| <= i * max then 0 else Min(max, |line| - i * max)
  {
    var lo := Min(i * max, |line|);
    line[lo..Min(lo + max, |line|)]
  }

  /**
    Tightness. The i-th round after the current one is assigned exactly the i-th block of the
    line: every round is filled to the maximum before the next one gets anybody.
   */
  lemma QueueTight(env: Environment, s: State, order: seq<Participant>, i: nat)
    requires s.height.Some? && 0 < env.maximumContributors && QueueOrder(s, order)
    ensures var block := Block(Eligible(s, order), env.maximumContributors, i);
      Enumerates(block, AssignedTo(UpdateQueue(env, s, order).queue, s.height.value + 1 + i))
  {
    LineOrdered(s, order);
    var line, max := Eligible(s, order), env.maximumContributors;
    var members := AssignedTo(UpdateQueue(env, s, order).queue, s.height.value + 1 + i);
    assert forall p :: p in members <==> p in line && Position(line, p) / max == i;
    hide QueueOrder, Eligible, UpdateQueue, UpdatedQueue, AssignedTo, Position;
    BlockMembers(line, max, i, members);
  }

  lemma BlockMembers(line: seq<Participant>, max: nat, i: nat, members: set<Participant>)
    requires Distinct(line) && 0 < max
    requires forall p :: p in members <==> p in line && Position(line, p) / max == i
    ensures Enumerates(Block(line, max, i), members)
  {
    forall p ensures p in Block(line, max, i) <==> p in members {
      if p in line {
        InBlock(line, p, max, i);
      }
    }
  }

  lemma InBlock(line: seq<Participant>, p: Participant, max: nat, i: nat)
    requires Distinct(line) && p in line && 0 < max
    ensures var lo := Min(i * max, |line|); var hi := Min(lo + max, |line|);
      p in line[lo..hi] <==> Position(line, p) / max == i
  {
    var lo := Min(i * max, |line|);
    BlockIndex(Position(line, p), max, i);
    hide Distinct;
  }

  lemma BlockIndex(k: nat, max: nat, i: nat)
    requires 0 < max
    ensures i * max <= k < i * max + max <==> k / max == i
  {
    if i * max <= k < i * max + max {
      DivUnique(k, max, i, k - i * max);
    } else {
      assert k == (k / max) * max + k % max;
    }
  }

  /** A successful precommit stages everyone assigned to the round, buckets by falling reliability. */
  lemma PrecommitByReliability(env: Environment, s: State, height: nat, chosen: seq<Participant>, now: Time)
    requires ReliabilityOrder(s.queue, height, chosen) && PrecommitNextRound(env, s, height, chosen, now).1.Ok?
    ensures var next := PrecommitNextRound(env, s, height, chosen, now).0.next;
      && next.Keys == AssignedTo(s.queue, height)
      && Staged(env, next, height)
      && forall p, q :: p in next && q in next && next[p].bucket < next[q].bucket ==>
           s.queue[p].reliability >= s.queue[q].reliability
  {
    assert 0 < height && Stage(env, s, chosen, height, now, |chosen|).Ok?;
    PrecommitStages(env, s, height, chosen, now);
    StageAll(env, s, chosen, height, now, |chosen|);
    var staged := Stage(env, s, chosen, height, now, |chosen|).value;
    assert PrecommitNextRound(env, s, height, chosen, now).0.next == staged;
    assert chosen[..|chosen|] == chosen;
    hide Stage, PrecommitGuard, PrecommitNextRound, Staged, AssignedTo;
    forall p, q | p in staged && q in staged && staged[p].bucket < staged[q].bucket
      ensures s.queue[p].reliability >= s.queue[q].reliability
    {
      var i :| 0 <= i < |chosen| && chosen[i] == p;
      var j :| 0 <= j < |chosen| && chosen[j] == q;
      assert StagedAt(env, s, chosen, staged, height, i) && StagedAt(env, s, chosen, staged, height, j);
    }
  }

  /** A precommit right after a queue update takes exactly the first min(max, n) in line. */
  lemma PrecommitTakesFirst(env: Environment, s: State, order: seq<Participant>, s1: State, chosen: seq<Participant>, now: Time)
    requires s.height.Some? && 0 < env.maximumContributors && QueueOrder(s, order) && s1 == UpdateQueue(env, s, order)
    requires ReliabilityOrder(s1.queue, s.height.value + 1, chosen)
    requires PrecommitNextRound(env, s1, s.height.value + 1, chosen, now).1.Ok?
    ensures var line, s2 := Eligible(s, order), PrecommitNextRound(env, s1, s.height.value + 1, chosen, now).0;
      Enumerates(line[..Min(env.maximumContributors, |line|)], s2.next.Keys)
  {
    hide QueueOrder, Eligible, ReliabilityOrder, AssignedTo, Block, UpdateQueue, PrecommitNextRound, Enumerates, Staged;
    var height, line := s.height.value + 1, Eligible(s, order);
    FirstBlock(line, env.maximumContributors);
    QueueTight(env, s, order, 0);
    PrecommitByReliability(env, s1, height, chosen, now);
  }

  lemma FirstBlock(line: seq<Participant>, max: nat)
    ensures Block(line, max, 0) == line[..Min(max, |line|)]
  {
  }
}
