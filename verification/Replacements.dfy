/**
  A member is replaced, in the state and in storage: the stored round lists exactly the members of
  the round again, and nobody holds a lock for the one that left.
 */
module Replacements {
  import opened Wrappers
  import opened Lists
  import opened Participants
  import opened Ceremony
  import opened Conservation
  import opened Drops
  import opened Stores
  import opened Joint
  import opened JointRuns
  import StoredRules
  import Bookkeeping

  /** What the drop of a member with a replacement does in both places. */
  lemma ReplacementIsDrop(env: Environment, b: Both, p: Participant, working: seq<Participant>, done: seq<Participant>, now: Time)
    requires Replaceable(env, b.x, p) && DropsMember(b.x.s, p) && DropOrder(env, b.x.s, p, working, done, now)
    ensures Replaced(env, b.x, p, now).1.Ok?
    ensures var (s', q) := Replaced(env, b.x, p, now);
      var b' := TryDrop(env, b, p, working, done, now);
      b'.x.s == s' && b'.t == StoreAfterDrop(b.x.s, b.t, p, q.value)
  {
    ReplacedOk(env, b.x, p, now);
    assert p in b.x.s.current;
    hide Good, FreeReplacement, BucketsKnown, AfterDrop, AddReplacement, WithReplacement, InQueue, ByChunk;
    DropNextIs(env, b.x, p, working, done, now);
    hide DropNext, DropGuard;
  }

  lemma DropNextIs(env: Environment, x: Exec, p: Participant, working: seq<Participant>, done: seq<Participant>, now: Time)
    requires DropOrder(env, x.s, p, working, done, now)
    ensures DropNext(env, x, p, working, done, now).s == DropParticipant(env, x.s, p, working, done, now).0
  {
    hide DropParticipant, DropOrder;
  }

  /** The stored round lists exactly the members, `q` last, and `p` is listed only if it is `q`, and has no lock. */
  ghost predicate TakenOver(b: Both, h: nat, p: Participant, q: Participant) {
    && b.t.height == h && h in b.t.rounds
    && var round := b.t.rounds[h];
    && Enumerates(round.contributors, Everyone(b.x.s).Keys)
    && round.contributors != [] && round.contributors[|round.contributors| - 1] == q
    && (p in round.contributors ==> p == q)
    && forall c :: 0 <= c < |round.chunks| ==> round.chunks[c].holder != Some(p)
  }

  /**
    When a member of a round in step is replaced, the stored round lists exactly the members of the
    round again, the replacement last, and the dropped one holds no lock any more.
   */
  lemma ReplacedInBoth(env: Environment, b: Both, p: Participant, working: seq<Participant>, done: seq<Participant>, now: Time)
    requires InStep(env, b) && Rostered(b) && Replaceable(env, b.x, p) && DropsMember(b.x.s, p)
    requires DropOrder(env, b.x.s, p, working, done, now)
    ensures Replaced(env, b.x, p, now).1.Ok?
    ensures TakenOver(TryDrop(env, b, p, working, done, now), b.t.height, p, Replaced(env, b.x, p, now).1.value)
  {
    MemberInStep(env, b, p) by { hide Good, Replaceable; }
    hide InStep, Replaceable, DropsMember, DropOrder, TryDrop, Replaced, Rostered, Enumerates, TakenOver, Everyone, Lost,
      WithReplacement, Orderly, Good;
    ReplacementIsDrop(env, b, p, working, done, now);
    ReplacedKeys(env, b.x, p, now);
    RosteredNow(env, b);
    forall c | 0 <= c < |b.t.rounds[b.t.height].chunks| && b.t.rounds[b.t.height].chunks[c].holder == Some(p)
      ensures c in b.x.s.current[p].locked
    {
      Bookkeeping.HolderPending(env, b, p, c);
    }
    TakesOver(b, TryDrop(env, b, p, working, done, now), p, Replaced(env, b.x, p, now).1.value);
  }

  lemma TakesOver(b: Both, b': Both, p: Participant, q: Participant)
    requires b.t.height in b.t.rounds && Enumerates(b.t.rounds[b.t.height].contributors, Everyone(b.x.s).Keys)
    requires p in b.x.s.current && b'.t == StoreAfterDrop(b.x.s, b.t, p, q)
    requires Everyone(b'.x.s).Keys == (Everyone(b.x.s).Keys - {p}) + {q} && (q !in Everyone(b.x.s) || q == p)
    requires forall c :: 0 <= c < |b.t.rounds[b.t.height].chunks| && b.t.rounds[b.t.height].chunks[c].holder == Some(p) ==>
      c in b.x.s.current[p].locked
    ensures TakenOver(b', b.t.height, p, q)
  {
    hide Enumerates, Everyone, Lost, WithReplacement;
    ReplacedList(b.t.rounds[b.t.height].contributors, Everyone(b.x.s).Keys, p, q);
    ReplacedStore(b.t, p, b.x.s.current[p].locked, Lost(b.x.s, p), q);
  }

  /** The members of the round after a replacement. */
  lemma ReplacedKeys(env: Environment, x: Exec, p: Participant, now: Time)
    requires Replaceable(env, x, p)
    ensures Replaced(env, x, p, now).1.Ok?
    ensures var (s', q) := Replaced(env, x, p, now);
      && Everyone(s').Keys == (Everyone(x.s).Keys - {p}) + {q.value} && (q.value !in Everyone(x.s) || q.value == p)
  {
    ReplacedOk(env, x, p, now);
    assert p in x.s.current && env.Valid();
    GoodMember(env, x, p);
    hide Good, Covered, BucketsKnown, DropGuard, FreeReplacement, AfterDrop, AddReplacement, Replacement, Everyone;
    var n, bucket := x.view.n, x.view.bucket;
    ReplacementChosen(env, x.s, n, bucket, p, now);
    ReplaceKeys(env, x.s, n, bucket, p, now);
    ReplacementIff(env, x.s, n, bucket, p, now);
    CoveredApart(env, x.s, n, bucket);
    KeysAfter(x.s, AddReplacement(env, AfterDrop(env, x.s, p, now), x.s.current[p].bucket, now).0, p, Replacement(env, x.s, p, now));
  }

  lemma ReplacementChosen(env: Environment, s: State, n: nat, bucket: map<Participant, nat>, p: Participant, now: Time)
    requires env.Valid() && env.coordinatorContributors != []
    requires Covered(env, s, n, bucket) && DropGuard(s, p).Ok? && BucketsKnown(env, s.current, n)
    ensures s.metrics.Some? && s.metrics.value.contributors == n
    ensures AddReplacement(env, AfterDrop(env, s, p, now), s.current[p].bucket, now).1 == Ok(Replacement(env, s, p, now))
  {
    ReplaceResult(env, s, n, bucket, p, now);
    hide *;
  }

  lemma KeysAfter(s: State, s': State, p: Participant, q: Participant)
    requires s'.height == s.height && s'.finished == s.finished && s'.current.Keys == (s.current.Keys - {p}) + {q}
    requires s.current.Keys !! s.Finished().Keys && p in s.current && OutsideRound(s, p, q)
    ensures Everyone(s').Keys == (Everyone(s).Keys - {p}) + {q} && (q !in Everyone(s) || q == p)
  {
    assert s'.Finished() == s.Finished();
  }

  /** State and storage agree on a chunk after a replacement exactly when nobody finished had worked on it after the dropped one. */
  lemma ReplacedAgreesIff(env: Environment, b: Both, p: Participant, working: seq<Participant>, done: seq<Participant>,
                          now: Time, c: nat)
    requires InStep(env, b) && Replaceable(env, b.x, p) && DropsMember(b.x.s, p) && DropOrder(env, b.x.s, p, working, done, now)
    requires c < env.chunks
    ensures var b' := TryDrop(env, b, p, working, done, now);
      AgreeOn(b'.x.s, b'.t, c) <==> !Strands(b.x.s, Lost(b.x.s, p), c)
  {
    hide InStep, Replaceable, DropsMember, DropOrder, TryDrop, Replaced, AgreeOn, Strands;
    ReplacementIsDrop(env, b, p, working, done, now);
    DropAgreesIff(env, b, p, now, c);
  }

  lemma RosteredNow(env: Environment, b: Both)
    requires InStep(env, b) && Rostered(b) && b.x.view.Running?
    ensures b.t.height in b.t.rounds && Enumerates(b.t.rounds[b.t.height].contributors, Everyone(b.x.s).Keys)
  {
    StepIsGood(env, b);
    hide InStep, Good, Enumerates;
    EveryoneIs(env, b.x);
  }

  lemma ReplacedList(contributors: seq<Participant>, members: set<Participant>, p: Participant, q: Participant)
    requires Enumerates(contributors, members) && (q !in members || q == p)
    ensures Enumerates(Others(contributors, p) + [q], (members - {p}) + {q})
    ensures p in Others(contributors, p) + [q] ==> p == q
  {
    StoredRules.OthersListed(contributors, p, q);
    hide Others, Distinct;
  }

  lemma ReplacedStore(t: Store, p: Participant, locked: set<nat>, lost: map<nat, nat>, q: Participant)
    requires t.height in t.rounds
    requires forall c :: 0 <= c < |t.rounds[t.height].chunks| && t.rounds[t.height].chunks[c].holder == Some(p) ==> c in locked
    ensures var t' := WithReplacement(t, p, locked, lost, q);
      && t'.height == t.height && t.height in t'.rounds
      && t'.rounds[t.height].contributors == Others(t.rounds[t.height].contributors, p) + [q]
      && forall c :: 0 <= c < |t'.rounds[t.height].chunks| ==> t'.rounds[t.height].chunks[c].holder != Some(p)
  {
    hide Others, Abandoned;
  }
}
