/**
  Who may do what in storage, in every run: drops, resets, uploads and erasures included. Nobody
  holds more locks than allowed or works on a chunk twice, a lock is never taken over, and every
  contribution and every verification that is recorded goes back to the step that made it.
 */
module StoredRules {
  import opened Wrappers
  import opened Tasks
  import opened Lists
  import opened Participants
  import opened Ceremony
  import opened Conservation
  import opened Phase2
  import opened Codec
  import opened Stores
  import opened HashChain
  import opened StoredDrops
  import opened Joint
  import JointRuns

  // ----- every change of the store

  /** What the coordinator does in storage: any change, or a reset that keeps the round. */
  datatype Action = Doing(change: Change) | Restarting(removed: seq<Participant>)

  function Outcome(env: Environment, hash: Bytes -> Hash, t: Store, a: Action): Store {
    match a
    case Doing(change) => After(env, hash, t, change)
    case Restarting(removed) => WithReset(t, ResetAction(removed, false)).0
  }

  /** A drop names every lock of the dropped contributor, real contributions, and nobody else of the round. */
  ghost predicate Fair(t: Store, a: Action) {
    a.Doing? && a.change.Exchange? && t.height in t.rounds ==>
      var e, round := a.change, t.rounds[t.height];
      && RealIds(e.lost) && e.replacement.Contributor? && (e.replacement !in round.contributors || e.replacement == e.dropped)
      && forall c: nat :: c < |round.chunks| && round.chunks[c].holder == Some(e.dropped) ==> c in e.locked
  }

  ghost predicate Run(env: Environment, hash: Bytes -> Hash, stores: seq<Store>, actions: seq<Action>) {
    && |stores| == |actions| + 1
    && Initial(stores[0], env.chunks)
    && forall i :: 0 <= i < |actions| ==> Fair(stores[i], actions[i]) && stores[i + 1] == Outcome(env, hash, stores[i], actions[i])
  }

  // ----- the rules

  /** One maker for every contribution, nobody twice, and a lock for a listed contributor that made none of them. */
  ghost predicate ChunkRuled(contributors: seq<Participant>, chunk: Chunk) {
    && |chunk.makers| + 1 == |chunk.verified|
    && Distinct(chunk.makers)
    && (chunk.holder.Some? ==> chunk.holder.value in contributors && chunk.holder.value !in chunk.makers)
  }

  ghost predicate Ruled(env: Environment, round: Round) {
    && Distinct(round.contributors) && (forall p :: p in round.contributors ==> p.Contributor?)
    && (forall p :: |round.LocksOf(p)| <= env.lockLimit)
    && forall c :: 0 <= c < |round.chunks| ==> ChunkRuled(round.contributors, round.chunks[c])
  }

  ghost predicate AllRuled(env: Environment, t: Store) {
    forall r :: r in t.rounds ==> Ruled(env, t.rounds[r])
  }

  /** The round with one chunk changed, which gets at most the lock of a contributor below the limit. */
  lemma ChunkChanged(env: Environment, round: Round, c: nat, chunk: Chunk)
    requires Ruled(env, round) && c < |round.chunks| && ChunkRuled(round.contributors, chunk)
    requires chunk.holder.Some? && chunk.holder != round.chunks[c].holder ==> |round.LocksOf(chunk.holder.value)| < env.lockLimit
    ensures Ruled(env, round.(chunks := round.chunks[c := chunk]))
  {
    var round' := round.(chunks := round.chunks[c := chunk]);
    hide ChunkRuled, Distinct;
    forall p ensures |round'.LocksOf(p)| <= env.lockLimit {
      if chunk.holder == Some(p) && chunk.holder != round.chunks[c].holder {
        assert round'.LocksOf(p) == round.LocksOf(p) + {c};
      } else {
        SubsetSize(round'.LocksOf(p), round.LocksOf(p));
      }
    }
  }

  lemma InCurrent(env: Environment, t: Store, c: nat, chunk: Chunk)
    requires AllRuled(env, t) && t.HasChunk(c) && ChunkRuled(t.rounds[t.height].contributors, chunk)
    requires var round := t.rounds[t.height];
      chunk.holder.Some? && chunk.holder != round.chunks[c].holder ==> |round.LocksOf(chunk.holder.value)| < env.lockLimit
    ensures AllRuled(env, WithChunk(t, c, chunk))
  {
    ChunkChanged(env, t.rounds[t.height], c, chunk);
    hide Ruled, ChunkRuled;
  }

  /** No locks, and makers for the contributions that are there. */
  lemma Unlocked(env: Environment, round: Round)
    requires Distinct(round.contributors) && forall p :: p in round.contributors ==> p.Contributor?
    requires forall c :: 0 <= c < |round.chunks| ==> round.chunks[c] == NEW_CHUNK
    ensures Ruled(env, round)
  {
    forall p ensures round.LocksOf(p) == {} {
    }
  }

  lemma LockRuled(env: Environment, t: Store, c: nat, p: Participant, blank: Bytes)
    requires AllRuled(env, t)
    ensures AllRuled(env, WithLock(env, t, c, p, blank))
  {
    if CanLock(env, t, c, p) {
      var chunk := t.rounds[t.height].chunks[c];
      assert ChunkRuled(t.rounds[t.height].contributors, chunk);
      InCurrent(env, t, c, chunk.(holder := Some(p)));
    }
    hide Ruled, CanLock;
  }

  lemma ResponseRuled(env: Environment, hash: Bytes -> Hash, t: Store, c: nat, p: Participant, signed: bool)
    requires AllRuled(env, t)
    ensures AllRuled(env, WithResponse(hash, t, c, p, signed))
  {
    if CanContribute(hash, t, c, p, signed) {
      var chunk := t.rounds[t.height].chunks[c];
      assert ChunkRuled(t.rounds[t.height].contributors, chunk);
      InCurrent(env, t, c, Chunk(None, chunk.verified + [false], chunk.makers + [p]));
    }
    hide Ruled, CanContribute;
  }

  lemma ChallengeRuled(env: Environment, hash: Bytes -> Hash, t: Store, task: Task, p: Participant, signed: bool)
    requires AllRuled(env, t)
    ensures AllRuled(env, WithChallenge(hash, t, task, p, signed))
  {
    if CanVerify(hash, t, task, p, signed) {
      var chunk := t.rounds[t.height].chunks[task.chunk];
      assert ChunkRuled(t.rounds[t.height].contributors, chunk);
      InCurrent(env, t, task.chunk, chunk.(holder := None, verified := chunk.verified[task.contribution := true]));
    }
    hide Ruled, CanVerify;
  }

  lemma DisposalRuled(env: Environment, t: Store, task: Task)
    requires AllRuled(env, t)
    ensures AllRuled(env, Disposed(t, task))
  {
    if t.HasChunk(task.chunk) {
      var chunk := t.rounds[t.height].chunks[task.chunk];
      assert ChunkRuled(t.rounds[t.height].contributors, chunk);
      InCurrent(env, t, task.chunk, chunk.(holder := None));
    }
    hide Ruled;
  }

  lemma OpeningRuled(env: Environment, t: Store, contributors: seq<Participant>)
    requires AllRuled(env, t)
    ensures AllRuled(env, WithNextRound(env, t, contributors))
  {
    if CanOpen(env, t, contributors) {
      Unlocked(env, Round(contributors, seq(env.chunks, _ => NEW_CHUNK)));
    }
    hide Ruled;
  }

  lemma ResetRuled(env: Environment, t: Store, action: ResetAction)
    requires AllRuled(env, t)
    ensures AllRuled(env, WithReset(t, action).0)
  {
    if t.height in t.rounds {
      var round := t.rounds[t.height];
      var keep := (p: Participant) => p !in action.removed;
      FilterDistinct(round.contributors, keep);
      forall p | p in Restarted(round, action.removed).contributors ensures p.Contributor? {
        FilterMember(round.contributors, keep, p);
      }
      Unlocked(env, Restarted(round, action.removed));
    }
    hide Ruled, Restarted;
  }

  // ----- drops

  /** Who is listed after a drop: the others, in their order, and then the replacement. */
  lemma OthersListed(contributors: seq<Participant>, dropped: Participant, q: Participant)
    requires Distinct(contributors) && (q !in contributors || q == dropped)
    ensures var after := Others(contributors, dropped) + [q];
      && Distinct(after)
      && forall p :: p in after <==> (p in contributors && p != dropped) || p == q
  {
    var keep := (p: Participant) => p != dropped;
    FilterDistinct(contributors, keep);
    forall p ensures p in Others(contributors, dropped) <==> p in contributors && p != dropped {
      FilterMember(contributors, keep, p);
    }
    hide Others;
    assert q !in Others(contributors, dropped);
  }

  /** A chunk after a drop: the contributions before the lost one, with their makers; only the dropped loses a lock. */
  lemma WithoutWorkIs(chunk: Chunk, c: nat, dropped: Participant, locked: set<nat>, lost: map<nat, nat>)
    requires |chunk.makers| + 1 == |chunk.verified| && RealIds(lost)
    ensures var chunk' := WithoutWork(chunk, c, dropped, locked, lost);
      && chunk'.makers <= chunk.makers && chunk'.verified <= chunk.verified && |chunk'.makers| + 1 == |chunk'.verified|
      && |chunk'.verified| == (if c in lost && lost[c] < |chunk.verified| then lost[c] else |chunk.verified|)
      && chunk'.holder == if c in locked && chunk.holder == Some(dropped) then None else chunk.holder
  {
  }

  lemma WorkLostRuled(contributors: seq<Participant>, chunk: Chunk, c: nat, dropped: Participant, locked: set<nat>,
                      lost: map<nat, nat>, q: Participant)
    requires ChunkRuled(contributors, chunk) && Distinct(contributors) && (q !in contributors || q == dropped) && RealIds(lost)
    requires chunk.holder == Some(dropped) ==> c in locked
    ensures ChunkRuled(Others(contributors, dropped) + [q], WithoutWork(chunk, c, dropped, locked, lost))
  {
    WithoutWorkIs(chunk, c, dropped, locked, lost);
    OthersListed(contributors, dropped, q);
    hide WithoutWork, Others;
    var chunk' := WithoutWork(chunk, c, dropped, locked, lost);
    forall i, j | 0 <= i < j < |chunk'.makers| ensures chunk'.makers[i] != chunk'.makers[j] {
      assert chunk.makers[i] != chunk.makers[j];
    }
  }

  lemma ExchangeRuled(env: Environment, t: Store, dropped: Participant, locked: set<nat>, lost: map<nat, nat>, q: Participant)
    requires AllRuled(env, t) && Fair(t, Doing(Exchange(dropped, locked, lost, q)))
    ensures AllRuled(env, WithReplacement(t, dropped, locked, lost, q))
  {
    if t.height in t.rounds {
      var round, round' := t.rounds[t.height], WithReplacement(t, dropped, locked, lost, q).rounds[t.height];
      OthersListed(round.contributors, dropped, q);
      forall c | 0 <= c < |round.chunks| ensures ChunkRuled(round'.contributors, round'.chunks[c])
        ensures round'.chunks[c].holder.Some? ==> round.chunks[c].holder == round'.chunks[c].holder
      {
        WorkLostRuled(round.contributors, round.chunks[c], c, dropped, locked, lost, q);
        WithoutWorkIs(round.chunks[c], c, dropped, locked, lost);
      }
      hide ChunkRuled, WithoutWork, Others, Distinct;
      forall p ensures |round'.LocksOf(p)| <= env.lockLimit {
        SubsetSize(round'.LocksOf(p), round.LocksOf(p));
      }
    }
  }

  // ----- every run keeps the rules

  lemma StepRuled(env: Environment, hash: Bytes -> Hash, t: Store, op: Op)
    requires AllRuled(env, t)
    ensures AllRuled(env, Apply(env, hash, t, op))
  {
    match op
    case Upload(file, content) =>
    case Erase(file) =>
    case Lock(chunk, p, blank) => LockRuled(env, t, chunk, p, blank);
    case Contribute(chunk, p, signed) => ResponseRuled(env, hash, t, chunk, p, signed);
    case Verify(task, p, signed) => ChallengeRuled(env, hash, t, task, p, signed);
    case Aggregate(succeeds) =>
    case Advance(contributors) => OpeningRuled(env, t, contributors);
    case RollBack(removed) => ResetRuled(env, t, ResetAction(removed, true));
    hide Ruled, WithLock, WithResponse, WithChallenge, WithNextRound, WithReset;
  }

  lemma ActionRuled(env: Environment, hash: Bytes -> Hash, t: Store, a: Action)
    requires AllRuled(env, t) && Fair(t, a)
    ensures AllRuled(env, Outcome(env, hash, t, a))
  {
    match a
    case Restarting(removed) => ResetRuled(env, t, ResetAction(removed, false));
    case Doing(Step(op)) => StepRuled(env, hash, t, op);
    case Doing(Discard(task)) => DisposalRuled(env, t, task);
    case Doing(Exchange(dropped, locked, lost, q)) => ExchangeRuled(env, t, dropped, locked, lost, q);
    hide AllRuled, Fair;
  }

  /**
    In every run and in every round of it: the contributors are listed once each, nobody holds more
    locks than allowed, every contribution has one maker, nobody has made two contributions of a
    chunk, and only a listed contributor that has made none of a chunk has it locked.
   */
  lemma {:induction false} EveryRoundRuled(env: Environment, hash: Bytes -> Hash, stores: seq<Store>, actions: seq<Action>, i: nat)
    requires Run(env, hash, stores, actions) && i < |stores|
    ensures AllRuled(env, stores[i])
  {
    if i > 0 {
      EveryRoundRuled(env, hash, stores, actions, i - 1);
      ActionRuled(env, hash, stores[i - 1], actions[i - 1]);
    } else {
      Unlocked(env, stores[0].rounds[0]);
    }
    hide AllRuled, Outcome, Fair;
  }

  // ----- where contributions and verifications come from

  ghost predicate HasWork(t: Store, r: nat, c: nat) { r in t.rounds && c < |t.rounds[r].chunks| }

  /** Contribution `k` of the chunk was made by the participant. */
  ghost predicate MadeBy(t: Store, r: nat, c: nat, k: nat, p: Participant) {
    HasWork(t, r, c) && 1 <= k <= |t.rounds[r].chunks[c].makers| && t.rounds[r].chunks[c].makers[k - 1] == p
  }

  ghost predicate VerifiedIn(t: Store, r: nat, c: nat, k: nat) {
    HasWork(t, r, c) && t.rounds[r].chunks[c].Verified(k)
  }

  ghost predicate LockedBy(t: Store, r: nat, c: nat, p: Participant) {
    HasWork(t, r, c) && t.rounds[r].chunks[c].holder == Some(p)
  }

  /** The step makes contribution `k`: a signed response of the holder of the lock, linked to the challenge before it. */
  ghost predicate Contributes(hash: Bytes -> Hash, t: Store, a: Action, r: nat, c: nat, k: nat, p: Participant) {
    && 1 <= k && a == Doing(Step(Contribute(c, p, true))) && t.height == r
    && LockedBy(t, r, c, p) && |t.rounds[r].chunks[c].verified| == k && t.rounds[r].chunks[c].Open()
    && Linked(hash, t.files, Locator(r, c, k - 1, true), Locator(r, c, k, false))
  }

  /** The step verifies contribution `k`: a signed challenge by a verifier, linked to the response before it. */
  ghost predicate Verifies(hash: Bytes -> Hash, t: Store, a: Action, r: nat, c: nat, k: nat) {
    && a.Doing? && a.change.Step? && a.change.op.Verify?
    && a.change.op.task == Task(c, k) && a.change.op.p.Verifier? && a.change.op.signed && t.height == r
    && 1 <= k && HasWork(t, r, c) && |t.rounds[r].chunks[c].verified| == k + 1 && !t.rounds[r].chunks[c].verified[k]
    && Linked(hash, t.files, Locator(r, c, k - 1, true), Locator(r, c, k, false))
    && Linked(hash, t.files, Locator(r, c, k, false), NextChallenge(r, c, k, |t.rounds[r].contributors|))
  }

  /** A contribution that is there after a step was there before, or the step made it. */
  lemma ContributionSource(env: Environment, hash: Bytes -> Hash, t: Store, a: Action, r: nat, c: nat, k: nat, p: Participant)
    requires AllRuled(env, t) && Fair(t, a) && MadeBy(Outcome(env, hash, t, a), r, c, k, p)
    ensures MadeBy(t, r, c, k, p) || Contributes(hash, t, a, r, c, k, p)
  {
    if HasWork(t, r, c) {
      assert ChunkRuled(t.rounds[r].contributors, t.rounds[r].chunks[c]);
      WorkSource(env, hash, t, a, r, c);
    } else {
      FreshWork(env, hash, t, a, r, c);
    }
    hide Outcome;
  }

  /** A chunk that is new after a step has no contributions. */
  lemma FreshWork(env: Environment, hash: Bytes -> Hash, t: Store, a: Action, r: nat, c: nat)
    requires HasWork(Outcome(env, hash, t, a), r, c) && !HasWork(t, r, c)
    ensures Outcome(env, hash, t, a).rounds[r].chunks[c] == NEW_CHUNK
  {
    match a
    case Restarting(removed) => hide Filter, Survives;
    case Doing(Step(op)) => hide CanLock, CanContribute, CanVerify, Filter, Survives, CanOpen;
    case Doing(Discard(task)) =>
    case Doing(Exchange(dropped, locked, lost, q)) => hide WithoutWork, Others, Abandoned;
  }

  /** What one step may do to a chunk of some round. */
  ghost predicate Follows(hash: Bytes -> Hash, t: Store, a: Action, r: nat, c: nat, was: Chunk, chunk: Chunk) {
    || chunk == was || chunk == NEW_CHUNK
    || (chunk.makers <= was.makers && chunk.verified <= was.verified && (chunk.holder == was.holder || chunk.holder == None))
    || (exists p :: Contributes(hash, t, a, r, c, |was.verified|, p)
                    && chunk == Chunk(None, was.verified + [false], was.makers + [p]))
    || (exists k: nat :: Verifies(hash, t, a, r, c, k) && k < |was.verified|
                         && chunk == was.(holder := None, verified := was.verified[k := true]))
    || (exists p :: was.holder.None? && a.Doing? && a.change.Step? && a.change.op.Lock? && a.change.op.p == p
                    && a.change.op.chunk == c && chunk == was.(holder := Some(p)))
  }

  lemma WorkSource(env: Environment, hash: Bytes -> Hash, t: Store, a: Action, r: nat, c: nat)
    requires Fair(t, a) && HasWork(t, r, c) && |t.rounds[r].chunks[c].makers| + 1 == |t.rounds[r].chunks[c].verified|
    ensures HasWork(Outcome(env, hash, t, a), r, c) ==>
      Follows(hash, t, a, r, c, t.rounds[r].chunks[c], Outcome(env, hash, t, a).rounds[r].chunks[c])
  {
    match a
    case Restarting(removed) => hide Filter, Survives;
    case Doing(Step(op)) => StepSource(env, hash, t, op, r, c);
    case Doing(Discard(task)) =>
    case Doing(Exchange(dropped, locked, lost, q)) =>
      if r == t.height {
        WithoutWorkIs(t.rounds[r].chunks[c], c, dropped, locked, lost);
      }
      hide WithoutWork, Others, Abandoned;
  }

  lemma StepSource(env: Environment, hash: Bytes -> Hash, t: Store, op: Op, r: nat, c: nat)
    requires HasWork(t, r, c)
    ensures HasWork(Apply(env, hash, t, op), r, c) ==>
      Follows(hash, t, Doing(Step(op)), r, c, t.rounds[r].chunks[c], Apply(env, hash, t, op).rounds[r].chunks[c])
  {
    var was, a := t.rounds[r].chunks[c], Doing(Step(op));
    hide Survives, Filter;
    match op
    case Contribute(chunk, p, signed) =>
      if chunk == c && t.height == r && CanContribute(hash, t, c, p, signed) {
        assert Contributes(hash, t, a, r, c, |was.verified|, p);
      }
    case Verify(task, v, signed) =>
      if task.chunk == c && t.height == r && CanVerify(hash, t, task, v, signed) {
        assert Verifies(hash, t, a, r, c, task.contribution);
      }
    case _ =>
  }

  /** A verified contribution was verified before the step, or the step verified it. */
  lemma VerificationSource(env: Environment, hash: Bytes -> Hash, t: Store, a: Action, r: nat, c: nat, k: nat)
    requires AllRuled(env, t) && Fair(t, a) && 1 <= k && VerifiedIn(Outcome(env, hash, t, a), r, c, k)
    ensures VerifiedIn(t, r, c, k) || Verifies(hash, t, a, r, c, k)
  {
    if HasWork(t, r, c) {
      assert ChunkRuled(t.rounds[r].contributors, t.rounds[r].chunks[c]);
      WorkSource(env, hash, t, a, r, c);
    } else {
      FreshWork(env, hash, t, a, r, c);
    }
    hide Outcome;
  }

  /** The step locks the chunk, which nobody had locked, for a listed contributor. */
  ghost predicate Locks(t: Store, a: Action, r: nat, c: nat, p: Participant) {
    && a.Doing? && a.change.Step? && a.change.op.Lock? && a.change.op.chunk == c && a.change.op.p == p && t.height == r
    && HasWork(t, r, c) && t.rounds[r].chunks[c].holder.None? && t.rounds[r].chunks[c].Open() && p in t.rounds[r].contributors
  }

  /** A lock is never taken over: who has one had it before the step, or locked a chunk that was free. */
  lemma LockSource(env: Environment, hash: Bytes -> Hash, t: Store, a: Action, r: nat, c: nat, p: Participant)
    requires AllRuled(env, t) && Fair(t, a) && LockedBy(Outcome(env, hash, t, a), r, c, p)
    ensures LockedBy(t, r, c, p) || Locks(t, a, r, c, p)
  {
    if HasWork(t, r, c) {
      assert ChunkRuled(t.rounds[r].contributors, t.rounds[r].chunks[c]);
      WorkSource(env, hash, t, a, r, c);
    } else {
      FreshWork(env, hash, t, a, r, c);
    }
    hide Outcome;
  }

  /** Step `j` makes the contribution, and it stays until step `i`. */
  ghost predicate MadeAt(hash: Bytes -> Hash, stores: seq<Store>, actions: seq<Action>, i: nat, r: nat, c: nat, k: nat,
                         p: Participant, j: nat)
    requires i < |stores| == |actions| + 1
  {
    j < i && Contributes(hash, stores[j], actions[j], r, c, k, p) && forall l :: j < l <= i ==> MadeBy(stores[l], r, c, k, p)
  }

  ghost predicate VerifiedAt(hash: Bytes -> Hash, stores: seq<Store>, actions: seq<Action>, i: nat, r: nat, c: nat, k: nat, j: nat)
    requires i < |stores| == |actions| + 1
  {
    j < i && Verifies(hash, stores[j], actions[j], r, c, k) && forall l :: j < l <= i ==> VerifiedIn(stores[l], r, c, k)
  }

  ghost predicate LockedAt(stores: seq<Store>, actions: seq<Action>, i: nat, r: nat, c: nat, p: Participant, j: nat)
    requires i < |stores| == |actions| + 1
  {
    j < i && Locks(stores[j], actions[j], r, c, p) && forall l :: j < l <= i ==> LockedBy(stores[l], r, c, p)
  }

  /** Every contribution that a run has recorded was made in it, and has been there since. */
  lemma {:induction false} EveryContributionMade(env: Environment, hash: Bytes -> Hash, stores: seq<Store>, actions: seq<Action>,
                                                 i: nat, r: nat, c: nat, k: nat, p: Participant) returns (j: nat)
    requires Run(env, hash, stores, actions) && i < |stores| && MadeBy(stores[i], r, c, k, p)
    ensures MadeAt(hash, stores, actions, i, r, c, k, p, j)
  {
    if i == 0 {
      assert false;
    } else {
      EveryRoundRuled(env, hash, stores, actions, i - 1);
      ContributionSource(env, hash, stores[i - 1], actions[i - 1], r, c, k, p);
      hide AllRuled, Outcome, Fair, Contributes, MadeBy;
      if Contributes(hash, stores[i - 1], actions[i - 1], r, c, k, p) {
        j := i - 1;
      } else {
        j := EveryContributionMade(env, hash, stores, actions, i - 1, r, c, k, p);
      }
    }
  }

  /** Every verification that a run has recorded was made in it, and has stood since. */
  lemma {:induction false} EveryVerificationMade(env: Environment, hash: Bytes -> Hash, stores: seq<Store>, actions: seq<Action>,
                                                 i: nat, r: nat, c: nat, k: nat) returns (j: nat)
    requires Run(env, hash, stores, actions) && i < |stores| && 1 <= k && VerifiedIn(stores[i], r, c, k)
    ensures VerifiedAt(hash, stores, actions, i, r, c, k, j)
  {
    if i == 0 {
      assert false;
    } else {
      EveryRoundRuled(env, hash, stores, actions, i - 1);
      VerificationSource(env, hash, stores[i - 1], actions[i - 1], r, c, k);
      hide AllRuled, Outcome, Fair, Verifies, VerifiedIn;
      if Verifies(hash, stores[i - 1], actions[i - 1], r, c, k) {
        j := i - 1;
      } else {
        j := EveryVerificationMade(env, hash, stores, actions, i - 1, r, c, k);
      }
    }
  }

  /** Whoever holds a lock has locked the chunk when it was free, and has held the lock since. */
  lemma {:induction false} EveryLockMade(env: Environment, hash: Bytes -> Hash, stores: seq<Store>, actions: seq<Action>,
                                         i: nat, r: nat, c: nat, p: Participant) returns (j: nat)
    requires Run(env, hash, stores, actions) && i < |stores| && LockedBy(stores[i], r, c, p)
    ensures LockedAt(stores, actions, i, r, c, p, j)
  {
    if i == 0 {
      assert false;
    } else {
      EveryRoundRuled(env, hash, stores, actions, i - 1);
      LockSource(env, hash, stores[i - 1], actions[i - 1], r, c, p);
      hide AllRuled, Outcome, Fair, Locks, LockedBy;
      if Locks(stores[i - 1], actions[i - 1], r, c, p) {
        j := i - 1;
      } else {
        j := EveryLockMade(env, hash, stores, actions, i - 1, r, c, p);
      }
    }
  }

  lemma HolderListed(env: Environment, hash: Bytes -> Hash, stores: seq<Store>, actions: seq<Action>, i: nat,
                     r: nat, c: nat, p: Participant)
    requires Run(env, hash, stores, actions) && i < |stores| && LockedBy(stores[i], r, c, p)
    ensures p in stores[i].rounds[r].contributors && p.Contributor?
  {
    EveryRoundRuled(env, hash, stores, actions, i);
    assert Ruled(env, stores[i].rounds[r]) && ChunkRuled(stores[i].rounds[r].contributors, stores[i].rounds[r].chunks[c]);
    hide Run;
  }

  /**
    In every run, a verified contribution goes back to a signed response of a contributor that had
    the chunk locked, followed by a signed challenge of a verifier, each linked by hash to the file
    before it; and it has not been replaced in between or since.
   */
  lemma VerifiedWorkTraced(env: Environment, hash: Bytes -> Hash, stores: seq<Store>, actions: seq<Action>,
                           i: nat, r: nat, c: nat, k: nat) returns (p: Participant, made: nat, verified: nat)
    requires Run(env, hash, stores, actions) && i < |stores| && 1 <= k && VerifiedIn(stores[i], r, c, k)
    ensures made < verified < i && p.Contributor?
    ensures MadeAt(hash, stores, actions, i, r, c, k, p, made)
    ensures VerifiedAt(hash, stores, actions, i, r, c, k, verified)
  {
    EveryRoundRuled(env, hash, stores, actions, i);
    assert Ruled(env, stores[i].rounds[r]) && ChunkRuled(stores[i].rounds[r].contributors, stores[i].rounds[r].chunks[c]);
    p := stores[i].rounds[r].chunks[c].makers[k - 1];
    made := EveryContributionMade(env, hash, stores, actions, i, r, c, k, p);
    verified := EveryVerificationMade(env, hash, stores, actions, i, r, c, k);
    HolderListed(env, hash, stores, actions, made, r, c, p);
    assert !VerifiedIn(stores[made], r, c, k);
    hide Run, Linked;
  }

  // ----- the coordinator's own runs

  lemma CoordinatorStepRuled(env: Environment, hash: Bytes -> Hash, b: Both, op: JointRuns.Op)
    requires AllRuled(env, b.t) && JointRuns.Possible(env, b, op)
    ensures AllRuled(env, JointRuns.Apply(env, hash, b, op).t)
  {
    hide AllRuled, Next, Working, CanVerify, CanContribute, CanOpen, CanLock;
    match op
    case LockNext(p, blank) =>
      LockUnfolds(env, b, p, blank);
      if FetchTask(env, b.x.s, p).1.Ok? {
        LockRuled(env, b.t, FetchTask(env, b.x.s, p).1.value.chunk, p, blank);
      }
      hide TryLock, FetchTask, AcquiredLock, RollbackPendingTask, WithLock;
    case Respond(p, c, signed) => RespondRuled(env, hash, b, p, c, signed);
    case Approve(v, task, signed) =>
      ChallengeRuled(env, hash, b.t, task, v, signed);
      if b.t.height in b.t.rounds {
        FilesRuled(env, b.t, Erased(b.t, Discarded(b.t, task)).files);
      }
      hide WithChallenge;
    case Combine(succeeds, now) => AggregateRuled(env, b.t, succeeds); hide WithAggregate;
    case Advance(order, now) => OpeningRuled(env, b.t, order); hide WithNextRound, PrecommitNextRound;
    case Restart(working, done, now) =>
      if ResetCurrentRound(env, b.x.s, true, working, done, now).1.Ok? {
        ResetRuled(env, b.t, ResetCurrentRound(env, b.x.s, true, working, done, now).1.value);
      }
      hide ResetCurrentRound, WithReset;
    case Schedule(_) =>
    case Upload(file, content) => FilesRuled(env, b.t, b.t.files[file := content]);
    case Remove(file) => FilesRuled(env, b.t, b.t.files - {file});
    case Dismiss(p, working, done, now) => DismissRuled(env, b, p, working, done, now);
  }

  lemma FilesRuled(env: Environment, t: Store, files: map<Locator, Bytes>)
    requires AllRuled(env, t)
    ensures AllRuled(env, t.(files := files))
  {
    hide Ruled;
  }

  lemma AggregateRuled(env: Environment, t: Store, succeeds: bool)
    requires AllRuled(env, t)
    ensures AllRuled(env, WithAggregate(t, succeeds))
  {
    hide Ruled;
  }

  lemma RespondRuled(env: Environment, hash: Bytes -> Hash, b: Both, p: Participant, c: nat, signed: bool)
    requires AllRuled(env, b.t)
    ensures AllRuled(env, TryContribute(env, hash, b, p, c, signed).t)
  {
    hide AllRuled, Next, Working, CanContribute, WithResponse, Disposed, Erased;
    ResponseRuled(env, hash, b.t, c, p, signed);
    forall task ensures AllRuled(env, Disposed(b.t, task)) {
      DisposalRuled(env, b.t, task);
    }
    forall file ensures AllRuled(env, Erased(b.t, file)) {
      FilesRuled(env, b.t, b.t.files - {file});
      assert Erased(b.t, file) == b.t.(files := b.t.files - {file}) by { ErasedIs(b.t, file); }
    }
  }

  lemma ErasedIs(t: Store, file: Locator)
    ensures Erased(t, file) == t.(files := t.files - {file})
  {
  }

  lemma DismissRuled(env: Environment, b: Both, p: Participant, working: seq<Participant>, done: seq<Participant>, now: Time)
    requires AllRuled(env, b.t) && JointRuns.Possible(env, b, JointRuns.Dismiss(p, working, done, now))
    ensures AllRuled(env, JointRuns.TryDrop(env, b, p, working, done, now).t)
  {
    NobodyReplaces(env, b.x.s, p, working, done, now);
    hide AllRuled, DropParticipant, WithReset, DropOrder, DropsMember, JointRuns.DropNext;
    var r := DropParticipant(env, b.x.s, p, working, done, now).1;
    if r.Ok? && r.value.Reset? {
      ResetRuled(env, b.t, ResetAction(r.value.removed, r.value.rollback));
    }
  }

  lemma NobodyReplaces(env: Environment, s: State, p: Participant, working: seq<Participant>, done: seq<Participant>, now: Time)
    requires DropOrder(env, s, p, working, done, now) && (DropsMember(s, p) ==> env.coordinatorContributors == [])
    ensures var r := DropParticipant(env, s, p, working, done, now).1; r.Ok? ==> !r.value.Replace?
  {
    hide AfterDrop, ResetCurrentRound, AddReplacement, ResetOrder, BucketsKnown, DropFromQueue;
  }

  /** The rules hold in every run of the coordinator in which nobody is replaced. */
  lemma {:induction false} CoordinatorRuled(env: Environment, hash: Bytes -> Hash, bs: seq<Both>, ops: seq<JointRuns.Op>, i: nat)
    requires JointRuns.Run(env, hash, bs, ops) && i < |bs|
    ensures AllRuled(env, bs[i].t)
  {
    hide AllRuled, JointRuns.Apply, JointRuns.Possible;
    if i > 0 {
      CoordinatorRuled(env, hash, bs, ops, i - 1);
      JointRuns.RunStep(env, hash, bs, ops, i);
      CoordinatorStepRuled(env, hash, bs[i - 1], ops[i - 1]);
    } else {
      FreshRuled(env, bs[0].t);
    }
  }

  lemma FreshRuled(env: Environment, t: Store)
    requires Initial(t, env.chunks)
    ensures AllRuled(env, t)
  {
    Unlocked(env, t.rounds[0]);
    hide Ruled;
  }
}
