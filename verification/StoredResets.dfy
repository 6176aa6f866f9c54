/**
  What resetting a round does to storage. The files of the work on the round go, those it started
  from stay, and every contributor that is left, or that joins the round when it opens again, can
  start on any chunk.
 */
module StoredResets {
  import opened Wrappers
  import opened Lists
  import opened Participants
  import opened Ceremony
  import opened Phase2
  import opened Codec
  import opened Stores
  import opened HashChain

  /**
    No file of the next round, and no response or later challenge of the round, is left; files of
    other rounds and the first challenges of the round are as they were; and nothing is added.
   */
  lemma ResetFiles(t: Store, action: ResetAction, file: Locator)
    requires t.height in t.rounds
    ensures var files, h := WithReset(t, action).0.files, t.height;
      && (file.round == h + 1 || (file.round == h && 1 <= file.contribution) ==> file !in files)
      && (file.round < h || file.round > h + 1 || file == FirstChallenge(h, file.chunk) ==>
            (file in files <==> file in t.files))
      && (file in files ==> file in t.files && files[file] == t.files[file])
  {
  }

  /** The round starts over for the contributors that are not removed, in their order, or is gone; other rounds stay. */
  lemma ResetRounds(t: Store, action: ResetAction)
    requires t.height in t.rounds && 0 < t.height
    ensures var (t', r) := WithReset(t, action); var round, h := t.rounds[t.height], t.height;
      && r.Ok?
      && t'.height == (if action.rollback then h - 1 else h)
      && t'.rounds.Keys == (if action.rollback then t.rounds.Keys - {h} else t.rounds.Keys)
      && (forall r :: r in t'.rounds && r != h ==> t'.rounds[r] == t.rounds[r])
      && t'.aggregated == t.aggregated - {h, h + 1}
      && (!action.rollback ==>
            && (forall p :: p in t'.rounds[h].contributors <==> p in round.contributors && p !in action.removed)
            && (Distinct(round.contributors) ==> Distinct(t'.rounds[h].contributors))
            && |t'.rounds[h].chunks| == |round.chunks|
            && forall c :: 0 <= c < |round.chunks| ==> t'.rounds[h].chunks[c] == Chunk(None, [true], []))
  {
    forall p
      ensures p in Filter(t.rounds[t.height].contributors, (q: Participant) => q !in action.removed) <==>
        p in t.rounds[t.height].contributors && p !in action.removed
    {
      FilterMember(t.rounds[t.height].contributors, (q: Participant) => q !in action.removed, p);
    }
    if Distinct(t.rounds[t.height].contributors) {
      FilterDistinct(t.rounds[t.height].contributors, (q: Participant) => q !in action.removed);
    }
    hide Filter, Distinct;
  }

  /** In a fresh round without response files, a listed contributor can lock any chunk. */
  lemma FreshLocks(env: Environment, t: Store, p: Participant, c: nat)
    requires t.height in t.rounds && |t.rounds[t.height].chunks| == env.chunks && c < env.chunks && 0 < env.lockLimit
    requires p.Contributor? && p in t.rounds[t.height].contributors
    requires forall d :: 0 <= d < env.chunks ==> t.rounds[t.height].chunks[d] == NEW_CHUNK
    requires Locator(t.height, c, 1, false) !in t.files
    ensures CanLock(env, t, c, p)
  {
    assert t.rounds[t.height].LocksOf(p) == {};
  }

  /** After a reset that keeps the round, every contributor that is left can lock any chunk. */
  lemma ResetUnlocks(env: Environment, t: Store, removed: seq<Participant>, p: Participant, c: nat)
    requires Orderly(t, env.chunks) && 0 < t.height && c < env.chunks && 0 < env.lockLimit
    requires p.Contributor? && p in t.rounds[t.height].contributors && p !in removed
    ensures CanLock(env, WithReset(t, ResetAction(removed, false)).0, c, p)
  {
    ResetRounds(t, ResetAction(removed, false));
    ResetFiles(t, ResetAction(removed, false), Locator(t.height, c, 1, false));
    hide WithReset, CanLock;
    FreshLocks(env, WithReset(t, ResetAction(removed, false)).0, p, c);
  }

  /** A round that was taken back can open again as before, and then all of its contributors can lock any chunk. */
  lemma ReopenUnlocks(env: Environment, t: Store, removed: seq<Participant>, contributors: seq<Participant>, p: Participant, c: nat)
    requires Orderly(t, env.chunks) && 0 < t.height && c < env.chunks && 0 < env.lockLimit && env.coordinatorVerifiers != []
    requires contributors != [] && !Repeats(contributors) && forall q :: q in contributors ==> q.Contributor?
    requires Opened(t, t.height, env.chunks) && (1 < t.height ==> t.height - 1 in t.aggregated)
    requires p in contributors
    ensures var t1 := WithReset(t, ResetAction(removed, true)).0;
      && CanOpen(env, t1, contributors)
      && WithNextRound(env, t1, contributors).height == t.height
      && CanLock(env, WithNextRound(env, t1, contributors), c, p)
  {
    var t1 := WithReset(t, ResetAction(removed, true)).0;
    ResetRounds(t, ResetAction(removed, true));
    forall d | 0 <= d < env.chunks ensures FirstChallenge(t.height, d) in t1.files {
      ResetFiles(t, ResetAction(removed, true), FirstChallenge(t.height, d));
    }
    ResetFiles(t, ResetAction(removed, true), Locator(t.height, c, 1, false));
    hide WithReset, CanLock, Repeats;
    FreshLocks(env, WithNextRound(env, t1, contributors), p, c);
  }

  /** The transcript up to the first challenges of the round survives a reset that keeps it. */
  lemma RestartChained(hash: Bytes -> Hash, t: Store, chunks: nat, removed: seq<Participant>)
    requires Chained(hash, t, chunks) && 0 < t.height
    requires exists p :: p in t.rounds[t.height].contributors && p !in removed
    ensures Chained(hash, WithReset(t, ResetAction(removed, false)).0, chunks)
  {
    var t' := WithReset(t, ResetAction(removed, false)).0;
    ResetOrderly(t, chunks, ResetAction(removed, false));
    forall r: nat, c: nat | 1 <= r <= t'.height && c < chunks ensures RoundLinked(hash, t', r, c) {
      assert RoundLinked(hash, t, r, c);
      forall i | 1 <= i < |t'.rounds[r].chunks[c].verified| ensures ContributionLinked(hash, t', r, c, i) {
        assert r < t.height && ContributionLinked(hash, t, r, c, i);
      }
    }
  }
}
