/**
  Storage as the coordinator updates it: one object whose operations check and then change the
  rounds and files in place. Every operation is proved to do what the store-level operation says,
  to keep the rounds in order, and to keep the hash chain intact.
 */
module Disk {
  import opened Wrappers
  import opened Tasks
  import opened Lists
  import opened Participants
  import opened Ceremony
  import opened Phase2
  import opened Codec
  import opened Stores
  import opened HashChain

  class Storage {
    const env: Environment
    const hash: Bytes -> Hash
    var height: nat
    var rounds: map<nat, Round>
    var files: map<Locator, Bytes>
    var aggregated: set<nat>

    ghost function Value(): Store
      reads this
    {
      Store(height, rounds, files, aggregated)
    }

    /** The rounds are in order. */
    ghost predicate Valid()
      reads this
    {
      Orderly(Value(), env.chunks)
    }

    /** Everything accepted so far is chained. */
    ghost predicate Intact()
      reads this
    {
      Chained(hash, Value(), env.chunks)
    }

    constructor (env: Environment, hash: Bytes -> Hash, files: map<Locator, Bytes>)
      ensures Valid() && Intact() && Initial(Value(), env.chunks)
      ensures this.env == env && this.hash == hash && this.files == files
    {
      this.env, this.hash, this.files := env, hash, files;
      height, aggregated := 0, {};
      rounds := map[0 := Round([], seq(env.chunks, _ => NEW_CHUNK))];
    }

    method SetChunk(c: nat, chunk: Chunk)
      requires Value().HasChunk(c)
      modifies this`rounds
      ensures Value() == WithChunk(old(Value()), c, chunk)
    {
      var round := rounds[height];
      rounds := rounds[height := round.(chunks := round.chunks[c := chunk])];
    }

    method Write(file: Locator, content: Bytes)
      modifies this`files
      ensures files == old(files)[file := content]
      ensures old(Valid()) ==> Valid()
      ensures old(Intact()) && !InTranscript(old(Value()), file) ==> Intact()
    {
      ghost var t := Value();
      if Orderly(t, env.chunks) { FilesOrderly(t, env.chunks, files[file := content]); }
      if Chained(hash, t, env.chunks) && !InTranscript(t, file) { FilesChained(hash, t, env.chunks, files[file := content]); }
      hide Orderly, Chained;
      files := files[file := content];
    }

    /** Removes a file, wanted or not. */
    method Remove(file: Locator)
      modifies this`files
      ensures Value() == Erased(old(Value()), file)
      ensures old(Valid()) ==> Valid()
      ensures old(Intact()) && !InTranscript(old(Value()), file) ==> Intact()
    {
      ghost var t := Value();
      if Orderly(t, env.chunks) { FilesOrderly(t, env.chunks, files - {file}); }
      if Chained(hash, t, env.chunks) && !InTranscript(t, file) { FilesChained(hash, t, env.chunks, files - {file}); }
      hide Orderly, Chained;
      files := files - {file};
    }

    /** Locks the chunk for its next contribution and puts a blank response file in place. */
    method TryLockChunk(c: nat, p: Participant, blank: Bytes) returns (ok: bool)
      modifies this
      ensures Value() == WithLock(env, old(Value()), c, p, blank)
      ensures ok <==> CanLock(env, old(Value()), c, p)
      ensures (old(Valid()) ==> Valid()) && (old(Intact()) ==> Intact())
    {
      ghost var t := Value();
      if Orderly(t, env.chunks) { LockOrderly(env, t, env.chunks, c, p, blank); }
      if Chained(hash, t, env.chunks) { LockChained(env, hash, t, env.chunks, c, p, blank); }
      hide Orderly, Chained;
      if c > env.chunks || p.Verifier? || height !in rounds || c >= |rounds[height].chunks| { return false; }
      var round := rounds[height];
      var chunk := round.chunks[c];
      if p !in round.contributors || |round.LocksOf(p)| >= env.lockLimit { return false; }
      if !chunk.Open() || |chunk.verified| == round.Expected() { return false; }
      var next := Locator(height, c, |chunk.verified|, false);
      if next in files || chunk.holder.Some? || p in chunk.makers { return false; }
      SetChunk(c, chunk.(holder := Some(p)));
      files := files[next := blank];
      return true;
    }

    /** Checks the lock, the id, the hash of the challenge and the signature, then adds the response. */
    method AddContribution(c: nat, p: Participant, signed: bool) returns (ok: bool)
      modifies this
      ensures Value() == WithResponse(hash, old(Value()), c, p, signed)
      ensures ok <==> CanContribute(hash, old(Value()), c, p, signed)
      ensures (old(Valid()) ==> Valid()) && (old(Intact()) ==> Intact())
    {
      ghost var t := Value();
      if Orderly(t, env.chunks) { ResponseOrderly(hash, t, env.chunks, c, p, signed); }
      if Chained(hash, t, env.chunks) { ResponseChained(hash, t, env.chunks, c, p, signed); }
      hide Orderly, Chained;
      if height !in rounds || c >= |rounds[height].chunks| { return false; }
      var round := rounds[height];
      var chunk := round.chunks[c];
      if p !in round.contributors || chunk.holder != Some(p) { return false; }
      if !chunk.Open() || |chunk.verified| == round.Expected() { return false; }
      var n := |chunk.verified|;
      if !Linked(hash, files, Locator(height, c, n - 1, true), Locator(height, c, n, false)) { return false; }
      if !signed { return false; }
      SetChunk(c, Chunk(None, chunk.verified + [false], chunk.makers + [p]));
      return true;
    }

    /** Checks both hash links and the signature, then marks the newest contribution as verified. */
    method VerifyContribution(task: Task, p: Participant, signed: bool) returns (ok: bool)
      modifies this
      ensures Value() == WithChallenge(hash, old(Value()), task, p, signed)
      ensures ok <==> CanVerify(hash, old(Value()), task, p, signed)
      ensures (old(Valid()) ==> Valid()) && (old(Intact()) ==> Intact())
    {
      ghost var t := Value();
      if Orderly(t, env.chunks) { ChallengeOrderly(hash, t, env.chunks, task, p, signed); }
      if Chained(hash, t, env.chunks) { ChallengeChained(hash, t, env.chunks, task, p, signed); }
      hide Orderly, Chained;
      if p.Contributor? || height !in rounds || task.chunk >= |rounds[height].chunks| { return false; }
      var round, c := rounds[height], task.chunk;
      var chunk := round.chunks[c];
      var id := |chunk.verified| - 1;
      if id != task.contribution || id == 0 { return false; }
      var challenge, response := Locator(height, c, id - 1, true), Locator(height, c, id, false);
      if !Linked(hash, files, challenge, response) { return false; }
      if !Linked(hash, files, response, NextChallenge(height, c, id, |round.contributors|)) { return false; }
      if !signed || chunk.verified[id] { return false; }
      SetChunk(c, chunk.(holder := None, verified := chunk.verified[id := true]));
      return true;
    }

    /** Removes an older aggregate, checks the round, and records the new aggregate. */
    method AggregateContributions(succeeds: bool) returns (ok: bool)
      requires Valid()
      modifies this
      ensures Value() == WithAggregate(old(Value()), succeeds)
      ensures ok <==> 0 < height && height in aggregated
      ensures Valid() && (old(Intact()) ==> Intact())
    {
      ghost var t := Value();
      AggregateOrderly(t, env.chunks, succeeds);
      if Chained(hash, t, env.chunks) { AggregateChained(hash, t, env.chunks, succeeds); }
      assert height in rounds && height + 1 !in rounds;
      hide Orderly, Chained;
      if height == 0 { return false; }
      aggregated := aggregated - {height};
      var round := rounds[height];
      for c := 0 to |round.chunks|
        invariant Value() == t.(aggregated := t.aggregated - {height})
        invariant forall d :: 0 <= d < c ==> FinalPair(files, height, d, |round.contributors|)
      {
        if !FinalPair(files, height, c, |round.contributors|) { return false; }
      }
      if !round.Complete() || !succeeds { return false; }
      aggregated := aggregated + {height};
      return true;
    }

    /** Opens the next round, if the current one is aggregated and all first challenges are there. */
    method NextRound(contributors: seq<Participant>) returns (ok: bool)
      modifies this
      ensures Value() == WithNextRound(env, old(Value()), contributors)
      ensures ok <==> CanOpen(env, old(Value()), contributors)
      ensures (old(Valid()) ==> Valid()) && (old(Intact()) ==> Intact())
    {
      ghost var t := Value();
      if Orderly(t, env.chunks) { AdvanceOrderly(env, t, contributors); }
      if Chained(hash, t, env.chunks) { AdvanceChained(env, hash, t, contributors); }
      hide Orderly, Chained;
      var next := height + 1;
      if contributors == [] || (height != 0 && height !in aggregated) || next in rounds { return false; }
      for c := 0 to env.chunks
        invariant forall d :: 0 <= d < c ==> FirstChallenge(next, d) in files
      {
        if FirstChallenge(next, c) !in files { return false; }
      }
      if env.chunks == 0 || env.coordinatorVerifiers == [] || Repeats(contributors) { return false; }
      if exists p :: p in contributors && p.Verifier? { return false; }
      rounds := rounds[next := Round(contributors, seq(env.chunks, _ => NEW_CHUNK))];
      height := next;
      return true;
    }

    /** Clears the current round; a rollback removes it and goes back by one. */
    method ResetRound(action: ResetAction) returns (r: Outcome<()>)
      modifies this
      ensures (Value(), r) == WithReset(old(Value()), action)
    {
      if height !in rounds { return Err(RoundDoesNotExist); }
      var round := rounds[height];
      var gone := action.removed;
      var kept := Filter(round.contributors, (p: Participant) => p !in gone);
      rounds := rounds[height := Round(kept, seq(|round.chunks|, i requires 0 <= i < |round.chunks| => NEW_CHUNK))];
      files := map f | f in files && Survives(f, height) :: files[f];
      aggregated := aggregated - {height, height + 1};
      if !action.rollback { return Ok(()); }
      if height == 0 { return Err(RoundHeightIsZero); }
      rounds := rounds - {height};
      height := height - 1;
      return Ok(());
    }

    /** Takes the dropped contributor and its work out of the round, and puts another one in its place. */
    method ReplaceContributor(dropped: Participant, locked: set<nat>, lost: map<nat, nat>, replacement: Participant)
      modifies this
      ensures Value() == WithReplacement(old(Value()), dropped, locked, lost, replacement)
    {
      if height !in rounds { return; }
      ghost var t := Value();
      var round := rounds[height];
      var chunks: seq<Chunk> := [];
      var kept := files;
      hide WithoutWork, Abandoned;
      for c := 0 to |round.chunks|
        invariant Value() == t && |chunks| == c
        invariant forall d :: 0 <= d < c ==> chunks[d] == WithoutWork(round.chunks[d], d, dropped, locked, lost)
        invariant kept == Remaining(t, dropped, locked, lost, c)
      {
        var gone := AbandonedOn(c, dropped, locked, lost);
        kept := kept - gone;
        chunks := chunks + [WithoutWork(round.chunks[c], c, dropped, locked, lost)];
      }
      ReplacedStore(t, dropped, locked, lost, replacement, chunks);
      var contributors := Others(round.contributors, dropped) + [replacement];
      rounds, files := rounds[height := Round(contributors, chunks)], kept;
    }

    /** The files that go with the dropped contributor on one chunk. */
    method AbandonedOn(c: nat, dropped: Participant, locked: set<nat>, lost: map<nat, nat>) returns (gone: set<Locator>)
      requires Value().HasChunk(c)
      ensures forall f :: f in gone ==> f.chunk == c
      ensures forall f: Locator :: f.chunk == c ==> (f in gone <==> Abandoned(Value(), dropped, locked, lost, f))
    {
      var round, h := rounds[height], height;
      var chunk := round.chunks[c];
      var n := |chunk.verified|;
      gone := {};
      if c in locked && chunk.holder == Some(dropped) {
        gone := {Locator(h, c, n, false)};
        if 1 < n && chunk.Open() { gone := gone + {NextChallenge(h, c, n - 1, |round.contributors|)}; }
      }
      if c in lost && lost[c] < n {
        gone := gone + {Locator(h, c, lost[c], false)};
        if chunk.verified[lost[c]] { gone := gone + {NextChallenge(h, c, lost[c], |round.contributors|)}; }
      }
    }
  }

  /** The files left when the abandoned ones of the first `c` chunks are gone. */
  ghost function Remaining(t: Store, dropped: Participant, locked: set<nat>, lost: map<nat, nat>, c: nat): map<Locator, Bytes> {
    map f | f in t.files && !(f.chunk < c && Abandoned(t, dropped, locked, lost, f)) :: t.files[f]
  }

  lemma ReplacedStore(t: Store, dropped: Participant, locked: set<nat>, lost: map<nat, nat>, replacement: Participant,
                      chunks: seq<Chunk>)
    requires t.height in t.rounds && |chunks| == |t.rounds[t.height].chunks|
    requires forall d :: 0 <= d < |chunks| ==> chunks[d] == WithoutWork(t.rounds[t.height].chunks[d], d, dropped, locked, lost)
    ensures var t' := WithReplacement(t, dropped, locked, lost, replacement);
      t'.rounds[t.height].chunks == chunks && t'.files == Remaining(t, dropped, locked, lost, |chunks|)
  {
    hide WithoutWork;
    var t' := WithReplacement(t, dropped, locked, lost, replacement);
    assert forall f :: Abandoned(t, dropped, locked, lost, f) ==> f.chunk < |chunks|;
    hide Abandoned;
    assert t'.rounds[t.height].chunks == chunks;
  }
}
