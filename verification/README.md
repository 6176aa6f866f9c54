# A verified model of the trusted-setup ceremony

This Dafny project models the ceremony coordinator and the cryptographic phases of the setup
repository, and proves what they are for.

**The ceremony scheduler.** A coordinator runs rounds of contributors over many chunks. It keeps a
queue, stages and commits rounds, hands out tasks and locks, collects completions and
verifications, replaces or drops contributors, and resets rounds. The modules are layered:

| module | content |
|---|---|
| `Tasks` | the task list of each contributor: the counting loop, its closed form, and the cover of all (chunk, contribution) pairs |
| `Participants` | one contributor's record and every operation on it, as a value |
| `Ceremony` | the meaning of every coordinator operation as a map from states to states and outcomes |
| `Rounds` | any run of these operations: soundness, round transitions, precommit and rollback |
| `Conservation` | runs with their history: no task is lost or doubled, and a finished round is done |
| `Drops`, `Queueing` | what drops, resets and the queue guarantee |
| `Admission` | who gets into a round: joining and leaving the queue, when a precommit succeeds, bans |
| `Coordinator` | the coordinator as an object that changes its maps in place, in loops over hash maps; every method is proved to do what `Ceremony` says |
| `Stores` | the ceremony in storage as a value: rounds, progress and locks of chunks, challenge and response files |
| `StoredResets` | what a reset removes from storage, and that work can start again after it |
| `HashChain` | the accepted files of a chunk as one unbroken hash chain across all rounds |
| `StoredDrops` | what a drop does to storage: the broken chain, the stuck chunk, the responses left behind, and all that may happen afterwards |
| `Joint` | scheduler and storage together: when an operation keeps them in step, and what that gives |
| `JointRuns` | any run of scheduler and storage in which nobody is replaced, and the drop of a member that nobody can replace |
| `Replacements` | a member that is replaced, in the state and in storage |
| `StoredRules` | who may do what in storage: lock limits, one contribution each, and where every contribution, verification and lock comes from |
| `WorkOrder` | members work through their tasks in order; what a lock takes up, and who made which contribution |
| `Progress` | a round that takes work is never stuck, and every step that gets it on has its effect |
| `Bookkeeping` | what is undone, disposed and remembered: locks, tasks, drops, aggregations, bans |
| `JointChain` | the hash chain in runs of the coordinator: verifications, refused responses, and the drop of a member |
| `Disk` | storage as an object that checks and then changes its rounds and files in place |
| `StoredCeremony` | the coordinator around its state and its storage |

**The cryptographic phases.** Points are represented by their discrete logarithms modulo a prime
`p`, pairings by multiplication, hashes by arbitrary functions; hashing to the curve is only known
to avoid zero. Statements hold for every prime.

| module | content |
|---|---|
| `Field`, `Pairing` | arithmetic modulo a prime with inverses; ratio checks and random linear combinations |
| `Phase2` | contributions to Groth16 parameters and their verification in memory |
| `Contributions` | what acceptance means, and that every honest run is accepted |
| `KeyGeneration` | fresh parameters from a circuit, and well-formedness of the key through any contributions |
| `Codec`, `Readers` | byte codes, segments of a buffer, and reading parameters back |
| `ChunkedGroth16` | the in-place, batched contribution on a byte buffer |
| `ChunkedVerify` | the batched verification of two byte buffers |
| `Multiexp` | windowed, bucketed multi-exponentiation in parallel chunks |
| `Phase1`, `Phase1Computation` | phase 1 contributions for Groth16 and Marlin: their algebra, and the computation on output buffers in overlapping batches |
| `PreparedCoefficients` | the file of prepared coefficients and its prefixes |

`Arith`, `Lists` and `Wrappers` hold small shared facts and types.

The short handlers of `Coordinator.CoordinatorState` (`AddToQueue`, `RemoveFromQueue`, `FetchTask`,
`AcquiredLock`, `RollbackPendingTask`, `RollbackLockedTask`, `DisposedTask`,
`AggregatingCurrentRound`, `AggregatedCurrentRound`, `RollbackAggregatingCurrentRound`,
`BanParticipant`, `UnbanParticipant`) and the methods of `Disk.Storage` do in place what the
value-level operation of the same meaning says. What they add is the invariant: the state stays
sound, the rounds stay in order, the chain stays intact. The theorems about them are those about the
value-level operations, listed below.

Three modelling choices run through the project. Where the program walks over a hash map or waits
for threads, the order is arbitrary: an argument of the value-level operation, and the choice of an
element of a set in the imperative one. Where randomness decides a check, the statement is about
all randomness. A panic is an outcome of its own, never an acceptance.

The source and its comments disagree in one place: the sketch of the task assignment at
`phase1-coordinator/src/coordinator_state.rs:2967` gives every task of a contributor the same
contribution id, while `initialize_tasks` counts the buckets cyclically. The model follows the code.

Some properties that one might expect are false of the code. Each has a concrete input that shows
it, and the exact condition.

- A rollback of a locked task checks the chunk only, so it can put a task into a record that never
  held it (`Participants.RollbackCanForgeTask`); `Participants.RollbackConservesIff` says when it
  does not.
- A replacement that is already in the round overwrites a record, and the buckets are not covered any
  more (`Conservation.InsiderDropExists`); the cover is kept exactly when the first coordinator
  contributor with nothing to do is outside the round (`Conservation.CoverKeptIff`).
- A drop takes back work of the current contributors only. Work of a finished contributor that was
  built on the lost contribution stays in the state (`Drops.StrandedWorkExists`,
  `Drops.DropKeepsPrefix`), while storage removes it (`Replacements.ReplacedAgreesIff`).
- A drop erases the challenge that the dropped contributor was answering, even though the
  contribution before it stays (`StoredDrops.LockedDropExists`, `StoredDrops.DropKeepsChainIff`; for
  every run of the coordinator `JointChain.FirstDropIff`). Until that challenge is written again, the
  contribution before it is dropped too, or the round is taken back, no response to the chunk is
  accepted and the round does not end (`StoredDrops.ChunkStaysStuck`).
- A drop removes the response of the lost contribution and no later one
  (`StoredDrops.StaleDropExists`); nothing is left behind exactly when nobody had contributed after it
  (`StoredDrops.NothingStaleIff`). The next response in the way keeps the chunk from being locked, and
  the round does not end until that file is erased or the round is taken back
  (`StoredDrops.ChunkStaysBlocked`).
- A refused verification may erase a challenge that had been accepted
  (`JointChain.HarmfulVerificationExists`); `JointChain.VerifyKeepsChainIff` says when the chain
  survives, and `JointChain.VerifyTwiceIff` with `JointChain.LastVerification` when it survives asking
  twice.
- A contribution with a zero random point is written to the buffer but cannot be read back
  (`Readers.ContributionReadsBack`), and the batched verification refuses keys with zero points that
  the in-memory one accepts (`ChunkedVerify.ZeroPointRefused`, `ChunkedVerify.BatchingIrrelevant`).

## Model

| member | source | states |
|---|---|---|
| `Tasks.InitializeTasks` | phase1-coordinator/src/objects/task.rs:172-241 | the counting loop, refusals included, computes the closed form of the bucket's walk |
| `Tasks.TaskInBucket` | phase1-coordinator/src/objects/task.rs:172-241 | a bucket's list holds, for every chunk, exactly the task with the cyclic contribution id |
| `Tasks.WalkInOrder` | phase1-coordinator/src/objects/task.rs:172-250 | step i of bucket b's list is chunk (b size + i) modulo the number of chunks |
| `Tasks.IdsNeverFall` | phase1-coordinator/src/objects/task.rs:172-250 | contribution ids never fall along a bucket's list, and the first is 1 |
| `Tasks.BucketTasksDistinct` | phase1-coordinator/src/objects/task.rs:172-241 | a bucket's list visits every chunk once |
| `Tasks.EveryPairOnce` | phase1-coordinator/src/objects/task.rs:172-241 | over all buckets every (chunk, id in 1..n) pair occurs in exactly one list, that of its owner |
| `Participants.PopConserves` | phase1-coordinator/src/coordinator_state.rs:396-432 | fetching a task conserves assigned + pending + completed as the bucket's list |
| `Participants.CompleteConserves` | phase1-coordinator/src/coordinator_state.rs:647-719 | completing a task conserves the record's tasks |
| `Participants.RollbackConservesIff` | phase1-coordinator/src/coordinator_state.rs:495-640 | either rollback conserves the tasks exactly when its guard refuses or the record holds the given task |
| `Participants.RollbackCanForgeTask` | phase1-coordinator/src/coordinator_state.rs:495-570 | a concrete record with a locked chunk and a task of that chunk it never held, for which a successful rollback of the lock breaks conservation |
| `Coordinator.CoordinatorState.constructor` | phase1-coordinator/src/coordinator_state.rs:976-1183 | a new, initialized coordinator is sound |
| `Coordinator.CoordinatorState.UpdateQueue` | phase1-coordinator/src/coordinator_state.rs:2468-2520 | the sorting and assigning loops compute the queue in which position k of the line has round k / maximum |
| `Coordinator.CoordinatorState.CompletedTask` | phase1-coordinator/src/coordinator_state.rs:1802-1904 | completes and queues for verification, or ends the wait; the record stays updated if queueing fails |
| `Coordinator.CoordinatorState.UpdateCurrentContributors` | phase1-coordinator/src/coordinator_state.rs:2526-2575 | the filtering loop moves exactly those who can finish to the finished roster |
| `Coordinator.CoordinatorState.PrecommitNextRound` | phase1-coordinator/src/coordinator_state.rs:2835-3017 | stages the members in order of reliability, or refuses with the first failing guard and no change |
| `Coordinator.CoordinatorState.CommitNextRound` | phase1-coordinator/src/coordinator_state.rs:3027-3094 | the joining loop moves the staged contributors into the round and counts them |
| `Coordinator.CoordinatorState.RollbackNextRound` | phase1-coordinator/src/coordinator_state.rs:3102-3129 | returns everyone staged to the queue |
| `Coordinator.CoordinatorState.ResetCurrentRound` | phase1-coordinator/src/coordinator_state.rs:1012-1153 | restarts every member with the tasks of its position, then rolls back or reruns the round |
| `Coordinator.CoordinatorState.AddReplacement` | phase1-coordinator/src/coordinator_state.rs:2402-2438 | the least loaded coordinator contributor takes over the bucket |
| `Coordinator.CoordinatorState.DropParticipant` | phase1-coordinator/src/coordinator_state.rs:2093-2352 | the loop over all records disposes what was built on lost work and refills the lists; then replace or reset |
| `Rounds.StepSound` | phase1-coordinator/src/coordinator_state.rs:1488-3129 | every operation, bans included, with any outcome, keeps the state sound |
| `Rounds.TransitionSafety` | phase1-coordinator/src/coordinator_state.rs:2835-3129 | in every state of every run, the last one included: queue and staging are disjoint, staging only in precommit, the height rises only by one, only in a commit of a complete (and, after round 0, aggregated) round |
| `Rounds.PrecommitThenRollback` | phase1-coordinator/src/coordinator_state.rs:2835-3129 | a successful precommit that is rolled back restores everything but queue times |
| `Conservation.AffectedConserves` | phase1-coordinator/src/coordinator_state.rs:2217-2270 | refilling a record after a drop restores the bucket's full list, once each |
| `Conservation.ReplaceCovers` | phase1-coordinator/src/coordinator_state.rs:2209-2319 | a drop with a replacement from outside the round hands over the bucket and keeps all buckets covered once |
| `Conservation.InsiderBreaksCover` | phase1-coordinator/src/coordinator_state.rs:2402-2438 | a replacement from inside the round never leaves a cover, whatever the bucket map |
| `Conservation.ReplacementIff` | phase1-coordinator/src/coordinator_state.rs:2402-2438 | the least loaded candidate is outside the round exactly when, in the state before the drop, the first candidate with nothing left to do is |
| `Conservation.CoverKeptIff` | phase1-coordinator/src/coordinator_state.rs:2209-2319 | after a drop with a replacement some bucket map covers the round exactly when a free candidate comes first in line |
| `Conservation.InsiderDropExists` | phase1-coordinator/src/coordinator_state.rs:2402-2438 | a covered round of two, the only coordinator contributor among them, whose drop of the other one breaks the cover |
| `Conservation.ResetCovers` | phase1-coordinator/src/coordinator_state.rs:1012-1153 | a reset succeeds on any restartable round and restarts everyone at a bucket of their own |
| `Conservation.TasksConserved` | phase1-coordinator/src/coordinator_state.rs:276-719 | in every state of every careful run, every (chunk, id in 1..n) task is held by exactly one member, once, and nothing else is held |
| `Conservation.FinishedRoundIsDone` | phase1-coordinator/src/coordinator_state.rs:1369-1374 | in every careful run, a finished round has each task completed by exactly one finished contributor and verified after its latest completion |
| `Drops.DropKeepsPrefix` | phase1-coordinator/src/coordinator_state.rs:2209-2319 | where the dropped one had id k of a chunk, the progress of the whole round there becomes 1..k-1 exactly when no finished contributor has a later id; id k is gone, nobody is pending there, and other chunks keep their progress |
| `Drops.StrandedWorkExists` | phase1-coordinator/src/coordinator_state.rs:2217-2270 | a covered round of two in which a drop leaves a finished contributor's second contribution without a first |
| `Drops.RollbackLosesNobody` | phase1-coordinator/src/coordinator_state.rs:1041-1128 | a forced reset yields the round before, finished and aggregated, with everyone from the round and from staging in the queue at the reliability they had, the same bans, and the waiting time running |
| `Drops.ResetReassignsAll` | phase1-coordinator/src/coordinator_state.rs:1128-1153 | a reset that keeps the round assigns every (chunk, id in 1..M) task to exactly one of the M members, without locks; the queue, the bans and the record of drops stay |
| `Queueing.QueueFair` | phase1-coordinator/src/coordinator_state.rs:2468-2520 | the update keeps exactly the contributors that are not banned and never gives a strictly earlier joiner a later round |
| `Queueing.QueueTight` | phase1-coordinator/src/coordinator_state.rs:2468-2520 | every round but the last is filled to the maximum |
| `Queueing.PrecommitByReliability` | phase1-coordinator/src/coordinator_state.rs:2898-3017 | buckets follow falling reliability |
| `Queueing.PrecommitTakesFirst` | phase1-coordinator/src/coordinator_state.rs:2898-3017 | a precommit right after an update that succeeds takes exactly the min(maximum, n) members assigned to the next round |
| `Admission.EnqueueIff` | phase1-coordinator/src/coordinator_state.rs:1488-1550 | who may join the queue and the entry it gets; a refusal changes nothing |
| `Admission.EnqueueThenDequeue` | phase1-coordinator/src/coordinator_state.rs:1488-1570 | leaving the queue right after joining undoes it |
| `Admission.DropFromQueueIs` | phase1-coordinator/src/coordinator_state.rs:2104-2140 | dropping someone that waits or is staged; in the second case the others staged wait again |
| `Admission.PrecommitIff` | phase1-coordinator/src/coordinator_state.rs:2835-3017 | a precommit succeeds exactly when the next round is asked for, the current one is over and the waiting time too, somebody waits, and the members assigned are not banned and as many as allowed |
| `Admission.BanIff` | phase1-coordinator/src/coordinator_state.rs:2359-2395 | a ban succeeds exactly for a member that can be dropped and is not banned; then it is a drop after which one more is banned |
| `Admission.CommittedRoundFits` | phase1-coordinator/src/coordinator_state.rs:2835-3094 | in every run, bans included, a round begins with at least the minimum and at most the maximum of contributors, none of them banned |
| `Bookkeeping.LockRolledBack` | phase1-coordinator/src/coordinator_state.rs:396-570 | fetching a task, locking its chunk and rolling the lock back restores the record |
| `Bookkeeping.SecondCompletion` | phase1-coordinator/src/coordinator_state.rs:1802-1904 | a completion that waits already is refused after the record has changed; otherwise it waits for the first verifier |
| `Bookkeeping.DropSortsWork` | phase1-coordinator/src/coordinator_state.rs:2217-2270 | a drop splits everybody's pending tasks by chunk and completed ones by what they were built on; nothing is lost or doubled |
| `Bookkeeping.DisposalEnds` | phase1-coordinator/src/coordinator_state.rs:726-790 | when a task is disposed of, and what that does to the record |
| `Bookkeeping.DropRemembered` | phase1-coordinator/src/coordinator_state.rs:2209-2352 | the dropped record is kept with the time of the drop, unless the round is taken back; bans stay, and the queue with the round |
| `Bookkeeping.ReplacementIs` | phase1-coordinator/src/coordinator_state.rs:2402-2438 | the replacement starts with the whole list of the bucket and reliability 10; other records stay |
| `Bookkeeping.CancelUndoesStart` | phase1-coordinator/src/coordinator_state.rs:1976-2085 | an aggregation starts once, and cancelling it restores the state |
| `Bookkeeping.UnbanReadmits` | phase1-coordinator/src/coordinator_state.rs:1488-1550 | once a ban is lifted, joining the queue depends on everything but the ban |
| `JointRuns.StepInStep` | phase1-coordinator/src/coordinator.rs:872-1356 | every coordinator operation, drops of members that nobody replaces included, with any outcome, keeps state and storage in step: the same progress per chunk, waiting exactly for what is not verified, locks in storage that the state has |
| `Joint.FinishedIsComplete` | phase1-coordinator/src/coordinator.rs:1849-1940 | in step, a round without current contributors and waiting verifications has all contributions of every chunk stored, verified and unlocked |
| `JointRuns.FinishedRoundIsStored` | phase1-coordinator/src/coordinator.rs:872-2040 | in every run in which nobody is replaced, a round that the scheduler shows as finished is complete in storage, so its aggregation cannot be refused as incomplete |
| `Joint.DropAgreesIff` | phase1-coordinator/src/objects/round.rs:788-1075 | after a drop with a replacement, state and storage agree on a chunk exactly when no finished contributor had completed a later contribution of it |
| `JointRuns.DismissalAgrees` | phase1-coordinator/src/coordinator_state.rs:2280-2340 | after the drop of a member that nobody can replace, state and storage are in step and the member is gone from both; those left start over, listed exactly, or, if nobody is left, the round is taken back in both |
| `Replacements.ReplacedInBoth` | phase1-coordinator/src/coordinator.rs:2148-2203 | after a replacement the stored round lists exactly the members again, the new one last, and the dropped one holds no lock |
| `Replacements.ReplacedAgreesIff` | phase1-coordinator/src/coordinator.rs:2148-2203 | after the whole drop, state and storage agree on a chunk exactly when no finished contributor had worked on it after the dropped one |
| `StoredResets.ResetFiles` | phase1-coordinator/src/storage/disk.rs:340-385 | no file of the next round and no response or later challenge of the round is left; all other files are as they were |
| `StoredResets.ResetRounds` | phase1-coordinator/src/objects/round.rs:1125-1158 | the round starts over for those not removed, in their order, or is gone; other rounds stay |
| `StoredResets.ResetUnlocks` | phase1-coordinator/src/coordinator.rs:2300-2334 | after a reset that keeps the round, every contributor left can lock any chunk |
| `StoredResets.ReopenUnlocks` | phase1-coordinator/src/coordinator.rs:2300-2334 | a round that was taken back can open again, and then each of its contributors can lock any chunk |
| `StoredRules.EveryRoundRuled` | phase1-coordinator/src/objects/round.rs:513-640 | in every run, drops, resets, uploads and erasures included: contributors are listed once, nobody holds more locks than allowed, nobody contributes twice to a chunk, and locks belong to listed contributors that have not contributed to it |
| `StoredRules.CoordinatorRuled` | phase1-coordinator/src/coordinator.rs:872-2334 | the same in every run of the coordinator in which nobody is replaced |
| `StoredRules.EveryLockMade` | phase1-coordinator/src/objects/round.rs:513-640 | whoever holds a lock locked the chunk when it was free, and has held it since: locks are never taken over |
| `StoredRules.VerifiedWorkTraced` | phase1-coordinator/src/coordinator.rs:1444-1835 | in every run, a verified contribution goes back to a signed, linked response of the holder of the lock and a later signed, linked verification by a verifier, and was not replaced since |
| `WorkOrder.LockTakesFirst` | phase1-coordinator/src/coordinator.rs:872-937 | locking takes up exactly the first assigned task, if that is next for its chunk and the chunk can be locked; otherwise nothing changes |
| `WorkOrder.CreditsAreRight` | phase1-coordinator/src/coordinator.rs:987-1107 | in every run in which nobody is replaced, storage credits each contribution to exactly the member that completed it, and nobody made two of a chunk |
| `Progress.SomebodyLocks` | phase1-coordinator/src/coordinator.rs:872-937 | with nothing locked or waiting and no file in the way, as soon as somebody has tasks left, some member's attempt to lock succeeds, for the next contribution of that chunk |
| `Progress.NeverStuck` | phase1-coordinator/src/coordinator.rs:872-1195 | in every run in which nobody is replaced, a round that takes work, with no file in the way, can go on |
| `Progress.ResponseCounts` | phase1-coordinator/src/coordinator.rs:987-1107 | an acceptable response adds one contribution, releases the lock, completes the task and has it wait for the first verifier |
| `Progress.ApprovalCounts` | phase1-coordinator/src/coordinator.rs:1116-1195 | an acceptable verification marks the contribution and ends exactly its wait |
| `Progress.MarkCounts` | phase1-coordinator/src/coordinator_state.rs:2526-2575 | marking moves exactly the members that are done, with the time |
| `Progress.AggregationCompletes` | phase1-coordinator/src/coordinator.rs:1202-1270 | a finished round with its final files is aggregated in both places, and the waiting time starts |
| `Progress.FailedAggregation` | phase1-coordinator/src/coordinator.rs:1202-1270 | an aggregation that storage refuses leaves the state as it was and no aggregate behind |
| `Progress.RoundOpens` | phase1-coordinator/src/coordinator.rs:1278-1356 | a precommitted round that can open is opened in both places: it takes work, and its members have their whole lists to do |
| `Progress.EveryoneStarts` | phase1-coordinator/src/coordinator.rs:872-937 | in a new round every listed member that is not banned can lock its first chunk right away |
| `Bookkeeping.LockThenDispose` | phase1-coordinator/src/objects/round.rs:513-640 | a lock puts the response file in place and keeps everybody off the chunk; disposing restores the store |
| `Bookkeeping.AggregatedIff` | phase1-coordinator/src/coordinator.rs:1849-1940 | a round is aggregated exactly when every chunk is complete with its final files and the aggregation succeeds |
| `Bookkeeping.OpenedRound` | phase1-coordinator/src/coordinator.rs:1955-2040 | a round opens only after a complete, aggregated one, with all first challenges in place and contributors listed once |
| `Bookkeeping.RefusedResponseErased` | phase1-coordinator/src/coordinator.rs:1060-1107 | in step, a refused response of the holder of the lock is erased, and nothing else changes |
| `StoredCeremony.StoredCoordinator.TryLock` | phase1-coordinator/src/coordinator.rs:872-937 | fetches, locks in storage and records the lock, or puts the task back; state and storage stay in step |
| `StoredCeremony.StoredCoordinator.TryContribute` | phase1-coordinator/src/coordinator.rs:987-1107 | accepts a response in storage and completes its task, or erases it; state and storage stay in step |
| `StoredCeremony.StoredCoordinator.TryVerify` | phase1-coordinator/src/coordinator.rs:1116-1195 | accepts the next challenge and ends the wait for it, or erases it; state and storage stay in step |
| `StoredCeremony.StoredCoordinator.TryAggregate` | phase1-coordinator/src/coordinator.rs:1202-1270 | aggregates a finished round in both places, or takes the start back; state and storage stay in step |
| `StoredCeremony.StoredCoordinator.TryAdvance` | phase1-coordinator/src/coordinator.rs:1278-1356 | precommits, opens the round in storage and commits, or rolls back; both heights move together |
| `StoredCeremony.StoredCoordinator.ResetRound` | phase1-coordinator/src/coordinator.rs:2282-2334 | a forced reset takes both heights down by one and clears the round in both places, or changes nothing |
| `StoredCeremony.StoredCoordinator.DropParticipant` | phase1-coordinator/src/coordinator.rs:654-665 | storage does what the drop in the state asks for, a replacement or a reset, and both heights stay equal; without replacements state and storage stay in step |
| `HashChain.ResponseChained` | phase1-coordinator/src/coordinator.rs:1444-1598 | accepting a response keeps every accepted file linked |
| `HashChain.ChallengeChained` | phase1-coordinator/src/coordinator.rs:1623-1835 | accepting the next challenge, in this round or the next, keeps every accepted file linked |
| `HashChain.AdvanceChained` | phase1-coordinator/src/coordinator.rs:1955-2040 | opening a round keeps the chain, because the round before is complete |
| `HashChain.RollbackChained` | phase1-coordinator/src/objects/round.rs:1125-1158 | taking a round back keeps the chain of the rounds before it |
| `HashChain.TranscriptUnbroken` | phase1-coordinator/src/coordinator.rs:1471-1835 | in every run of storage without drops in which accepted files stay as they are, the accepted files of a chunk form one unbroken hash chain from round 1 to the newest contribution |
| `HashChain.ErasureKeepsChainIff` | phase1-coordinator/src/coordinator.rs:1150-1195 | the chain survives the erasure of a challenge exactly when that is not in use |
| `JointChain.VerifyKeepsChainIff` | phase1-coordinator/src/coordinator.rs:1116-1195 | the chain survives a verification exactly when it is not tried, is accepted, or is refused for a challenge that is not in use |
| `JointChain.VerifyTwiceIff` | phase1-coordinator/src/coordinator.rs:1116-1195 | a verification that was just accepted and is asked for again is refused; the chain survives that exactly when the round takes no more work |
| `JointChain.LastVerification` | phase1-coordinator/src/coordinator.rs:1116-1140 | in step, the round takes no more work after a verification exactly when nobody is working and it was the only one awaited |
| `JointChain.HarmfulVerificationExists` | phase1-coordinator/src/coordinator.rs:1116-1195 | a chained store with one verified contribution, and a request to verify it again that breaks the chain |
| `JointChain.CoordinatorKeepsTranscript` | phase1-coordinator/src/coordinator.rs:872-2040 | in every run of the coordinator in which nobody is replaced, accepted files are not touched from outside and every verification is harmless, the accepted files of every chunk form one unbroken chain; refused responses never erase an accepted one |
| `JointChain.FirstDropIff` | phase1-coordinator/src/coordinator.rs:2148-2203 | in every such run, storage does not refuse the drop of a member, and with a replacement the chain survives it exactly when the member holds no lock on a chunk that somebody has contributed to |
| `StoredDrops.DropKeepsChainIff` | phase1-coordinator/src/objects/round.rs:788-1075 | the chain survives a drop with a replacement exactly when the dropped contributor held no lock on a chunk with an earlier contribution that stays |
| `StoredDrops.LockedDropExists` | phase1-coordinator/src/objects/round.rs:826-900 | a chained store of one chunk in which dropping the second contributor while it answers the first breaks the chain |
| `StoredDrops.ChunkStaysStuck` | phase1-coordinator/src/objects/round.rs:826-900 | after such a drop, whatever happens in storage, further drops and relocks included, until the challenge is written again, the contribution before it is dropped or the round is taken back: the chunk accepts no response and the round is never complete, aggregated or left |
| `StoredDrops.NothingStaleIff` | phase1-coordinator/src/objects/round.rs:1024-1066 | no response from the lost contribution on is left behind exactly when nobody had contributed after it |
| `StoredDrops.ChunkStaysBlocked` | phase1-coordinator/src/objects/round.rs:1024-1066 | where somebody had, whatever happens in storage until the response after the lost one is erased or the round is taken back: the chunk never gets past the lost contribution, nobody can lock it there, and the round is never complete, aggregated or left |
| `StoredDrops.StaleDropExists` | phase1-coordinator/src/objects/round.rs:1024-1066 | a chained store of one chunk in which dropping the first contributor leaves the response of the second in the way |
| `Pairing.RatioScalar` | setup-utils/src/helpers.rs:359-376 | a ratio check with a nonzero base holds exactly when one scalar explains both pairs |
| `Pairing.MergeIffElementwise` | setup-utils/src/helpers.rs:329-340 | the merged check under all randomness is the check of every element |
| `Phase2.MPCParameters.Contribute` | phase2/src/parameters.rs:154-175 | the in-place contribution computes the specified parameters and returns the key's hash; a zero delta panics without change |
| `Phase2.BatchMul` | setup-utils/src/helpers.rs:51-61 | every point is multiplied by the scalar |
| `Phase2.VerifyTranscript` | phase2/src/parameters.rs:343-372 | the loop computes the verdict on the transcript, with the first failing check |
| `Phase2.TranscriptMeaning` | phase2/src/parameters.rs:343-372 | a transcript is accepted exactly when secrets exist that explain every key and multiply up to every delta |
| `Contributions.VerifyMeaning` | phase2/src/parameters.rs:182-275 | under all randomness, verification accepts exactly the extensions whose transcript secrets explain, whose deltas both carry the full product and whose H and L entries balance it |
| `Contributions.RejectionMeans` | phase2/src/parameters.rs:182-372 | a verification is rejected for a reason that is there: each reason names a real difference, imbalance or missing secret |
| `Contributions.ContributeAccounts` | phase2/src/keypair.rs:123-149 | a contribution extends the explained transcript by its own secret |
| `Contributions.HonestRunVerifies` | phase2/src/parameters.rs:154-275 | in every honest run each version accepts each later one and returns the contributors' hashes in order |
| `KeyGeneration.GroupingIrrelevant` | phase2/src/polynomial.rs:92-107 | a parallel fold equals the sequential sum, however it is cut |
| `KeyGeneration.ScheduleIrrelevant` | phase2/src/polynomial.rs:12-86 | the fresh parameters do not depend on the cuts of any of the parallel sums |
| `KeyGeneration.HQueryIs` | setup-utils/src/groth16_utils.rs:62-66 | each H entry is tau^i (tau^m - 1) |
| `KeyGeneration.ValueIs` | phase2/src/polynomial.rs:92-107 | the value of a row is the sum of its scalars times the coefficients of its public and private variables, these taken from two lists |
| `KeyGeneration.NewKeyWellFormed` | phase2/src/parameters.rs:88-138 | a fresh key holds alpha, beta and gamma 1, the circuit's values in A, B1 and B2, the combinations beta A + alpha B + C of the public variables in gamma_abc and of the private ones in L, and tau^i (tau^m - 1) in H |
| `KeyGeneration.NewParamsIff` | phase2/src/parameters.rs:88-138 | the parameters are created exactly when every row finds its coefficients and no private variable combines to zero |
| `KeyGeneration.RunWellFormed` | phase2/src/parameters.rs:88-175 | after any contributions all of that still holds with delta times L and delta times H in the place of L and H, and delta is the product of the secrets |
| `Codec.LittleEndianDigit` | phase2/src/chunked_groth16.rs:331-336 | byte i of a length is digit i to the base 256 |
| `Codec.BigEndianReverses` | phase2/src/parameters.rs:279-301 | the number of keys is written most significant byte first |
| `Codec.KeyBack` | phase2/src/keypair.rs:83-110 | a key is read back from its bytes exactly when none of its points is zero |
| `Readers.ParamsBack` | phase2/src/parameters.rs:279-301 | parameters are read back as written exactly when all their keys are readable |
| `Readers.ContributionReadsBack` | phase2/src/chunked_groth16.rs:207-328 | the buffer after a contribution reads back as the in-memory contribution exactly when the random point and the old delta are not zero |
| `ChunkedGroth16.MulQuery` | phase2/src/chunked_groth16.rs:380-399 | the points are multiplied in place and nothing around them changes |
| `ChunkedGroth16.MulQueries` | phase2/src/chunked_groth16.rs:342-376 | the whole query is multiplied in place, for any batch size and leftovers |
| `ChunkedGroth16.SkipVec` | phase2/src/chunked_groth16.rs:331-336 | the position moves to the end of the vector |
| `ChunkedGroth16.ReadKeys` | phase2/src/keypair.rs:68-75 | the keys are read back, or refused at the first unreadable one |
| `ChunkedGroth16.ContributeInPlace` | phase2/src/chunked_groth16.rs:207-328 | on the bytes of any parameters with room for a key, the buffer becomes the bytes of the in-memory contribution, every other byte untouched; refusals and panics leave it as it was |
| `ChunkedVerify.CheckUnchangedVec` | phase2/src/chunked_groth16.rs:403-446 | the batched comparison accepts exactly equal vectors |
| `ChunkedVerify.CheckRatio` | phase2/src/chunked_groth16.rs:449-488 | the batched ratio check passes exactly when every batch passes with its own randomness |
| `ChunkedVerify.SplitTranscript` | phase2/src/chunked_groth16.rs:507-526 | the five slices are the codes of the five queries |
| `ChunkedVerify.VerifyBuffers` | phase2/src/chunked_groth16.rs:28-201 | the verification on bytes computes the batched verdict on the parameters they encode |
| `ChunkedVerify.BatchingIrrelevant` | phase2/src/chunked_groth16.rs:28-201 | for every batch size, acceptance under all randomness is in-memory acceptance under all randomness plus readable keys |
| `ChunkedVerify.BatchedRejection` | phase2/src/chunked_groth16.rs:28-201 | the batched verification, too, rejects for a reason that is there |
| `ChunkedVerify.ZeroPointRefused` | phase2/src/chunked_groth16.rs:28-201 | an honest contribution with a zero random point is always accepted in memory and not in batches |
| `Multiexp.SumBuckets` | setup-utils/src/helpers.rs:467-472 | the running sums add bucket j exactly j + 1 times |
| `Multiexp.ChunkSum` | setup-utils/src/helpers.rs:434-472 | one thread's buckets sum its bases by digit, with ones handled apart and zeros skipped |
| `Multiexp.WindowSum` | setup-utils/src/helpers.rs:415-484 | the chunks of a window add up to the whole window, in any order of completion |
| `Multiexp.Windows` | setup-utils/src/helpers.rs:415-502 | the recursion over windows computes what remains above the skipped bits, and terminates |
| `Multiexp.DenseMultiexp` | setup-utils/src/helpers.rs:399-413 | the result is the plain sum of exponent times base for every window size, chunk size and input |
| `Multiexp.MergePairs` | setup-utils/src/helpers.rs:329-340 | both vectors are weighed with the same randomness |
| `Phase1Computation.ApplyPowers` | phase1/src/helpers/buffers.rs:64-83 | succeeds exactly when every element of the range passes the check; then exactly these are multiplied by their factors and written, otherwise nothing is |
| `Phase1Computation.ComputeGroth16` | phase1/src/computation.rs:36-185 | for any mode, chunk and batch size, the overlapping batches succeed exactly when every element of the part passes the check, and then leave the Groth16 contribution in the outputs |
| `Phase1Computation.ComputeMarlin` | phase1/src/computation.rs:187-289 | likewise for Marlin, with the degree-bound elements in the first chunk |
| `Phase1Computation.RaiseTau` | phase1/src/helpers/buffers.rs:22-60 | the overlapping batches read and raise every element of the range |
| `Phase1Computation.ChunksRaiseAll` | phase1/src/computation.rs:36-185 | raising an accumulator chunk by chunk raises every element as raising it at once does |
| `Phase1.Groth16Composes` | phase1/src/computation.rs:36-185 | two contributions are one with the product key |
| `Phase1.MarlinComposes` | phase1/src/computation.rs:187-289 | two Marlin contributions are one with the product key, inverse G2 elements and alpha triples included |
| `Phase1.MarlinRunComposes` | phase1/src/computation.rs:187-289 | any number of Marlin contributions is one with the product of all keys |
| `Phase1.Groth16Powers` | phase1/src/initialization.rs:20-51 | any run from the blank accumulator holds the powers of the product of all taus, with the products of the alphas and betas |
| `Phase1.MarlinPowers` | phase1/src/computation.rs:187-289 | any run from the blank part, with t and a the products: powers of t, in G2 1, t and t^(2^i) over t^(length + 1), and a times 1, t, t^2 and the triples t^(length + 1 + j) over t^(2^i) |
| `PreparedCoefficients.PrefixBack` | setup-utils/src/groth16_utils.rs:127-262 | reading at any smaller size gives exactly the prefixes of what was written, and succeeds exactly when the points it reads pass the requested check |
| `PreparedCoefficients.ZeroRefusedIff` | setup-utils/src/groth16_utils.rs:127-262 | a zero point among those read is refused exactly when zero points are checked for |

## Left out

- Participants.ParticipantInfo is a value with functions, not an object: the coordinator replaces a contributor's record in its map instead of changing it through a reference, so aliasing of records is not modelled.
- Coordinator.CoordinatorState.AddToQueue: the zeroing of reliability for addresses that are known already is not modelled; the reliability is an argument.
- Conservation.TasksConserved, Conservation.FinishedRoundIsDone: about careful runs, in which rollbacks are given tasks the participant holds, replacements are free, and a coordinator verifier exists. `Participants.RollbackConservesIff` and `Conservation.CoverKeptIff` show that the first two conditions are needed.
- Drops.DropKeepsPrefix, Joint.DropAgreesIff: for drops with a free replacement; without coordinator contributors the round restarts instead, which `Conservation.ResetCovers` and `JointRuns.DismissalAgrees` cover.
- Coordinator.CoordinatorState.DropParticipant: the early return when a bucket has no task list is not modelled, because sound states have one for every bucket.
- JointRuns.FinishedRoundIsStored, JointChain.CoordinatorKeepsTranscript, WorkOrder.CreditsAreRight, StoredRules.CoordinatorRuled: about runs in which nobody is replaced; `Replacements.ReplacedInBoth`, `Replacements.ReplacedAgreesIff` and `JointChain.FirstDropIff` say what the first replacement does.
- Progress.NeverStuck: about runs in which nobody is replaced, and rounds in which no response file is in the way; that such a file blocks a chunk is shown by `StoredDrops.ChunkStaysBlocked`.
- StoredRules.EveryRoundRuled: for drops that name all locks of the dropped contributor and a replacement from outside the round, as `Replacements.ReplacedInBoth` shows of rounds in step.
- StoredCeremony.StoredCoordinator.DropParticipant: storage refuses the drop of a contributor that its round does not list once or that holds a lock on a chunk that is not open, after the state has changed and perhaps some files are gone; these refusals are not modelled. `JointChain.FirstDropIff` shows that the first drop of a run meets none of them.
- StoredDrops.DropKeepsChainIff, StoredDrops.ChunkStaysStuck, StoredDrops.ChunkStaysBlocked: for drops that storage does not refuse.
- StoredCeremony.StoredCoordinator.TryVerify, StoredCeremony.StoredCoordinator.TryAggregate: signatures and the success of an aggregation are yes-or-no arguments; the contents of the contributions do not matter to storage beyond their hashes.
- ChunkedGroth16.ContributeInPlace, ChunkedVerify.VerifyBuffers: about buffers that hold serialized parameters, as their documentation asks; the decoding errors of other buffers are not modelled. Vector lengths fit 64 bits and key counts 32 bits.
- ChunkedGroth16.ReadPoints and the other readers work on the bytes of the buffer at that moment; the cursor is a position variable.
- Multiexp.DenseMultiexp: the logarithm that picks the window size is an argument; windows are at most 63 bits, as the limb requires.
- Phase1Computation.ApplyPowers: works on arrays of points; the byte codes and compression of the phase 1 buffers are not modelled.
- Phase1Computation.ComputeGroth16, Phase1Computation.ComputeMarlin: likewise on arrays of points; the error and the panic that a refused element causes are one outcome, after which nothing is said about the outputs.
- Phase 1 verification and aggregation of phase 1 chunks.
- Curves, fields and pairings as implementations, Fourier transforms, hash functions, hashing to the curve and random numbers; probabilistic soundness is replaced by statements about all randomness.
- The conversion of powers of tau to coefficients (`Groth16Params::new`) apart from the H query, and the synthesis of circuits.
- Timers, metrics averages, time estimates, heartbeats, timeout drops and the manual lock are not modelled.
- Verifiers as members of a round: nothing adds one.
- Disk layout, locators as paths, signature files, JSON, status reports, command lines, browser and HTTP clients.
- Integer width of heights, ids and counters, which stay far below 64 bits.
