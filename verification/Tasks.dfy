/**
  Task assignment for one ceremony round.

  A round splits its chunks into as many buckets as there are contributors. Contributor `b`
  starts at bucket `b` and walks once around all chunks. `InitializeTasks` is the counting
  loop that produces the walk; `BucketTasks` is the closed form it is proved to compute, and
  the lemmas state what the assignment is for: within a bucket list every chunk occurs once,
  and over all buckets every (chunk, contribution) pair occurs exactly once.
 */
module Tasks {
  import opened Arith

  datatype Task = Task(chunk: nat, contribution: nat)

  datatype TaskError =
    | StartingBucketIdOutOfRange(startingBucket: nat, contributors: nat)
    | NotEnoughChunks(chunks: nat, contributors: nat)

  datatype TaskResult = TaskOk(tasks: seq<Task>) | TaskErr(error: TaskError)

  /** The walk is defined for bucket `b` of `n` over `chunks` chunks. */
  predicate ValidBucket(b: nat, chunks: nat, n: nat) {
    b < n <= chunks
  }

  function BucketSize(chunks: nat, n: nat): (size: nat)
    requires 0 < n <= chunks
    ensures 1 <= size
  {
    SizeBounds(chunks, n);
    chunks / n
  }

  lemma SizeBounds(chunks: nat, n: nat)
    requires 0 < n <= chunks
    ensures 1 <= chunks / n
    ensures n * (chunks / n) <= chunks
  {
    DivMonotone(n, chunks, n);
    DivUnique(n, n, 1, 0);
    assert chunks == n * (chunks / n) + chunks % n;
  }

  /** Where the walk of bucket `b` starts. */
  function Start(b: nat, chunks: nat, n: nat): (start: nat)
    requires ValidBucket(b, chunks, n)
    ensures start + BucketSize(chunks, n) <= chunks
    ensures start / BucketSize(chunks, n) == b && start % BucketSize(chunks, n) == 0
  {
    var size := BucketSize(chunks, n);
    SizeBounds(chunks, n);
    MulMonotone(b + 1, n, size);
    DivUnique(b * size, size, b, 0);
    b * size
  }

  /** The bucket a chunk belongs to; chunks left over by the division join the last bucket. */
  function BucketOf(chunk: nat, chunks: nat, n: nat): (k: nat)
    requires 0 < n <= chunks
    ensures k < n
  {
    Min(n - 1, chunk / BucketSize(chunks, n))
  }

  /** Contribution id of `chunk` in the walk of bucket `b`: buckets are visited cyclically. */
  function ContributionId(b: nat, chunk: nat, chunks: nat, n: nat): (id: nat)
    requires ValidBucket(b, chunks, n)
    ensures 1 <= id <= n
  {
    var k := BucketOf(chunk, chunks, n);
    if k >= b then k - b + 1 else k + n - b + 1
  }

  /** Chunk visited at step `i` of the walk of bucket `b`. */
  function ChunkAt(b: nat, i: nat, chunks: nat, n: nat): (chunk: nat)
    requires ValidBucket(b, chunks, n) && i < chunks
    ensures chunk < chunks
  {
    var at := Start(b, chunks, n) + i;
    if at < chunks then at else at - chunks
  }

  function TaskFor(b: nat, chunk: nat, chunks: nat, n: nat): Task
    requires ValidBucket(b, chunks, n)
  {
    Task(chunk, ContributionId(b, chunk, chunks, n))
  }

  /** The task list of bucket `b` in closed form. */
  function BucketTasks(b: nat, chunks: nat, n: nat): seq<Task>
    requires ValidBucket(b, chunks, n)
  {
    seq(chunks, i requires 0 <= i < chunks => TaskFor(b, ChunkAt(b, i, chunks, n), chunks, n))
  }

  /** The result of the assignment for any arguments, refusals included. */
  function TaskList(b: nat, chunks: nat, n: nat): TaskResult {
    if n == 0 then TaskOk([])
    else if b >= n then TaskErr(StartingBucketIdOutOfRange(b, n))
    else if chunks < n then TaskErr(NotEnoughChunks(chunks, n))
    else TaskOk(BucketTasks(b, chunks, n))
  }

  // ----- the loop computes the closed form

  /** Buckets entered before the wrap-around once the walk has reached index `at`. */
  ghost function InitialSteps(b: nat, at: nat, chunks: nat, n: nat): int
    requires ValidBucket(b, chunks, n)
  {
    Min(n - 1, Min(at, chunks - 1) / BucketSize(chunks, n)) - b
  }

  /** Buckets entered after the wrap-around once the walk has reached index `at`. */
  ghost function FinalSteps(at: nat, chunks: nat, n: nat): int
    requires 0 < n <= chunks
  {
    if at < chunks then 0 else (at - chunks) / BucketSize(chunks, n) + 1
  }

  /** Index `at` before the wrap-around: only the initial counter moves, at bucket boundaries. */
  lemma StepBeforeWrap(b: nat, at: nat, chunks: nat, n: nat)
    requires ValidBucket(b, chunks, n)
    requires Start(b, chunks, n) < at < chunks
    ensures at % chunks == at
    ensures InitialSteps(b, at, chunks, n) ==
      InitialSteps(b, at - 1, chunks, n)
      + (if at % BucketSize(chunks, n) == 0 && InitialSteps(b, at - 1, chunks, n) < n - 1 - b then 1 else 0)
    ensures 0 <= InitialSteps(b, at, chunks, n) < n
    ensures ContributionId(b, at, chunks, n) == InitialSteps(b, at, chunks, n) + 1
  {
    var size := BucketSize(chunks, n);
    DivUnique(at, chunks, 0, at);
    DivStep(at - 1, size);
    DivMonotone(Start(b, chunks, n), at - 1, size);
  }

  lemma LastBucketReached(chunks: nat, n: nat)
    requires 0 < n <= chunks
    ensures (chunks - 1) / BucketSize(chunks, n) >= n - 1
  {
    DivMonotone(Start(n - 1, chunks, n), chunks - 1, BucketSize(chunks, n));
  }

  /** Index `at` after the wrap-around: only the final counter moves, and stays within bounds. */
  lemma StepAfterWrap(b: nat, at: nat, chunks: nat, n: nat)
    requires ValidBucket(b, chunks, n)
    requires chunks <= at < Start(b, chunks, n) + chunks
    ensures at % chunks == at - chunks
    ensures InitialSteps(b, at, chunks, n) == InitialSteps(b, at - 1, chunks, n) == n - 1 - b
    ensures FinalSteps(at, chunks, n) ==
      FinalSteps(at - 1, chunks, n) + (if (at - chunks) % BucketSize(chunks, n) == 0 then 1 else 0)
    ensures 1 <= FinalSteps(at, chunks, n) <= b
    ensures ContributionId(b, at - chunks, chunks, n) == n - 1 - b + FinalSteps(at, chunks, n) + 1
  {
    var size := BucketSize(chunks, n);
    DivUnique(at, chunks, 1, at - chunks);
    LastBucketReached(chunks, n);
    hide BucketSize;
    if at == chunks {
      DivUnique(0, size, 0, 0);
    } else {
      DivStep(at - 1 - chunks, size);
    }
    WithinFirstBuckets(b, at - chunks, chunks, n);
    hide Start;
  }

  /** Indices before the start of bucket `b` lie in the buckets before it. */
  lemma WithinFirstBuckets(b: nat, chunk: nat, chunks: nat, n: nat)
    requires ValidBucket(b, chunks, n) && chunk < Start(b, chunks, n)
    ensures chunk / BucketSize(chunks, n) < b
  {
    var size, start := BucketSize(chunks, n), Start(b, chunks, n);
    DivStep(start - 1, size);
    DivMonotone(chunk, start - 1, size);
  }

  /**
    The task list of one participant, built step by step: `initial` counts the buckets entered
    before wrapping around, `final` those entered after.
   */
  method InitializeTasks(b: nat, chunks: nat, n: nat) returns (r: TaskResult)
    ensures r == TaskList(b, chunks, n)
  {
    if n == 0 {
      return TaskOk([]);
    }
    if b >= n {
      return TaskErr(StartingBucketIdOutOfRange(b, n));
    }
    if chunks < n {
      return TaskErr(NotEnoughChunks(chunks, n));
    }
    var size := BucketSize(chunks, n);
    var start := Start(b, chunks, n);
    var end := start + chunks;
    var initial, final := 0, 0;
    DivUnique(start, chunks, 0, start);
    var tasks := [Task(start % chunks, 1)];
    var at := start + 1;
    while at < end
      invariant start < at <= end
      invariant |tasks| == at - start
      invariant initial == InitialSteps(b, at - 1, chunks, n)
      invariant final == FinalSteps(at - 1, chunks, n)
      invariant forall i :: 0 <= i < |tasks| ==> tasks[i] == TaskFor(b, ChunkAt(b, i, chunks, n), chunks, n)
    {
      if at < chunks {
        StepBeforeWrap(b, at, chunks, n);
      } else {
        StepAfterWrap(b, at, chunks, n);
      }
      var chunk := at % chunks;
      var isNewBucket := chunk % size == 0;
      if isNewBucket && initial < n - 1 - b {
        initial := initial + 1;
      }
      if isNewBucket && at >= chunks {
        if final < b {
          final := final + 1;
        }
      }
      DivUnique(initial + final, n, 0, initial + final);
      var steps := (initial + final) % n;
      tasks := tasks + [Task(chunk, steps + 1)];
      at := at + 1;
    }
    return TaskOk(tasks);
  }

  // ----- what the assignment is for

  /** Within one bucket list every chunk occurs exactly once, with the id of the cyclic rule. */
  lemma TaskInBucket(b: nat, t: Task, chunks: nat, n: nat)
    requires ValidBucket(b, chunks, n)
    ensures t in BucketTasks(b, chunks, n) <==> t.chunk < chunks && t == TaskFor(b, t.chunk, chunks, n)
  {
    var start := Start(b, chunks, n);
    if t.chunk < chunks && t == TaskFor(b, t.chunk, chunks, n) {
      var i := if t.chunk >= start then t.chunk - start else t.chunk - start + chunks;
      assert BucketTasks(b, chunks, n)[i] == t;
    }
  }

  /** The walk starts at the bucket's first chunk and goes on to the next chunk, from the last one to the first. */
  lemma WalkInOrder(b: nat, chunks: nat, n: nat, i: nat)
    requires ValidBucket(b, chunks, n) && i < chunks
    ensures BucketTasks(b, chunks, n)[i].chunk == (b * (chunks / n) + i) % chunks
  {
    var at := Start(b, chunks, n) + i;
    if at < chunks {
      DivUnique(at, chunks, 0, at);
    } else {
      DivUnique(at, chunks, 1, at - chunks);
    }
  }

  /** Contribution ids never fall along the list. */
  ghost predicate InIdOrder(tasks: seq<Task>) {
    forall i, j :: 0 <= i <= j < |tasks| ==> tasks[i].contribution <= tasks[j].contribution
  }

  /** The walk starts with a first contribution, and contribution ids never fall along it. */
  lemma IdsNeverFall(b: nat, chunks: nat, n: nat)
    requires ValidBucket(b, chunks, n)
    ensures BucketTasks(b, chunks, n)[0].contribution == 1 && InIdOrder(BucketTasks(b, chunks, n))
  {
    IdAlong(b, chunks, n, 0);
    var tasks := BucketTasks(b, chunks, n);
    hide BucketTasks;
    forall i, j | 0 <= i <= j < chunks ensures tasks[i].contribution <= tasks[j].contribution {
      LaterId(b, chunks, n, i, j);
    }
    TasksCount(b, chunks, n);
  }

  lemma TasksCount(b: nat, chunks: nat, n: nat)
    requires ValidBucket(b, chunks, n)
    ensures |BucketTasks(b, chunks, n)| == chunks
  {
  }

  lemma LaterId(b: nat, chunks: nat, n: nat, i: nat, j: nat)
    requires ValidBucket(b, chunks, n) && i <= j < chunks
    ensures BucketTasks(b, chunks, n)[i].contribution <= BucketTasks(b, chunks, n)[j].contribution
  {
    IdAlong(b, chunks, n, i);
    IdAlong(b, chunks, n, j);
    var start, size := Start(b, chunks, n), BucketSize(chunks, n);
    hide BucketTasks, BucketSize, Start;
    if start + j < chunks {
      DivMonotone(start + i, start + j, size);
    } else if start + i >= chunks {
      DivMonotone(start + i - chunks, start + j - chunks, size);
    }
  }

  /** The id at step `i`: how many buckets the walk has entered. */
  lemma IdAlong(b: nat, chunks: nat, n: nat, i: nat)
    requires ValidBucket(b, chunks, n) && i < chunks
    ensures var at, size, id := Start(b, chunks, n) + i, BucketSize(chunks, n), BucketTasks(b, chunks, n)[i].contribution;
      && (at < chunks ==> id == Min(n - 1, at / size) - b + 1 <= n - b)
      && (at >= chunks ==> id == Min(n - 1, (at - chunks) / size) + n - b + 1)
      && (i == 0 ==> id == 1)
  {
    var start, size := Start(b, chunks, n), BucketSize(chunks, n);
    var at := start + i;
    if at < chunks {
      DivMonotone(start, at, size);
    } else {
      WithinFirstBuckets(b, at - chunks, chunks, n);
    }
  }

  lemma BucketTasksDistinct(b: nat, chunks: nat, n: nat)
    requires ValidBucket(b, chunks, n)
    ensures |BucketTasks(b, chunks, n)| == chunks
    ensures forall i, j :: 0 <= i < j < chunks ==>
      BucketTasks(b, chunks, n)[i].chunk != BucketTasks(b, chunks, n)[j].chunk
  {
  }

  /** The bucket whose walk reaches `chunk` with contribution id `id`. */
  function Owner(chunk: nat, id: nat, chunks: nat, n: nat): (b: nat)
    requires 0 < n <= chunks && 1 <= id <= n
    ensures b < n
  {
    var k := BucketOf(chunk, chunks, n);
    if k >= id - 1 then k - (id - 1) else k + n - (id - 1)
  }

  /** Over all buckets, every (chunk, contribution) pair occurs in exactly one list. */
  lemma EveryPairOnce(chunk: nat, id: nat, b: nat, chunks: nat, n: nat)
    requires ValidBucket(b, chunks, n)
    ensures Task(chunk, id) in BucketTasks(b, chunks, n)
      <==> chunk < chunks && 1 <= id <= n && b == Owner(chunk, id, chunks, n)
  {
    TaskInBucket(b, Task(chunk, id), chunks, n);
  }
}
