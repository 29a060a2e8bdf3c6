/** Trimming keeps the processed files of every task within the capacity. */
module QueueBounds {
  import opened QueueModel

  function CountTask(processed: seq<ProcessedRow>, taskId: string): nat {
    if processed == [] then 0
    else CountTask(processed[..|processed| - 1], taskId) + (if processed[|processed| - 1].taskId == taskId then 1 else 0)
  }

  lemma CountAppend(processed: seq<ProcessedRow>, row: ProcessedRow, taskId: string)
    ensures CountTask(processed + [row], taskId) == CountTask(processed, taskId) + (if row.taskId == taskId then 1 else 0)
  {
    assert (processed + [row])[..|processed|] == processed;
  }

  // ---- ranks ----

  ghost function Rank(processed: seq<ProcessedRow>, i: int): nat
    requires 0 <= i < |processed|
  {
    |NewerRows(processed, i)|
  }

  predicate NewerThan(processed: seq<ProcessedRow>, i: int, j: int)
    requires 0 <= i < |processed| && 0 <= j < |processed|
  {
    || processed[i].processedAt > processed[j].processedAt
    || (processed[i].processedAt == processed[j].processedAt && i > j)
  }

  lemma SmallerSet(a: set<int>, b: set<int>, extra: int)
    requires a <= b && extra in b && extra !in a
    ensures |a| < |b|
  {
    assert a <= b - {extra};
    SubsetSize(a, b - {extra});
  }

  lemma SubsetSize(a: set<int>, b: set<int>)
    requires a <= b
    ensures |a| <= |b|
  {
    assert b == a + (b - a);
  }

  /** Rows of one task have distinct ranks: the newer of two rows has the smaller one. */
  lemma RanksDiffer(processed: seq<ProcessedRow>, i: int, j: int)
    requires 0 <= i < |processed| && 0 <= j < |processed| && processed[i].taskId == processed[j].taskId
    requires NewerThan(processed, i, j)
    ensures Rank(processed, i) < Rank(processed, j)
  {
    assert i in NewerRows(processed, j) && i !in NewerRows(processed, i);
    assert NewerRows(processed, i) <= NewerRows(processed, j);
    SmallerSet(NewerRows(processed, i), NewerRows(processed, j), i);
  }

  ghost function KeptRows(processed: seq<ProcessedRow>, taskId: string, capacity: nat, n: nat): set<int>
    requires n <= |processed|
  {
    set i | 0 <= i < n && processed[i].taskId == taskId && Rank(processed, i) < capacity
  }

  ghost predicate RankedAt(processed: seq<ProcessedRow>, taskId: string, rank: int, i: int) {
    0 <= i < |processed| && processed[i].taskId == taskId && Rank(processed, i) == rank
  }

  lemma OneRowPerRank(processed: seq<ProcessedRow>, taskId: string, rank: int, i: int, j: int)
    requires RankedAt(processed, taskId, rank, i) && RankedAt(processed, taskId, rank, j)
    ensures i == j
  {
    if i != j {
      if NewerThan(processed, i, j) {
        RanksDiffer(processed, i, j);
      } else {
        RanksDiffer(processed, j, i);
      }
    }
  }

  /** Distinct ranks below the capacity: no more rows than the capacity. */
  lemma {:induction false} RankedRowsFit(processed: seq<ProcessedRow>, taskId: string, capacity: nat)
    ensures |KeptRows(processed, taskId, capacity, |processed|)| <= capacity
  {
    hide Rank;
    if capacity > 0 {
      var top := capacity - 1;
      RankedRowsFit(processed, taskId, top);
      var lower, all := KeptRows(processed, taskId, top, |processed|), KeptRows(processed, taskId, capacity, |processed|);
      if i :| RankedAt(processed, taskId, top, i) {
        forall j | j in all - {i} ensures j in lower {
          if RankedAt(processed, taskId, top, j) {
            OneRowPerRank(processed, taskId, top, i, j);
          }
        }
        SubsetSize(all, lower + {i});
      } else {
        forall j | j in all ensures j in lower {
          assert !RankedAt(processed, taskId, top, j);
        }
        SubsetSize(all, lower);
      }
    } else {
      SubsetSize(KeptRows(processed, taskId, 0, |processed|), {});
    }
  }

  // ---- trimming ----

  lemma KeptStep(processed: seq<ProcessedRow>, taskId: string, capacity: nat, n: nat)
    requires 0 < n <= |processed|
    ensures |KeptRows(processed, taskId, capacity, n)| == |KeptRows(processed, taskId, capacity, n - 1)|
              + (if processed[n - 1].taskId == taskId && Rank(processed, n - 1) < capacity then 1 else 0)
  {
    hide Rank;
    var before, after := KeptRows(processed, taskId, capacity, n - 1), KeptRows(processed, taskId, capacity, n);
    assert forall i :: i in after ==> i in before || i == n - 1;
    assert n - 1 !in before && before <= after;
    assert after == if n - 1 in after then before + {n - 1} else before;
  }

  lemma {:induction false} TrimCounts(processed: seq<ProcessedRow>, taskId: string, capacity: nat, n: nat)
    requires n <= |processed|
    ensures CountTask(TrimProcessed(processed, taskId, capacity, n), taskId) == |KeptRows(processed, taskId, capacity, n)|
  {
    hide KeptRows, CountTask, NewerRows;
    if n == 0 {
      NoneKept(processed, taskId, capacity);
    } else {
      TrimCounts(processed, taskId, capacity, n - 1);
      KeptStep(processed, taskId, capacity, n);
      var before := TrimProcessed(processed, taskId, capacity, n - 1);
      CountAppend(before, processed[n - 1], taskId);
      assert before + [] == before;
    }
  }

  lemma NoneKept(processed: seq<ProcessedRow>, taskId: string, capacity: nat)
    ensures |KeptRows(processed, taskId, capacity, 0)| == 0 && CountTask([], taskId) == 0
  {
  }

  lemma {:induction false} TrimSparesOthers(processed: seq<ProcessedRow>, taskId: string, capacity: nat, n: nat,
                                            other: string)
    requires n <= |processed| && other != taskId
    ensures CountTask(TrimProcessed(processed, taskId, capacity, n), other) == CountTask(processed[..n], other)
  {
    if n > 0 {
      TrimSparesOthers(processed, taskId, capacity, n - 1, other);
      var before, row := TrimProcessed(processed, taskId, capacity, n - 1), processed[n - 1];
      CountAppend(before, row, other);
      assert processed[..n] == processed[..n - 1] + [row];
      CountAppend(processed[..n - 1], row, other);
      assert before + [] == before;
    }
  }

  lemma {:induction false} AddSparesOthers(processed: seq<ProcessedRow>, taskId: string, key: string, now: int,
                                           files: seq<FileRow>, other: string)
    requires other != taskId
    ensures CountTask(AddProcessed(processed, taskId, key, now, files), other) == CountTask(processed, other)
  {
    if files != [] {
      AddSparesOthers(processed, taskId, key, now, files[..|files| - 1], other);
      var file := files[|files| - 1];
      CountAppend(AddProcessed(processed, taskId, key, now, files[..|files| - 1]),
                  ProcessedRow(taskId, file.fingerprint, file.sourcePath, file.fileHash, now, key), other);
    }
  }

  /** Completing a job brings its own task within the capacity and leaves the count of every other task alone. */
  lemma CompletionBounds(q: Queue, key: string, now: int, taskId: string)
    requires CompleteJob(q, key, now).Some?
    ensures var after := CompleteJob(q, key, now).value.processed;
            if taskId == q.jobs[key].task.id then CountTask(after, taskId) <= q.processedCapacity
            else CountTask(after, taskId) == CountTask(q.processed, taskId)
  {
    var job := q.jobs[key];
    var added := AddProcessed(q.processed, job.task.id, key, now, job.files);
    if taskId == job.task.id {
      TrimCounts(added, taskId, q.processedCapacity, |added|);
      RankedRowsFit(added, taskId, q.processedCapacity);
    } else {
      TrimSparesOthers(added, job.task.id, q.processedCapacity, |added|, taskId);
      assert added[..|added|] == added;
      AddSparesOthers(q.processed, job.task.id, key, now, job.files, taskId);
    }
  }
}
