/** What completing a job leaves among the processed files, stated apart from how rows are added and trimmed. */
module Completion {
  import opened QueueModel
  import opened QueueBounds

  // ---- the rows to choose from ----

  predicate ProcessedBy(p: ProcessedRow, file: FileRow, job: JobRow, key: string, now: int) {
    && file.parsedClean && p.taskId == job.task.id && p.fingerprint == file.fingerprint && p.sourcePath == file.sourcePath
    && p.fileHash == file.fileHash && p.processedAt == now && p.executionKey == key
  }

  /** The rows before, followed by one row for each cleanly parsed fingerprint of the job that was unknown, in the order of
      the files; from says which file each of them is of. */
  ghost predicate Candidates(before: seq<ProcessedRow>, job: JobRow, files: seq<FileRow>, key: string, now: int,
                             rows: seq<ProcessedRow>, from: seq<nat>)
  {
    && before <= rows && |from| == |rows| - |before|
    && (forall i :: 0 <= i < |from| ==> from[i] < |files| && ProcessedBy(rows[|before| + i], files[from[i]], job, key, now))
    && (forall i, j :: 0 <= i < j < |from| ==> from[i] < from[j])
    && (forall i :: |before| <= i < |rows| ==> !ProcessedKnown(rows[..i], job.task.id, rows[i].fingerprint))
    && (forall k :: 0 <= k < |files| && files[k].parsedClean ==> ProcessedKnown(rows, job.task.id, files[k].fingerprint))
  }

  lemma KnownGrows(a: seq<ProcessedRow>, b: seq<ProcessedRow>, taskId: string, fingerprint: string)
    requires a <= b && ProcessedKnown(a, taskId, fingerprint)
    ensures ProcessedKnown(b, taskId, fingerprint)
  {
    var i :| 0 <= i < |a| && a[i].taskId == taskId && a[i].fingerprint == fingerprint;
    assert b[i] == a[i];
  }

  lemma CandidateAdded(before: seq<ProcessedRow>, job: JobRow, files: seq<FileRow>, key: string, now: int,
                       rows: seq<ProcessedRow>, from: seq<nat>, row: ProcessedRow)
    requires files != [] && Candidates(before, job, files[..|files| - 1], key, now, rows, from)
    requires ProcessedBy(row, files[|files| - 1], job, key, now) && !ProcessedKnown(rows, job.task.id, row.fingerprint)
    ensures Candidates(before, job, files, key, now, rows + [row], from + [|files| - 1])
  {
    hide ProcessedKnown, ProcessedBy;
    var longer, more := rows + [row], from + [|files| - 1];
    assert before <= longer;
    forall i | 0 <= i < |more| ensures more[i] < |files| && ProcessedBy(longer[|before| + i], files[more[i]], job, key, now) {
      if i < |from| {
        assert longer[|before| + i] == rows[|before| + i] && files[..|files| - 1][from[i]] == files[from[i]];
      }
    }
    forall i | |before| <= i < |longer| ensures !ProcessedKnown(longer[..i], job.task.id, longer[i].fingerprint) {
      assert i < |rows| ==> longer[..i] == rows[..i];
      assert i == |rows| ==> longer[..i] == rows;
    }
    forall k | 0 <= k < |files| && files[k].parsedClean ensures ProcessedKnown(longer, job.task.id, files[k].fingerprint) {
      if k < |files| - 1 {
        assert files[..|files| - 1][k] == files[k];
        KnownGrows(rows, longer, job.task.id, files[k].fingerprint);
      } else {
        LastIsKnown(longer, row, job, files[k], key, now);
      }
    }
  }

  lemma LastIsKnown(rows: seq<ProcessedRow>, row: ProcessedRow, job: JobRow, file: FileRow, key: string, now: int)
    requires rows != [] && rows[|rows| - 1] == row && ProcessedBy(row, file, job, key, now)
    ensures ProcessedKnown(rows, job.task.id, file.fingerprint)
  {
  }

  lemma CandidatePassedOver(before: seq<ProcessedRow>, job: JobRow, files: seq<FileRow>, key: string, now: int,
                            rows: seq<ProcessedRow>, from: seq<nat>)
    requires files != [] && Candidates(before, job, files[..|files| - 1], key, now, rows, from)
    requires files[|files| - 1].parsedClean ==> ProcessedKnown(rows, job.task.id, files[|files| - 1].fingerprint)
    ensures Candidates(before, job, files, key, now, rows, from)
  {
    hide ProcessedKnown, ProcessedBy;
    forall i | 0 <= i < |from| ensures from[i] < |files| && ProcessedBy(rows[|before| + i], files[from[i]], job, key, now) {
      assert files[..|files| - 1][from[i]] == files[from[i]];
    }
    forall k | 0 <= k < |files| && files[k].parsedClean ensures ProcessedKnown(rows, job.task.id, files[k].fingerprint) {
      assert k < |files| - 1 ==> files[..|files| - 1][k] == files[k];
    }
  }

  lemma {:induction false} AddedAreCandidates(before: seq<ProcessedRow>, job: JobRow, files: seq<FileRow>, key: string, now: int)
    returns (from: seq<nat>)
    ensures Candidates(before, job, files, key, now, AddProcessed(before, job.task.id, key, now, files), from)
  {
    hide Candidates;
    if files == [] {
      from := [];
      NoCandidates(before, job, key, now);
    } else {
      from := AddedAreCandidates(before, job, files[..|files| - 1], key, now);
      var rows := AddProcessed(before, job.task.id, key, now, files[..|files| - 1]);
      var file := files[|files| - 1];
      if !file.parsedClean || ProcessedKnown(rows, job.task.id, file.fingerprint) {
        CandidatePassedOver(before, job, files, key, now, rows, from);
      } else {
        CandidateAdded(before, job, files, key, now, rows, from,
                       ProcessedRow(job.task.id, file.fingerprint, file.sourcePath, file.fileHash, now, key));
        from := from + [|files| - 1];
      }
    }
  }

  lemma NoCandidates(before: seq<ProcessedRow>, job: JobRow, key: string, now: int)
    ensures Candidates(before, job, [], key, now, before, [])
  {
  }

  // ---- the rows that stay ----

  ghost predicate Chosen(rows: seq<ProcessedRow>, chosen: seq<nat>, after: seq<ProcessedRow>) {
    && |after| == |chosen|
    && (forall i :: 0 <= i < |chosen| ==> chosen[i] < |rows| && after[i] == rows[chosen[i]])
    && (forall i, j :: 0 <= i < j < |chosen| ==> chosen[i] < chosen[j])
  }

  ghost predicate Dropped(rows: seq<ProcessedRow>, chosen: seq<nat>, i: nat) { i < |rows| && i !in chosen }

  /** Rows of other tasks all stay. Of the task, no row is dropped that is newer than one that stays, and none at all unless
      the capacity is full. */
  ghost predicate KeepsNewest(rows: seq<ProcessedRow>, taskId: string, capacity: nat, chosen: seq<nat>,
                              after: seq<ProcessedRow>)
  {
    && Chosen(rows, chosen, after)
    && (forall i: nat :: Dropped(rows, chosen, i) ==> rows[i].taskId == taskId && CountTask(after, taskId) == capacity)
    && (forall i: nat, j: nat :: Dropped(rows, chosen, i) && j < |rows| && j in chosen && rows[j].taskId == taskId ==>
          NewerThan(rows, j, i))
    && CountTask(after, taskId) <= capacity
  }

  lemma ChosenNext(rows: seq<ProcessedRow>, chosen: seq<nat>, after: seq<ProcessedRow>, n: nat)
    requires n < |rows| && Chosen(rows, chosen, after) && forall i :: i in chosen ==> i < n
    ensures Chosen(rows, chosen + [n], after + [rows[n]])
  {
    assert forall i :: 0 <= i < |chosen| ==> chosen[i] in chosen;
  }

  lemma {:induction false} TrimChooses(rows: seq<ProcessedRow>, taskId: string, capacity: nat, n: nat) returns (chosen: seq<nat>)
    requires n <= |rows|
    ensures Chosen(rows, chosen, TrimProcessed(rows, taskId, capacity, n))
    ensures forall i: nat :: i in chosen <==> i < n && Retained(rows, taskId, capacity, i)
  {
    hide Retained, Chosen;
    if n == 0 {
      chosen := [];
      NothingChosen(rows);
    } else {
      chosen := TrimChooses(rows, taskId, capacity, n - 1);
      if Retained(rows, taskId, capacity, n - 1) {
        ChosenNext(rows, chosen, TrimProcessed(rows, taskId, capacity, n - 1), n - 1);
        chosen := chosen + [n - 1];
      } else {
        assert TrimProcessed(rows, taskId, capacity, n - 1) + [] == TrimProcessed(rows, taskId, capacity, n - 1);
      }
    }
  }

  lemma NothingChosen(rows: seq<ProcessedRow>)
    ensures Chosen(rows, [], [])
  {
  }

  /** A dropped row has as many newer ones that stay as there is room for. */
  lemma {:induction false} DropMeansFull(rows: seq<ProcessedRow>, taskId: string, capacity: nat, i: nat)
    requires i < |rows| && rows[i].taskId == taskId && Rank(rows, i) >= capacity
    ensures |KeptRows(rows, taskId, capacity, |rows|)| >= capacity
    decreases Rank(rows, i)
  {
    var newer, kept := NewerRows(rows, i), KeptRows(rows, taskId, capacity, |rows|);
    if j :| j in newer && Rank(rows, j) >= capacity {
      RanksDiffer(rows, j, i);
      DropMeansFull(rows, taskId, capacity, j);
    } else {
      assert newer <= kept;
      SubsetSize(newer, kept);
    }
  }

  lemma NewestStay(rows: seq<ProcessedRow>, taskId: string, capacity: nat, i: nat, j: nat)
    requires i < |rows| && j < |rows| && rows[i].taskId == taskId == rows[j].taskId
    requires Rank(rows, i) >= capacity > Rank(rows, j)
    ensures NewerThan(rows, j, i)
  {
    if !NewerThan(rows, j, i) && i != j {
      RanksDiffer(rows, i, j);
    }
  }

  lemma TrimKeepsNewest(rows: seq<ProcessedRow>, taskId: string, capacity: nat) returns (chosen: seq<nat>)
    ensures KeepsNewest(rows, taskId, capacity, chosen, TrimProcessed(rows, taskId, capacity, |rows|))
    ensures forall i: nat :: i in chosen <==> i < |rows| && Retained(rows, taskId, capacity, i)
  {
    hide NewerThan, NewerRows, KeptRows, CountTask, TrimProcessed;
    chosen := TrimChooses(rows, taskId, capacity, |rows|);
    TrimCounts(rows, taskId, capacity, |rows|);
    RankedRowsFit(rows, taskId, capacity);
    forall i: nat | Dropped(rows, chosen, i)
      ensures rows[i].taskId == taskId && CountTask(TrimProcessed(rows, taskId, capacity, |rows|), taskId) == capacity
    {
      DropMeansFull(rows, taskId, capacity, i);
    }
    forall i: nat, j: nat | Dropped(rows, chosen, i) && j < |rows| && j in chosen && rows[j].taskId == taskId
      ensures NewerThan(rows, j, i)
    {
      NewestStay(rows, taskId, capacity, i, j);
    }
  }

  // ---- completion ----

  /** Completing a job removes it, and chooses among the rows before and those of its cleanly parsed files as said. */
  lemma CompletionChooses(q: Queue, key: string, now: int) returns (rows: seq<ProcessedRow>, from: seq<nat>, chosen: seq<nat>)
    requires CompleteJob(q, key, now).Some?
    ensures var job, t := q.jobs[key], CompleteJob(q, key, now).value;
            && t == q.(jobs := q.jobs - {key}, processed := t.processed)
            && Candidates(q.processed, job, job.files, key, now, rows, from)
            && KeepsNewest(rows, job.task.id, q.processedCapacity, chosen, t.processed)
    ensures forall i: nat :: i in chosen <==> i < |rows| && Retained(rows, q.jobs[key].task.id, q.processedCapacity, i)
  {
    hide Candidates, KeepsNewest, Retained, AddProcessed, TrimProcessed;
    var job := q.jobs[key];
    rows := AddProcessed(q.processed, job.task.id, key, now, job.files);
    from := AddedAreCandidates(q.processed, job, job.files, key, now);
    chosen := TrimKeepsNewest(rows, job.task.id, q.processedCapacity);
  }

  /** The rows of the task that are later than the clock. */
  ghost function LaterRows(processed: seq<ProcessedRow>, taskId: string, now: int): set<int> {
    set i | 0 <= i < |processed| && processed[i].taskId == taskId && processed[i].processedAt > now
  }

  lemma RankOfNewRow(before: seq<ProcessedRow>, job: JobRow, files: seq<FileRow>, key: string, now: int,
                     rows: seq<ProcessedRow>, from: seq<nat>, i: nat)
    requires Candidates(before, job, files, key, now, rows, from) && |before| <= i < |rows|
    ensures Rank(rows, i) == |LaterRows(before, job.task.id, now)| + (|rows| - 1 - i)
  {
    hide ProcessedKnown;
    var later, after := LaterRows(before, job.task.id, now), Interval(i, |rows|);
    forall j | |before| <= j < |rows| ensures rows[j].taskId == job.task.id && rows[j].processedAt == now {
      assert ProcessedBy(rows[|before| + (j - |before|)], files[from[j - |before|]], job, key, now);
    }
    assert NewerRows(rows, i) == later + after;
    assert later !! after;
    IntervalSize(i, |rows|);
  }

  predicate Between(low: int, j: int, high: int) { low < j < high }

  ghost function Interval(low: int, high: int): set<int> { set j | low < j < high && Between(low, j, high) }

  lemma {:induction false} IntervalSize(low: nat, high: nat)
    requires low < high
    ensures |Interval(low, high)| == high - 1 - low
  {
    if low + 1 < high {
      IntervalSize(low, high - 1);
      assert forall j :: j in Interval(low, high) <==> Between(low, j, high);
      assert Interval(low, high) == Interval(low, high - 1) + {high - 1};
    } else {
      assert Interval(low, high) == {};
    }
  }

  /** A row that the job adds stays if and only if the rows of the task that are later than the clock, and those added after
      it, leave room for it. */
  lemma AddedRowStaysIff(q: Queue, key: string, now: int) returns (rows: seq<ProcessedRow>, from: seq<nat>, chosen: seq<nat>)
    requires CompleteJob(q, key, now).Some?
    ensures var job, t := q.jobs[key], CompleteJob(q, key, now).value;
            && Candidates(q.processed, job, job.files, key, now, rows, from)
            && KeepsNewest(rows, job.task.id, q.processedCapacity, chosen, t.processed)
            && forall i :: |q.processed| <= i < |rows| ==>
                 (i in chosen <==> |LaterRows(q.processed, job.task.id, now)| + (|rows| - 1 - i) < q.processedCapacity)
  {
    hide Candidates, KeepsNewest, AddProcessed, TrimProcessed, LaterRows, NewerRows;
    rows, from, chosen := CompletionChooses(q, key, now);
    var job := q.jobs[key];
    forall i | |q.processed| <= i < |rows|
      ensures i in chosen <==> |LaterRows(q.processed, job.task.id, now)| + (|rows| - 1 - i) < q.processedCapacity
    {
      RankOfNewRow(q.processed, job, job.files, key, now, rows, from, i);
      assert rows[i].taskId == job.task.id by {
        AddedTask(q.processed, job, job.files, key, now, rows, from, i);
      }
    }
  }

  lemma AddedTask(before: seq<ProcessedRow>, job: JobRow, files: seq<FileRow>, key: string, now: int,
                  rows: seq<ProcessedRow>, from: seq<nat>, i: nat)
    requires Candidates(before, job, files, key, now, rows, from) && |before| <= i < |rows|
    ensures rows[i].taskId == job.task.id && rows[i].processedAt == now
  {
    assert ProcessedBy(rows[|before| + (i - |before|)], files[from[i - |before|]], job, key, now);
  }

  lemma EarlyIsKnown(before: seq<ProcessedRow>, rows: seq<ProcessedRow>, taskId: string, fingerprint: string, i: nat)
    requires before <= rows && i < |rows| && rows[i].taskId == taskId && rows[i].fingerprint == fingerprint
    ensures i < |before| ==> ProcessedKnown(before, taskId, fingerprint)
  {
    if i < |before| {
      assert before[i] == rows[i];
    }
  }

  lemma NewFingerprint(before: seq<ProcessedRow>, job: JobRow, files: seq<FileRow>, key: string, now: int,
                       rows: seq<ProcessedRow>, from: seq<nat>, k: nat) returns (i: nat)
    requires Candidates(before, job, files, key, now, rows, from) && k < |files| && files[k].parsedClean
    requires !ProcessedKnown(before, job.task.id, files[k].fingerprint)
    ensures |before| <= i < |rows| && rows[i].taskId == job.task.id && rows[i].fingerprint == files[k].fingerprint
    ensures |rows| - |before| <= |files|
  {
    assert ProcessedKnown(rows, job.task.id, files[k].fingerprint);
    i :| 0 <= i < |rows| && rows[i].taskId == job.task.id && rows[i].fingerprint == files[k].fingerprint;
    EarlyIsKnown(before, rows, job.task.id, files[k].fingerprint, i);
    IncreasingFits(from, |files|, |from|);
  }

  lemma {:induction false} IncreasingFits(from: seq<nat>, bound: nat, n: nat)
    requires n <= |from| && (forall i :: 0 <= i < |from| ==> from[i] < bound)
    requires forall i, j :: 0 <= i < j < |from| ==> from[i] < from[j]
    ensures n <= bound && (n > 0 ==> n - 1 <= from[n - 1])
  {
    if n > 0 {
      IncreasingFits(from, bound, n - 1);
      assert n > 1 ==> from[n - 2] < from[n - 1];
      assert from[n - 1] < bound;
    }
  }

  /** If no row of the task is later than the clock and the capacity has room for the files of the job, every cleanly parsed
      file that was not processed before is processed afterwards. */
  lemma CleanFilesStay(q: Queue, key: string, now: int, k: nat)
    requires CompleteJob(q, key, now).Some? && k < |q.jobs[key].files| && q.jobs[key].files[k].parsedClean
    requires LaterRows(q.processed, q.jobs[key].task.id, now) == {} && |q.jobs[key].files| <= q.processedCapacity
    requires !ProcessedKnown(q.processed, q.jobs[key].task.id, q.jobs[key].files[k].fingerprint)
    ensures ProcessedKnown(CompleteJob(q, key, now).value.processed, q.jobs[key].task.id, q.jobs[key].files[k].fingerprint)
  {
    hide Candidates, AddProcessed, TrimProcessed, LaterRows, CountTask, NewerThan, Dropped;
    var rows, from, chosen := AddedRowStaysIff(q, key, now);
    var i := NewFingerprint(q.processed, q.jobs[key], q.jobs[key].files, key, now, rows, from, k);
    assert i in chosen;
    var at :| 0 <= at < |chosen| && chosen[at] == i;
    assert CompleteJob(q, key, now).value.processed[at] == rows[i];
  }

  /** And if the rows of the task that are later than the clock fill the capacity, none of them is: the clock has gone back,
      and the next listing takes those files again. */
  lemma LaterRowsShutOut(q: Queue, key: string, now: int, k: nat)
    requires CompleteJob(q, key, now).Some? && k < |q.jobs[key].files|
    requires |LaterRows(q.processed, q.jobs[key].task.id, now)| >= q.processedCapacity
    requires !ProcessedKnown(q.processed, q.jobs[key].task.id, q.jobs[key].files[k].fingerprint)
    ensures !ProcessedKnown(CompleteJob(q, key, now).value.processed, q.jobs[key].task.id, q.jobs[key].files[k].fingerprint)
  {
    hide AddProcessed, TrimProcessed, LaterRows, CountTask, NewerThan, Dropped, ProcessedBy;
    var rows, from, chosen := AddedRowStaysIff(q, key, now);
    var after, task, fingerprint := CompleteJob(q, key, now).value.processed, q.jobs[key].task.id, q.jobs[key].files[k].fingerprint;
    forall at | 0 <= at < |after| ensures after[at].taskId != task || after[at].fingerprint != fingerprint {
      assert chosen[at] in chosen;
      assert chosen[at] < |q.processed|;
      assert q.processed[chosen[at]] == after[at];
    }
  }
}
