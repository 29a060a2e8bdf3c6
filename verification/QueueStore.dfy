/** The durable queue as the Agent uses it: every method is one transaction on the rows. */
module QueueStore {
  import opened Messages
  import opened QueueModel

  class AgentQueueStore {
    const node: string
    const maxJobs: nat
    const processedCapacity: nat
    var jobs: map<string, JobRow>
    var processed: seq<ProcessedRow>

    constructor (node: string, maxJobs: nat, processedCapacity: nat)
      ensures this.node == node && this.maxJobs == maxJobs && this.processedCapacity == processedCapacity
      ensures State() == Queue(node, maxJobs, processedCapacity, map[], [])
    {
      this.node := node;
      this.maxJobs := maxJobs;
      this.processedCapacity := processedCapacity;
      jobs := map[];
      processed := [];
    }

    ghost function State(): Queue
      reads this
    {
      Queue(node, maxJobs, processedCapacity, jobs, processed)
    }

    /** What a transaction leaves behind: its effect when it commits, the old rows when it throws. */
    twostate predicate Transacted(effect: Option<Queue>, ok: bool)
      reads this
    {
      ok == effect.Some? && State() == (if effect.Some? then effect.value else old(State()))
    }

    method BeginJob(task: TaskConfig, request: StartRequest,
                    retryFiles: seq<RetryFile>) returns (ok: bool, created: bool)
      modifies this
      ensures match QueueModel.BeginJob(old(State()), task, request, retryFiles)
              case Begun(q) => ok && created && State() == q
              case AlreadyQueued => ok && !created && State() == old(State())
              case BeginError => !ok && State() == old(State())
    {
      if request.node != node || task.node != node || request.taskId != task.id {
        return false, false;
      }
      if request.executionKey in jobs {
        return SameJob(jobs[request.executionKey], task, request), false;
      }
      if |jobs| >= maxJobs {
        return false, false;
      }
      jobs := jobs[request.executionKey := NewJob(task, request, retryFiles)];
      return true, true;
    }

    method SaveFilePlan(key: string, plan: seq<FileRow>, failures: seq<FailedFile>) returns (ok: bool)
      modifies this
      ensures Transacted(QueueModel.SaveFilePlan(old(State()), key, plan, failures), ok)
    {
      if key !in jobs {
        return false;
      }
      var files := jobs[key].files;
      for i := 0 to |plan|
        invariant State() == old(State())
        invariant files == jobs[key].files + plan[..i]
        invariant PlanAccepted(jobs[key], plan[..i])
      {
        assert forall j :: 0 <= j < |files| ==> (jobs[key].files + plan)[j] == files[j];
        if plan[i].sizeBytes < 0 || exists j :: 0 <= j < |files| && RowsClash(files[j], plan[i]) {
          return false;
        }
        ExtendPlan(jobs[key], plan[..i], plan[i]);
        assert plan[..i + 1] == plan[..i] + [plan[i]];
        files := files + [plan[i]];
      }
      assert plan[..|plan|] == plan;
      jobs := jobs[key := jobs[key].(files := files, failures := Some(failures))];
      return true;
    }

    method SaveFileFailures(key: string, failures: seq<FailedFile>) returns (ok: bool)
      modifies this
      ensures Transacted(QueueModel.SaveFileFailures(old(State()), key, failures), ok)
    {
      if key !in jobs {
        return false;
      }
      jobs := jobs[key := jobs[key].(failures := Some(failures))];
      return true;
    }

    method MarkFileFailed(key: string, ordinal: int, detail: string, failures: seq<FailedFile>) returns (ok: bool)
      modifies this
      ensures Transacted(QueueModel.MarkFileFailed(old(State()), key, ordinal, detail, failures), ok)
    {
      if key !in jobs || !HasOrdinal(jobs[key].files, ordinal) {
        return false;
      }
      jobs := jobs[key := jobs[key].(files := WithError(jobs[key].files, ordinal, detail))];
      jobs := jobs[key := jobs[key].(failures := Some(failures))];
      return true;
    }

    method MarkFileArchived(key: string, ordinal: int) returns (ok: bool)
      modifies this
      ensures Transacted(QueueModel.MarkFileArchived(old(State()), key, ordinal), ok)
    {
      if key !in jobs || !HasOrdinal(jobs[key].files, ordinal) {
        return false;
      }
      jobs := jobs[key := jobs[key].(files := WithArchived(jobs[key].files, ordinal))];
      return true;
    }

    method AcceptStart(key: string, runId: string) returns (ok: bool)
      modifies this
      ensures Transacted(QueueModel.AcceptStart(old(State()), key, runId), ok)
    {
      if key !in jobs || !jobs[key].stage.StartPending? {
        return false;
      }
      jobs := jobs[key := jobs[key].(runId := runId, stage := Collecting)];
      return true;
    }

    method SaveManifest(key: string, request: ManifestRequest) returns (ok: bool)
      modifies this
      ensures Transacted(QueueModel.SaveManifest(old(State()), key, request), ok)
    {
      if key !in jobs || jobs[key].manifest.Some?
         || exists k :: k in jobs && jobs[k].manifest.Some? && jobs[k].manifest.value.key == request.key {
        return false;
      }
      if !jobs[key].stage.Collecting? {
        return false;
      }
      jobs := jobs[key := jobs[key].(manifest := Some(Delivery(request.key, request, 0)), stage := ManifestPending)];
      return true;
    }

    /** Binds the answered ids by the archive path each entry was sent with, in sending order. */
    method AcceptManifest(key: string, ids: seq<string>) returns (ok: bool)
      modifies this
      ensures Transacted(QueueModel.AcceptManifest(old(State()), key, ids), ok)
    {
      if key !in jobs || jobs[key].manifest.None? {
        return false;
      }
      var sent := jobs[key].manifest.value.request.files;
      if |sent| != |ids| {
        return false;
      }
      var files := jobs[key].files;
      for index := 0 to |ids|
        invariant State() == old(State())
        invariant BindRawFiles(jobs[key].files, sent, ids, index) == Some(files)
      {
        var changed := CountMatching(files, sent[index].storagePath);
        if changed != 1 {
          BindFailsEarly(jobs[key].files, sent, ids, index + 1, |ids|);
          return false;
        }
        files := WithRawFile(files, sent[index].storagePath, ids[index]);
      }
      var stage := if jobs[key].stage.ManifestPending? then ReportBuilding else jobs[key].stage;
      jobs := jobs[key := jobs[key].(files := files, stage := stage)];
      return true;
    }

    method SaveReport(key: string, request: ReportRequest, clean: seq<bool>) returns (ok: bool)
      modifies this
      ensures Transacted(QueueModel.SaveReport(old(State()), key, request, clean), ok)
    {
      if key !in jobs || |jobs[key].files| != |clean| {
        return false;
      }
      if jobs[key].report.Some?
         || exists k :: k in jobs && jobs[k].report.Some? && jobs[k].report.value.key == request.key {
        return false;
      }
      var files := jobs[key].files;
      for index := 0 to |clean|
        invariant files == WithOutcomes(jobs[key].files, clean[..index])
        invariant State() == old(State())
      {
        files := seq(|files|, i requires 0 <= i < |files| =>
          if files[i].ordinal == index then files[i].(parsedClean := clean[index]) else files[i]);
      }
      assert clean[..|clean|] == clean;
      var stage := if jobs[key].stage.Collecting? || jobs[key].stage.ReportBuilding? then ReportPending else jobs[key].stage;
      jobs := jobs[key := jobs[key].(report := Some(Delivery(request.key, request, 0)), files := files, stage := stage)];
      return true;
    }

    method CompleteJob(key: string, now: int) returns (ok: bool)
      modifies this
      ensures Transacted(QueueModel.CompleteJob(old(State()), key, now), ok)
    {
      if key !in jobs || !jobs[key].stage.ReportPending? {
        return false;
      }
      var taskId, files := jobs[key].task.id, jobs[key].files;
      var added := processed;
      for i := 0 to |files|
        invariant added == AddProcessed(processed, taskId, key, now, files[..i])
        invariant State() == old(State())
      {
        assert files[..i + 1][..i] == files[..i];
        if files[i].parsedClean
           && !(exists j :: 0 <= j < |added| && added[j].taskId == taskId && added[j].fingerprint == files[i].fingerprint) {
          added := added + [ProcessedRow(taskId, files[i].fingerprint, files[i].sourcePath, files[i].fileHash, now, key)];
        }
      }
      assert files[..|files|] == files;
      var kept: seq<ProcessedRow> := [];
      for i := 0 to |added|
        invariant kept == TrimProcessed(added, taskId, processedCapacity, i)
        invariant State() == old(State())
      {
        if added[i].taskId == taskId {
          var newer := CountNewer(added, i);
          if newer < processedCapacity {
            kept := kept + [added[i]];
          }
        } else {
          kept := kept + [added[i]];
        }
      }
      processed := kept;
      jobs := jobs - {key};
      return true;
    }

    method DiscardStartPendingJob(key: string) returns (ok: bool)
      modifies this
      ensures Transacted(QueueModel.DiscardStartPending(old(State()), key), ok)
    {
      if key !in jobs || |jobs[key].files| != 0 || !jobs[key].stage.StartPending? {
        return false;
      }
      jobs := jobs - {key};
      return true;
    }

    method MarkRequiresAttention(key: string, errorKind: string) returns (ok: bool)
      modifies this
      ensures Transacted(QueueModel.MarkRequiresAttention(old(State()), key, errorKind), ok)
    {
      if key !in jobs {
        return false;
      }
      var resume := jobs[key].retryStage;
      if jobs[key].stage.RetryWait? {
        if resume.None? || !Executable(resume.value) {
          return false;
        }
      } else if !jobs[key].stage.RequiresAttention? {
        resume := Some(jobs[key].stage);
      } else {
        return false;
      }
      jobs := jobs[key := jobs[key].(stage := RequiresAttention, retryStage := resume, lastErrorKind := errorKind)];
      return true;
    }

    /** Finds the job of a delivery by its request type and idempotency key. */
    method DeliveryExecutionKey(kind: RequestType, idempotencyKey: string) returns (key: Option<string>)
      ensures key.Some? ==> Owns(State(), key.value, kind, idempotencyKey)
      ensures key.None? ==> forall k :: !Owns(State(), k, kind, idempotencyKey)
    {
      if exists k :: k in jobs && HasDelivery(jobs[k], kind, idempotencyKey) {
        var k :| k in jobs && HasDelivery(jobs[k], kind, idempotencyKey);
        return Some(k);
      }
      return None;
    }

    method DeliveryAttemptCount(kind: RequestType, idempotencyKey: string) returns (count: Option<nat>)
      ensures count.None? <==> forall k :: !Owns(State(), k, kind, idempotencyKey)
      ensures count.Some? ==> (exists k :: Owns(State(), k, kind, idempotencyKey) && count.value == Attempts(jobs[k], kind))
    {
      var owner := DeliveryExecutionKey(kind, idempotencyKey);
      if owner.None? {
        return None;
      }
      assert Owns(State(), owner.value, kind, idempotencyKey);
      return Some(Attempts(jobs[owner.value], kind));
    }

    method RecordDeliveryFailure(kind: RequestType, idempotencyKey: string, retryable: bool, errorKind: string)
      returns (ok: bool)
      modifies this
      ensures ok <==> exists k :: Owns(old(State()), k, kind, idempotencyKey)
      ensures ok ==>
                (exists k :: Owns(old(State()), k, kind, idempotencyKey)
                             && State() == QueueModel.RecordDeliveryFailure(old(State()), k, kind, retryable, errorKind))
      ensures !ok ==> State() == old(State())
    {
      var owner := DeliveryExecutionKey(kind, idempotencyKey);
      if owner.None? {
        assert forall k :: !Owns(old(State()), k, kind, idempotencyKey);
        return false;
      }
      var key := owner.value;
      var job := CountAttempt(jobs[key], kind);
      if DeliveryStage(job.stage) {
        job := job.(retryStage := Some(job.stage), stage := if retryable then RetryWait else RequiresAttention,
                    attempts := job.attempts + 1, lastErrorKind := errorKind);
      }
      jobs := jobs[key := job];
      return true;
    }

    method ResumeDelivery(kind: RequestType, idempotencyKey: string) returns (ok: bool)
      modifies this
      ensures (forall k :: !Owns(old(State()), k, kind, idempotencyKey)) ==> !ok && State() == old(State())
      ensures (exists k :: Owns(old(State()), k, kind, idempotencyKey)) ==>
                exists k :: Owns(old(State()), k, kind, idempotencyKey)
                            && Transacted(QueueModel.ResumeDelivery(old(State()), k), ok)
    {
      var owner := DeliveryExecutionKey(kind, idempotencyKey);
      if owner.None? {
        assert State() == old(State());
        return false;
      }
      var key := owner.value;
      assert Owns(old(State()), key, kind, idempotencyKey);
      if jobs[key].stage.RetryWait? {
        if jobs[key].retryStage.None? {
          assert Transacted(QueueModel.ResumeDelivery(old(State()), key), false);
          return false;
        }
        jobs := jobs[key := jobs[key].(stage := jobs[key].retryStage.value, retryStage := None)];
      }
      assert jobs == old(jobs)[key := jobs[key]];
      assert Transacted(QueueModel.ResumeDelivery(old(State()), key), true);
      return true;
    }

    method RetryAttentionJob(key: string) returns (result: Option<Stage>, ok: bool)
      modifies this
      ensures match QueueModel.RetryAttentionJob(old(State()), key)
              case Resumption(q, stage) => ok && result == Some(stage) && State() == q
              case NotAttention(_) => ok && result == None && State() == old(State())
              case RetryError => !ok && result == None && State() == old(State())
    {
      if key !in jobs {
        return None, false;
      }
      if !jobs[key].stage.RequiresAttention? {
        return None, true;
      }
      var resume := jobs[key].retryStage;
      if resume.None? {
        if jobs[key].lastErrorKind != "archive_conflict" {
          return None, false;
        }
        resume := Some(Collecting);
      } else if !Executable(resume.value) {
        return None, false;
      }
      jobs := jobs[key := jobs[key].(stage := resume.value, retryStage := None)];
      return resume, true;
    }

    method IsFileInFlight(taskId: string, fingerprint: string) returns (inFlight: bool)
      ensures inFlight == InFlight(State(), taskId, fingerprint)
    {
      inFlight := exists k :: k in jobs && jobs[k].task.id == taskId
                              && exists i :: 0 <= i < |jobs[k].files| && jobs[k].files[i].fingerprint == fingerprint;
    }

    method IsFileOccupied(taskId: string, fingerprint: string) returns (occupied: bool)
      ensures occupied == Occupied(State(), taskId, fingerprint)
    {
      occupied := exists i :: 0 <= i < |processed| && processed[i].taskId == taskId && processed[i].fingerprint == fingerprint;
      if !occupied {
        occupied := IsFileInFlight(taskId, fingerprint);
      }
    }
  }

  lemma ExtendPlan(job: JobRow, plan: seq<FileRow>, row: FileRow)
    requires PlanAccepted(job, plan) && row.sizeBytes >= 0
    requires forall j :: 0 <= j < |job.files| + |plan| ==> !RowsClash((job.files + plan)[j], row)
    ensures PlanAccepted(job, plan + [row])
  {
    var longer := job.files + (plan + [row]);
    assert forall j :: 0 <= j < |job.files| + |plan| ==> longer[j] == (job.files + plan)[j];
  }

  method CountMatching(files: seq<FileRow>, path: string) returns (count: nat)
    ensures count == |MatchingRows(files, path)|
  {
    count := 0;
    ghost var found: set<int> := {};
    for i := 0 to |files|
      invariant found == set k | 0 <= k < i && files[k].archivePath == path
      invariant count == |found|
    {
      if files[i].archivePath == path {
        found := found + {i};
        count := count + 1;
      }
    }
    assert found == MatchingRows(files, path);
  }

  method CountNewer(rows: seq<ProcessedRow>, i: nat) returns (count: nat)
    requires i < |rows|
    ensures count == |NewerRows(rows, i)|
  {
    count := 0;
    ghost var found: set<int> := {};
    for j := 0 to |rows|
      invariant found == set k | 0 <= k < j && k in NewerRows(rows, i)
      invariant count == |found|
    {
      if rows[j].taskId == rows[i].taskId
         && (rows[j].processedAt > rows[i].processedAt || (rows[j].processedAt == rows[i].processedAt && j > i)) {
        found := found + {j};
        count := count + 1;
      }
    }
    assert found == NewerRows(rows, i);
  }

  /** A binding that fails for some prefix of the answered ids fails for all of them. */
  lemma {:induction false} BindFailsEarly(files: seq<FileRow>, sent: seq<ManifestEntry>, ids: seq<string>, m: nat,
                                          n: nat)
    requires m <= n <= |sent| == |ids| && BindRawFiles(files, sent, ids, m).None?
    ensures BindRawFiles(files, sent, ids, n).None?
  {
    if m < n {
      BindFailsEarly(files, sent, ids, m, n - 1);
    }
  }
}
