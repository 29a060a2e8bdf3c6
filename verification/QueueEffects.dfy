/** What each transaction of the queue does to the rows, stated apart from how: when it commits, which row it changes, and that
    nothing else moves. Completing a job is in Completion, accepting a plan in PlanAcceptance, binding ids in DeliverySteps. */
module QueueEffects {
  import opened Messages
  import opened QueueModel

  /** Only the job of the key is another one, if any is. */
  predicate OnlyJob(q: Queue, t: Queue, key: string) {
    && t.node == q.node && t.maxJobs == q.maxJobs && t.processedCapacity == q.processedCapacity && t.processed == q.processed
    && key in t.jobs && t.jobs.Keys == q.jobs.Keys + {key} && forall k :: k in q.jobs && k != key ==> t.jobs[k] == q.jobs[k]
  }

  /** Committed exactly under the condition, with only that job changed; otherwise rolled back. */
  ghost predicate CommitsIff(q: Queue, effect: Option<Queue>, key: string, condition: bool) {
    (effect.Some? <==> condition) && (effect.Some? ==> key in q.jobs && OnlyJob(q, effect.value, key))
  }

  // ---- beginning a job ----

  predicate Addressed(q: Queue, task: TaskConfig, request: StartRequest) {
    request.node == q.node && task.node == q.node && request.taskId == task.id
  }

  /** A new job holds the request, the fixed targets, and nothing else yet. */
  predicate IsNew(job: JobRow, task: TaskConfig, request: StartRequest, retryFiles: seq<RetryFile>) {
    && job.task == task && job.start == Delivery(request.executionKey, request, 0) && job.retryFiles == retryFiles
    && job.stage.StartPending? && job.retryStage.None? && job.runId == "" && job.attempts == 0 && job.lastErrorKind == ""
    && job.failures.None? && job.files == [] && job.manifest.None? && job.report.None?
  }

  /** A job is begun if and only if the request is for this node and task, its key is unused and there is room; it is there
      already if the key is used for the same task and slot; and everything else is an error. */
  lemma BeginEffect(q: Queue, task: TaskConfig, request: StartRequest, retryFiles: seq<RetryFile>)
    ensures var key, begin := request.executionKey, BeginJob(q, task, request, retryFiles);
            && (begin.Begun? <==> Addressed(q, task, request) && key !in q.jobs && |q.jobs| < q.maxJobs)
            && (begin.AlreadyQueued? <==>
                  && Addressed(q, task, request) && key in q.jobs && q.jobs[key].task == task
                  && q.jobs[key].start.request.scheduledFor == request.scheduledFor)
            && (begin.Begun? ==> OnlyJob(q, begin.queue, key) && IsNew(begin.queue.jobs[key], task, request, retryFiles))
  {
  }

  // ---- file outcomes ----

  predicate HasFile(q: Queue, key: string, ordinal: int) {
    key in q.jobs && exists i :: 0 <= i < |q.jobs[key].files| && q.jobs[key].files[i].ordinal == ordinal
  }

  /** Every other column of the job is as it was. */
  predicate OnlyFiles(a: JobRow, b: JobRow) {
    |b.files| == |a.files| && b == a.(files := b.files, failures := b.failures)
  }

  /** A failure is marked and the list replaced in one transaction, which needs a file with the ordinal. */
  lemma FailedEffect(q: Queue, key: string, ordinal: int, detail: string, failures: seq<FailedFile>)
    ensures var effect := MarkFileFailed(q, key, ordinal, detail, failures);
            && CommitsIff(q, effect, key, HasFile(q, key, ordinal))
            && (effect.Some? ==>
                  var a, b := q.jobs[key], effect.value.jobs[key];
                  && OnlyFiles(a, b) && b.failures == Some(failures)
                  && forall i :: 0 <= i < |a.files| ==>
                       b.files[i] == if a.files[i].ordinal == ordinal then a.files[i].(errorDetail := detail) else a.files[i])
  {
  }

  lemma ArchivedEffect(q: Queue, key: string, ordinal: int)
    ensures var effect := MarkFileArchived(q, key, ordinal);
            && CommitsIff(q, effect, key, HasFile(q, key, ordinal))
            && (effect.Some? ==>
                  var a, b := q.jobs[key], effect.value.jobs[key];
                  && OnlyFiles(a, b) && b.failures == a.failures
                  && forall i :: 0 <= i < |a.files| ==>
                       b.files[i] == if a.files[i].ordinal == ordinal then a.files[i].(archived := true) else a.files[i])
  {
  }

  lemma PlanEffect(q: Queue, key: string, plan: seq<FileRow>, failures: seq<FailedFile>)
    requires SaveFilePlan(q, key, plan, failures).Some?
    ensures var t := SaveFilePlan(q, key, plan, failures).value;
            && key in q.jobs && OnlyJob(q, t, key)
            && t.jobs[key] == q.jobs[key].(files := q.jobs[key].files + plan, failures := Some(failures))
  {
    hide PlanAccepted;
  }

  lemma ListEffect(q: Queue, key: string, failures: seq<FailedFile>)
    ensures var effect := SaveFileFailures(q, key, failures);
            && CommitsIff(q, effect, key, key in q.jobs)
            && (effect.Some? ==> effect.value.jobs[key] == q.jobs[key].(failures := Some(failures)))
  {
  }

  // ---- the delivery chain ----

  lemma StartEffect(q: Queue, key: string, runId: string)
    ensures var effect := AcceptStart(q, key, runId);
            && CommitsIff(q, effect, key, key in q.jobs && q.jobs[key].stage.StartPending?)
            && (effect.Some? ==> effect.value.jobs[key] == q.jobs[key].(runId := runId, stage := Collecting))
  {
  }

  ghost predicate ManifestUnder(q: Queue, idempotencyKey: string) {
    exists k :: k in q.jobs && q.jobs[k].manifest.Some? && q.jobs[k].manifest.value.key == idempotencyKey
  }

  ghost predicate ReportUnder(q: Queue, idempotencyKey: string) {
    exists k :: k in q.jobs && q.jobs[k].report.Some? && q.jobs[k].report.value.key == idempotencyKey
  }

  /** A manifest is saved, uncounted, for a collecting job that has none, if no delivery has its key. */
  lemma ManifestEffect(q: Queue, key: string, request: ManifestRequest)
    ensures var effect := SaveManifest(q, key, request);
            && CommitsIff(q, effect, key, key in q.jobs && q.jobs[key].stage.Collecting? && q.jobs[key].manifest.None?
                                          && !ManifestUnder(q, request.key))
            && (effect.Some? ==>
                  effect.value.jobs[key]
                  == q.jobs[key].(manifest := Some(Delivery(request.key, request, 0)), stage := ManifestPending))
  {
  }

  /** Acknowledging a manifest touches the raw file ids of the rows only, and moves the job on from its manifest stage only. */
  lemma BoundEffect(q: Queue, key: string, ids: seq<string>)
    requires AcceptManifest(q, key, ids).Some?
    ensures var t := AcceptManifest(q, key, ids).value;
            && key in q.jobs && OnlyJob(q, t, key)
            && var a, b := q.jobs[key], t.jobs[key];
               && |b.files| == |a.files| && b == a.(files := b.files, stage := b.stage)
               && b.stage == (if a.stage.ManifestPending? then ReportBuilding else a.stage)
               && forall i :: 0 <= i < |a.files| ==> b.files[i] == a.files[i].(rawFileId := b.files[i].rawFileId)
  {
    var job := q.jobs[key];
    hide MatchingRows;
    BoundRows(job.files, job.manifest.value.request.files, ids, |ids|);
  }

  lemma {:induction false} BoundRows(files: seq<FileRow>, sent: seq<ManifestEntry>, ids: seq<string>, n: nat)
    requires n <= |sent| == |ids| && BindRawFiles(files, sent, ids, n).Some?
    ensures var bound := BindRawFiles(files, sent, ids, n).value;
            |bound| == |files| && forall i :: 0 <= i < |files| ==> bound[i] == files[i].(rawFileId := bound[i].rawFileId)
  {
    hide MatchingRows;
    if n > 0 {
      BoundRows(files, sent, ids, n - 1);
    }
  }

  /** A report is saved, uncounted, with what parsing found of each file, for a job that has none, if no delivery has its key;
      a job that waits for a person stays where it is. */
  lemma ReportEffect(q: Queue, key: string, request: ReportRequest, clean: seq<bool>)
    ensures var effect := SaveReport(q, key, request, clean);
            && CommitsIff(q, effect, key, key in q.jobs && |q.jobs[key].files| == |clean| && q.jobs[key].report.None?
                                          && !ReportUnder(q, request.key))
            && (effect.Some? ==>
                  var a, b := q.jobs[key], effect.value.jobs[key];
                  && |b.files| == |a.files| && b == a.(report := b.report, files := b.files, stage := b.stage)
                  && b.report == Some(Delivery(request.key, request, 0))
                  && b.stage == (if a.stage.Collecting? || a.stage.ReportBuilding? then ReportPending else a.stage)
                  && forall i :: 0 <= i < |a.files| ==>
                       b.files[i] == if 0 <= a.files[i].ordinal < |clean| then a.files[i].(parsedClean := clean[a.files[i].ordinal])
                                     else a.files[i])
  {
  }

  /** Only a job that never selected a file and still waits for its start can be discarded. */
  lemma DiscardEffect(q: Queue, key: string)
    ensures var effect := DiscardStartPending(q, key);
            && (effect.Some? <==> key in q.jobs && q.jobs[key].files == [] && q.jobs[key].stage.StartPending?)
            && (effect.Some? ==>
                  && effect.value == q.(jobs := effect.value.jobs) && effect.value.jobs.Keys == q.jobs.Keys - {key}
                  && forall k :: k in effect.value.jobs ==> effect.value.jobs[k] == q.jobs[k])
  {
  }

  // ---- side states ----

  /** The stage a job would be taken up at again, if that is one that can be executed. */
  predicate Resumable(job: JobRow) {
    !job.stage.RequiresAttention? && (job.stage.RetryWait? ==> job.retryStage.Some? && Executable(job.retryStage.value))
  }

  /** A job is set aside with its cause and the stage to resume, unless it is aside already or has no such stage. */
  lemma AttentionEffect(q: Queue, key: string, errorKind: string)
    ensures var effect := MarkRequiresAttention(q, key, errorKind);
            && CommitsIff(q, effect, key, key in q.jobs && Resumable(q.jobs[key]))
            && (effect.Some? ==>
                  var a, b := q.jobs[key], effect.value.jobs[key];
                  && b == a.(stage := RequiresAttention, retryStage := b.retryStage, lastErrorKind := errorKind)
                  && b.retryStage == Some(EffectiveStage(a)))
  {
  }

  /** A failed delivery is counted once, for the request that failed and no other; a job that waits for it moves aside,
      remembers where it was and why, and counts the failure itself. */
  lemma FailureCounted(job: JobRow, kind: RequestType, retryable: bool, errorKind: string)
    ensures var after := FailedDelivery(job, kind, retryable, errorKind);
            && after.start == (if kind.StartType? then Counted(job.start) else job.start)
            && after.manifest
               == (if kind.ManifestType? && job.manifest.Some? then Some(Counted(job.manifest.value)) else job.manifest)
            && after.report == (if kind.ReportType? && job.report.Some? then Some(Counted(job.report.value)) else job.report)
            && after.task == job.task && after.runId == job.runId && after.retryFiles == job.retryFiles
            && after.files == job.files && after.failures == job.failures
            && if job.stage.StartPending? || job.stage.ManifestPending? || job.stage.ReportPending? then
                 && after.stage == (if retryable then RetryWait else RequiresAttention) && after.retryStage == Some(job.stage)
                 && after.attempts == job.attempts + 1 && after.lastErrorKind == errorKind
               else
                 && after.stage == job.stage && after.retryStage == job.retryStage && after.attempts == job.attempts
                 && after.lastErrorKind == job.lastErrorKind
  {
  }

  function Counted<R>(d: Delivery<R>): Delivery<R> { d.(attempts := d.attempts + 1) }

  /** A waiting job returns to the stage it remembers, and forgets it; any other is left alone. */
  lemma ResumeEffect(q: Queue, key: string)
    requires key in q.jobs
    ensures var effect := ResumeDelivery(q, key);
            && CommitsIff(q, effect, key, q.jobs[key].stage.RetryWait? ==> q.jobs[key].retryStage.Some?)
            && (effect.Some? ==>
                  effect.value.jobs[key]
                  == if q.jobs[key].stage.RetryWait? then q.jobs[key].(stage := q.jobs[key].retryStage.value, retryStage := None)
                     else q.jobs[key])
  {
  }

  /** A person takes a job up again at the stage it remembers; without one, an archive conflict is collected again and
      anything else is an error. */
  lemma RetryEffect(q: Queue, key: string)
    ensures var r := RetryAttentionJob(q, key);
            && (r.NotAttention? <==> key in q.jobs && !q.jobs[key].stage.RequiresAttention?)
            && (r.NotAttention? ==> r.current == q.jobs[key].stage)
            && (r.Resumption? <==>
                  && key in q.jobs && q.jobs[key].stage.RequiresAttention?
                  && (if q.jobs[key].retryStage.Some? then Executable(q.jobs[key].retryStage.value)
                      else q.jobs[key].lastErrorKind == "archive_conflict"))
            && (r.Resumption? ==>
                  && OnlyJob(q, r.queue, key)
                  && r.stage == (if q.jobs[key].retryStage.Some? then q.jobs[key].retryStage.value else Collecting)
                  && r.queue.jobs[key] == q.jobs[key].(stage := r.stage, retryStage := None))
  {
  }

  // ---- queries ----

  /** A job of the task has a file with the fingerprint in its plan. */
  predicate PlannedBy(q: Queue, key: string, taskId: string, fingerprint: string) {
    && key in q.jobs && q.jobs[key].task.id == taskId
    && exists i :: 0 <= i < |q.jobs[key].files| && q.jobs[key].files[i].fingerprint == fingerprint
  }

  lemma InFlightIff(q: Queue, taskId: string, fingerprint: string)
    ensures InFlight(q, taskId, fingerprint) <==> exists key :: PlannedBy(q, key, taskId, fingerprint)
    ensures Occupied(q, taskId, fingerprint) <==>
              || (exists key :: PlannedBy(q, key, taskId, fingerprint))
              || (exists i :: 0 <= i < |q.processed| && q.processed[i].taskId == taskId && q.processed[i].fingerprint == fingerprint)
  {
    if InFlight(q, taskId, fingerprint) {
      var key :| key in q.jobs && q.jobs[key].task.id == taskId
                 && exists i :: 0 <= i < |q.jobs[key].files| && q.jobs[key].files[i].fingerprint == fingerprint;
      assert PlannedBy(q, key, taskId, fingerprint);
    }
  }
}
