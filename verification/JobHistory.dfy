/** What a job keeps from one state to the next for as long as it is in the queue, and how it may leave. */
module JobHistory {
  import opened Messages
  import opened QueueModel
  import opened QueueBounds
  import opened Planning
  import opened Reporting
  import opened ControlPlane
  import opened ServerInvariant
  import opened JobInvariant
  import opened Protocol
  import opened ProtocolInvariant
  import opened AgentSteps
  import opened PassSteps
  import opened DeliverySteps
  import opened ProtocolSafety

  /** The file as it was selected; only progress is recorded in it afterwards, and an error is never forgotten. */
  predicate FileAdvances(a: FileRow, b: FileRow) {
    && b.(archived := a.archived, rawFileId := a.rawFileId, parsedClean := a.parsedClean, errorDetail := a.errorDetail) == a
    && (a.archived ==> b.archived) && (a.errorDetail != "" ==> b.errorDetail == a.errorDetail)
  }

  predicate DeliveryAdvances<R(==)>(a: Option<Delivery<R>>, b: Option<Delivery<R>>) {
    a.Some? ==> b.Some? && b.value.key == a.value.key && b.value.request == a.value.request && b.value.attempts >= a.value.attempts
  }

  /** Files are selected once, and the list of failures only grows. */
  predicate SelectionAdvances(a: JobRow, b: JobRow) {
    a.failures.Some? ==>
      && b.failures.Some? && a.failures.value <= b.failures.value && |b.files| == |a.files|
      && forall i :: 0 <= i < |a.files| ==> FileAdvances(a.files[i], b.files[i])
  }

  predicate Advances(a: JobRow, b: JobRow) {
    && b.task == a.task && b.retryFiles == a.retryFiles && b.start.key == a.start.key
    && b.start.request == a.start.request
    && b.start.attempts >= a.start.attempts && b.attempts >= a.attempts
    && (a.runId != "" ==> b.runId == a.runId)
    && DeliveryAdvances(a.manifest, b.manifest) && DeliveryAdvances(a.report, b.report) && SelectionAdvances(a, b)
  }

  lemma AdvancesTransitive(a: JobRow, b: JobRow, c: JobRow)
    requires Advances(a, b) && Advances(b, c)
    ensures Advances(a, c)
  {
    if a.failures.Some? {
      forall i | 0 <= i < |a.files| ensures FileAdvances(a.files[i], c.files[i]) {
        assert FileAdvances(a.files[i], b.files[i]) && FileAdvances(b.files[i], c.files[i]);
      }
    }
  }

  /** Every job that is in both states has advanced. */
  ghost predicate JobsAdvance(a: map<string, JobRow>, b: map<string, JobRow>) {
    forall key :: key in a && key in b ==> Advances(a[key], b[key])
  }

  lemma OneJobAdvances(a: map<string, JobRow>, key: string, job: JobRow)
    requires key in a ==> Advances(a[key], job)
    ensures JobsAdvance(a, a[key := job])
  {
    hide SelectionAdvances;
    forall k | k in a ensures Advances(a[k], a[k]) {
      SelfAdvances(a[k]);
    }
  }

  lemma SelfAdvances(job: JobRow)
    ensures Advances(job, job)
  {
  }

  lemma SameJobsAdvance(a: map<string, JobRow>)
    ensures JobsAdvance(a, a)
  {
    hide Advances;
    forall k | k in a ensures Advances(a[k], a[k]) {
      SelfAdvances(a[k]);
    }
  }

  lemma FewerJobsAdvance(a: map<string, JobRow>, key: string)
    ensures JobsAdvance(a, a - {key})
  {
    hide Advances;
    forall k | k in a ensures Advances(a[k], a[k]) {
      SelfAdvances(a[k]);
    }
  }

  // ---- step by step ----

  lemma PlanAdvances(s: Sys, t: Sys, key: string, draft: Option<Draft>)
    requires NeedsPlan(s, key) && SavesDraft(s, t, key, draft)
    ensures JobsAdvance(s.queue.jobs, t.queue.jobs)
  {
    hide PlanAccepted;
    OneJobAdvances(s.queue.jobs, key, t.queue.jobs[key]);
  }

  lemma ArchivedAdvances(s: Sys, t: Sys)
    requires PassArchived(s, t)
    ensures JobsAdvance(s.queue.jobs, t.queue.jobs)
  {
    hide JobsAdvance, HasOrdinal;
    OneJobAdvances(s.queue.jobs, s.worker.key, t.queue.jobs[s.worker.key]);
  }

  lemma FailedAdvances(w: World, s: Sys, t: Sys, message: string)
    requires PassFailed(s, t, message)
    requires PassOk(s.queue.jobs[s.worker.key], s.worker.next, s.worker.entries, s.worker.failures)
    requires FilesOk(w.workDir, s.queue.jobs[s.worker.key])
    ensures JobsAdvance(s.queue.jobs, t.queue.jobs)
  {
    hide JobsAdvance, HasOrdinal, FilesOk;
    OrdinalsAreIndices(w.workDir, s.queue.jobs[s.worker.key]);
    OneJobAdvances(s.queue.jobs, s.worker.key, t.queue.jobs[s.worker.key]);
  }

  lemma AttentionAdvances(s: Sys, t: Sys, key: string, errorKind: string)
    requires key in s.queue.jobs && MarkRequiresAttention(s.queue, key, errorKind).Some?
    requires t.queue == MarkRequiresAttention(s.queue, key, errorKind).value
    ensures JobsAdvance(s.queue.jobs, t.queue.jobs)
  {
    hide JobsAdvance;
    OneJobAdvances(s.queue.jobs, key, t.queue.jobs[key]);
  }

  lemma ReportAdvances(s: Sys, t: Sys, key: string, r: ReportRequest, clean: seq<bool>)
    requires SavesReport(s, t, key, r, clean)
    ensures JobsAdvance(s.queue.jobs, t.queue.jobs)
  {
    hide JobsAdvance, ReportKeyTaken;
    OneJobAdvances(s.queue.jobs, key, t.queue.jobs[key]);
  }

  lemma BoundAdvances(job: JobRow, bound: seq<FileRow>, ids: seq<string>)
    requires BoundUpTo(job.files, bound, ids, |ids|)
    ensures Advances(job, Bound(job, bound))
  {
    forall i | 0 <= i < |job.files| ensures FileAdvances(job.files[i], bound[i]) {}
  }

  lemma BindAdvances(w: World, s: Sys, t: Sys, key: string, ids: seq<string>, replayed: bool)
    requires Inv(w, s) && BindManifest(s, t, key, ids, replayed)
    ensures JobsAdvance(s.queue.jobs, t.queue.jobs)
  {
    hide Inv, RowOk, QueueModel.AcceptManifest, BoundUpTo, Recorded, StartReplyOk, ReportCommitted, JobsAdvance,
      Advances;
    WorkerParts(w, s);
    RowsOk(w, s, key);
    RecordedIds(s.server.rawFiles, s.queue.jobs[key].manifest.value.request, ids);
    ManifestBinds(w, s, key, ids);
    BoundAdvances(s.queue.jobs[key], t.queue.jobs[key].files, ids);
    OneJobAdvances(s.queue.jobs, key, t.queue.jobs[key]);
  }

  lemma PassFailedAdvances(w: World, s: Sys, t: Sys, message: string)
    requires Inv(w, s) && PassFailed(s, t, message)
    ensures JobsAdvance(s.queue.jobs, t.queue.jobs)
  {
    hide Inv, RowOk, PassOk, JobOk, JobMatches, StageOk, ProgressOk, FilesOk, PassFailed, JobsAdvance;
    WorkerParts(w, s);
    assert AtFile(s) by { FailedAtFile(s, t, message); }
    RowsOk(w, s, s.worker.key);
    RowParts(w, s, s.worker.key, s.queue.jobs[s.worker.key]);
    FailedAdvances(w, s, t, message);
  }

  lemma FailedAtFile(s: Sys, t: Sys, message: string)
    requires PassFailed(s, t, message)
    ensures AtFile(s)
  {
    hide QueueModel.MarkFileFailed;
  }

  lemma ManifestAdvances(s: Sys, t: Sys)
    requires Protocol.SaveManifest(s, t)
    ensures JobsAdvance(s.queue.jobs, t.queue.jobs)
  {
    hide JobsAdvance, ManifestKeyTaken;
    OneJobAdvances(s.queue.jobs, s.worker.key, t.queue.jobs[s.worker.key]);
  }

  lemma ResumeAdvances(s: Sys, t: Sys, key: string)
    requires Resume(s, t, key) || RetryAttention(s, t, key)
    ensures JobsAdvance(s.queue.jobs, t.queue.jobs)
  {
    hide JobsAdvance;
    OneJobAdvances(s.queue.jobs, key, t.queue.jobs[key]);
  }

  lemma CallFailsAdvances(s: Sys, t: Sys, retryable: bool, errorKind: string)
    requires CallFails(s, t, retryable, errorKind)
    ensures JobsAdvance(s.queue.jobs, t.queue.jobs)
  {
    hide JobsAdvance;
    OneJobAdvances(s.queue.jobs, s.worker.key, t.queue.jobs[s.worker.key]);
  }

  lemma StartAdvances(w: World, s: Sys, t: Sys, key: string, answer: StartAnswer)
    requires Inv(w, s) && Protocol.AcceptStart(s, t, key, answer)
    ensures JobsAdvance(s.queue.jobs, t.queue.jobs)
  {
    hide Inv, JobsAdvance, RowOk, StageOk, FilesOk, JobOk, JobMatches;
    RowsOk(w, s, key);
    RowParts(w, s, key, s.queue.jobs[key]);
    OneJobAdvances(s.queue.jobs, key, t.queue.jobs[key]);
  }

  lemma BeginAdvances(s: Sys, t: Sys, key: string)
    requires t.queue == s.queue || (key !in s.queue.jobs && key in t.queue.jobs && t.queue.jobs == s.queue.jobs[key := t.queue.jobs[key]])
    ensures JobsAdvance(s.queue.jobs, t.queue.jobs)
  {
    hide Advances;
    SameJobsAdvance(s.queue.jobs);
  }

  lemma SomeStepsAdvance(w: World, s: Sys, step: Step, t: Sys)
    requires Inv(w, s) && Takes(w, s, step, t)
    requires step.BeginScheduledStep? || step.BeginManualStep? || step.PassStartStep? || step.PollStep? || step.PassSkipStep? || step.SendStep?
             || step.HandleStep? || step.CrashStep? || step.RequestManualStep? || step.RequestRetryStep? || step.SetEnabledStep?
    ensures JobsAdvance(s.queue.jobs, t.queue.jobs) && forall key :: key in s.queue.jobs ==> key in t.queue.jobs
  {
    hide Inv, JobsAdvance, PassStart, Calendar.IsRfc3339Utc, Handled, FreshDraw, ControlPlane.RequestManualRun,
      ControlPlane.RequestRetryRun, SetTaskEnabled;
    SameJobsAdvance(s.queue.jobs);
    match step
    case BeginScheduledStep(task, slot, startedAt) => BeginAdvances(s, t, ScheduledExecutionKey(task.node, task.id, slot));
    case BeginManualStep(c, startedAt) => BeginAdvances(s, t, c.key);
    case PassStartStep(key) => PassStartKeeps(w, s, t, key);
    case _ => assert t.queue == s.queue;
  }

  /** Whatever step is taken: the requests, the identity and the selection of a job never change while it is in the
      queue, its failure list only grows, and its attempts are never reset. */
  lemma StepAdvances(w: World, s: Sys, t: Sys, step: Step)
    requires Inv(w, s) && Takes(w, s, step, t)
    ensures JobsAdvance(s.queue.jobs, t.queue.jobs)
  {
    hide Inv, JobsAdvance, BeginScheduled, BeginManual, Poll, PassStart, PassSkip, PassArchived, PassFailed,
      QueueModel.MarkRequiresAttention, Protocol.SaveManifest, SavesReport, Resume, Send, CallFails,
      Protocol.AcceptStart, BindManifest, RetryAttention, Crash, Handle, SetEnabled, RequestManual, RequestRetry,
      AddProcessed, TrimProcessed, SavesDraft, JobTally, DirectoryDraft, TargetDraft, Distinct;
    match step
    case PlanDirectoryStep(key, limit, items) =>
      PlanAdvances(s, t, key, DirectoryDraft(s.queue, SiteOf(w.workDir, s.queue.jobs[key]), limit, items, |items|));
    case PlanTargetsStep(key, checks) =>
      PlanAdvances(s, t, key, TargetDraft(s.queue, SiteOf(w.workDir, s.queue.jobs[key]), s.queue.jobs[key].retryFiles, checks, |checks|));
    case PassArchivedStep => ArchivedAdvances(s, t);
    case PassFailedStep(message) => PassFailedAdvances(w, s, t, message);
    case PassConflictStep => AttentionAdvances(s, t, s.worker.key, "archive_conflict");
    case SaveManifestStep => ManifestAdvances(s, t);
    case SaveReportStep(key, unreadable, finishedAt) =>
      var tally := JobTally(s.queue.jobs[key], Reading(w, unreadable), w.check);
      ReportAdvances(s, t, key, ReportOf(s.queue.jobs[key], tally, finishedAt), tally.clean);
    case FailCollectionStep(key, error, finishedAt) =>
      ReportAdvances(s, t, key, CollectionFailureReport(s.queue.jobs[key], error, finishedAt), NoneClean(s.queue.jobs[key]));
    case ResumeStep(key) => ResumeAdvances(s, t, key);
    case RetryAttentionStep(key) => ResumeAdvances(s, t, key);
    case CallFailsStep(retryable, errorKind) => CallFailsAdvances(s, t, retryable, errorKind);
    case DiscardStep(key, answer) => FewerJobsAdvance(s.queue.jobs, key);
    case AcceptStartStep(key, answer) => StartAdvances(w, s, t, key, answer);
    case BindManifestStep(key, ids, replayed) => BindAdvances(w, s, t, key, ids, replayed);
    case CompleteStep(key, response, replayed, now) => FewerJobsAdvance(s.queue.jobs, key);
    case OversizedStep(key) => AttentionAdvances(s, t, key, "payload_too_large");
    case _ => SomeStepsAdvance(w, s, step, t);
  }

  /** Over any stretch of a run in which the job stays in the queue: the requests it persisted are never rewritten, its
      files are selected at most once, and every failure stays listed. */
  lemma {:induction false} HistoryAdvances(w: World, trace: seq<Sys>, i: nat, j: nat, key: string)
    requires GoodWorld(w) && Behaviour(w, trace) && i <= j < |trace|
    requires forall k :: i <= k <= j ==> key in trace[k].queue.jobs
    ensures Advances(trace[i].queue.jobs[key], trace[j].queue.jobs[key])
    decreases j - i
  {
    hide GoodWorld, Init, Next, Advances, Inv;
    if i == j {
      SelfAdvances(trace[i].queue.jobs[key]);
    } else {
      HistoryAdvances(w, trace, i, j - 1, key);
      InvariantHolds(w, trace, j - 1);
      assert Next(w, trace[j - 1], trace[j - 1 + 1]);
      NextAdvances(w, trace[j - 1], trace[j]);
      AdvancesTransitive(trace[i].queue.jobs[key], trace[j - 1].queue.jobs[key], trace[j].queue.jobs[key]);
    }
  }

  lemma NextAdvances(w: World, s: Sys, t: Sys)
    requires Inv(w, s) && Next(w, s, t)
    ensures JobsAdvance(s.queue.jobs, t.queue.jobs)
  {
    hide Inv, Takes, JobsAdvance;
    var step :| Takes(w, s, step, t);
    StepAdvances(w, s, t, step);
  }

  // ---- leaving the queue ----

  /** The report of the job is in the database, with the receipt that answers it. */
  ghost predicate ReportDelivered(s: Sys, job: JobRow) {
    && job.report.Some?
    && exists response :: ReportCommitted(s.server, job.report.value.request, response)
  }

  /** The control plane had finished the run before the job selected any file. */
  ghost predicate OverBeforeStart(s: Sys, key: string, job: JobRow) {
    job.stage.StartPending? && job.files == [] && job.failures.None? && Finished(s.server, key)
  }

  lemma StagePreserved(q: Queue, key: string, ids: seq<string>)
    requires QueueModel.AcceptManifest(q, key, ids).Some?
    ensures QueueModel.AcceptManifest(q, key, ids).value.jobs.Keys == q.jobs.Keys
  {
    hide BindRawFiles;
    assert key in q.jobs;
  }

  /** No step but the two that close a job takes anything out of the queue. */
  lemma OtherStepsRemoveNothing(w: World, s: Sys, t: Sys, step: Step)
    requires Inv(w, s) && Takes(w, s, step, t) && !step.DiscardStep? && !step.CompleteStep?
    ensures forall key :: key in s.queue.jobs ==> key in t.queue.jobs
  {
    hide Inv, Calendar.IsRfc3339Utc, Handled, FreshDraw, ControlPlane.RequestManualRun, ControlPlane.RequestRetryRun,
      SetTaskEnabled, ManifestKeyTaken, ReportKeyTaken, JobTally, DirectoryDraft, TargetDraft, Distinct, PlanAccepted,
      QueueModel.AcceptManifest, Handle, HasOrdinal, Amended, BeginScheduled, BeginManual, PassStart;
    match step
    case BindManifestStep(key, ids, replayed) => StagePreserved(s.queue, key, ids);
    case BeginScheduledStep(_, _, _) => SomeStepsAdvance(w, s, step, t);
    case BeginManualStep(_, _) => SomeStepsAdvance(w, s, step, t);
    case PassStartStep(_) => SomeStepsAdvance(w, s, step, t);
    case HandleStep(_, _, _) => SomeStepsAdvance(w, s, step, t);
    case _ =>
  }

  /** A job leaves the queue only after its report was committed, or because the control plane said that the run was
      already over before any plan existed. */
  lemma LeavesOnlyWhenSettled(w: World, s: Sys, t: Sys, key: string)
    requires Inv(w, s) && Next(w, s, t) && key in s.queue.jobs && key !in t.queue.jobs
    ensures ReportDelivered(s, s.queue.jobs[key]) || OverBeforeStart(s, key, s.queue.jobs[key])
  {
    hide Inv, BeginScheduled, BeginManual, Poll, PlanDirectory, PlanTargets, PassStart, PassSkip, PassArchived,
      PassFailed, PassConflict, Protocol.SaveManifest, Protocol.SaveReport, FailCollection, Resume, Send, CallFails,
      Protocol.AcceptStart, BindManifest, Oversized, RetryAttention, Crash, Handle, SetEnabled, RequestManual,
      RequestRetry, AddProcessed, TrimProcessed, ReportCommitted, Finished;
    var step :| Takes(w, s, step, t);
    match step
    case DiscardStep(k, answer) =>
      DiscardKeeps(w, s, t, k, answer);
      UnstartedHasNoFailures(w, s, key);
    case CompleteStep(k, response, replayed, now) =>
      CompleteKeeps(w, s, t, k, response, replayed, now);
      assert ReportCommitted(s.server, s.queue.jobs[k].report.value.request, response);
    case _ => OtherStepsRemoveNothing(w, s, t, step);
  }

  lemma UnstartedHasNoFailures(w: World, s: Sys, key: string)
    requires Inv(w, s) && key in s.queue.jobs && s.queue.jobs[key].stage.StartPending?
    ensures s.queue.jobs[key].failures.None?
  {
    hide Inv, StageOk, FilesOk, JobMatches, LiveClean;
    RowsOk(w, s, key);
    RowParts(w, s, key, s.queue.jobs[key]);
  }

  // ---- processed files ----

  /** What a completed job adds to the processed files: fingerprints of its own files that were parsed without an error,
      under its own task and key, after the report was committed. */
  lemma ProcessedAfterCleanParse(w: World, s: Sys, t: Sys, key: string, response: Response, replayed: bool, now: int,
                                 p: ProcessedRow)
    requires Inv(w, s) && Complete(s, t, key, response, replayed, now) && p in t.queue.processed
    requires p !in s.queue.processed
    ensures p.executionKey == key && p.taskId == s.queue.jobs[key].task.id && ReportDelivered(s, s.queue.jobs[key])
    ensures exists i :: 0 <= i < |s.queue.jobs[key].files| && s.queue.jobs[key].files[i].fingerprint == p.fingerprint
                        && CleanParse(w.parse(s.queue.jobs[key].files[i].archivePath))
  {
    hide Inv, RowOk, JobOk, StageOk, ProgressOk, FilesOk, JobRunOk, FilesBound, ReportFits, ReportTrue, AddProcessed,
      TrimProcessed, ReportCommitted;
    CompleteKeeps(w, s, t, key, response, replayed, now);
    RowsOk(w, s, key);
    var job := s.queue.jobs[key];
    RowParts(w, s, key, job);
    var added := AddProcessed(s.queue.processed, job.task.id, key, now, job.files);
    AddedRows(s.queue.processed, job.task.id, key, now, job.files);
    TrimmedRows(added, job.task.id, s.queue.processedCapacity, |added|);
    assert p in added;
    var i :| 0 <= i < |job.files| && job.files[i].fingerprint == p.fingerprint && job.files[i].parsedClean;
    assert CleanParse(w.parse(job.files[i].archivePath));
  }

  /** Planning from a directory never selects a file that is processed or that a pending job has, and stays within the
      limit of the run. */
  lemma DirectoryTakesFreeFiles(w: World, s: Sys, t: Sys, key: string, limit: nat, items: seq<Listing>, i: nat)
    requires PlanDirectory(w, s, t, key, limit, items) && i < |t.queue.jobs[key].files|
    ensures !Occupied(s.queue, s.queue.jobs[key].task.id, t.queue.jobs[key].files[i].fingerprint)
    ensures |t.queue.jobs[key].files| + |PersistedFailures(t.queue.jobs[key])| <= limit
  {
    hide Occupied, DirectoryDraft, Distinct, PlanAccepted, WellFormedDraft, PathsFrom;
    DirectoryDraftSound(s.queue, SiteOf(w.workDir, s.queue.jobs[key]), limit, items, |items|);
    var d := DirectoryDraft(s.queue, SiteOf(w.workDir, s.queue.jobs[key]), limit, items, |items|).value;
    assert t.queue.jobs[key].files == d.plan && PersistedFailures(t.queue.jobs[key]) == d.failures;
  }

  ghost predicate WithinCapacity(q: Queue) { forall taskId :: CountTask(q.processed, taskId) <= q.processedCapacity }

  lemma OtherStepsProcessNothing(w: World, s: Sys, t: Sys, step: Step)
    requires Takes(w, s, step, t) && !step.CompleteStep?
    ensures t.queue.processed == s.queue.processed && t.queue.processedCapacity == s.queue.processedCapacity
  {
    hide Calendar.IsRfc3339Utc, Handled, FreshDraw, ControlPlane.RequestManualRun, ControlPlane.RequestRetryRun,
      SetTaskEnabled, ManifestKeyTaken, ReportKeyTaken, JobTally, DirectoryDraft, TargetDraft, Distinct, PlanAccepted,
      HasOrdinal, BindRawFiles, Amended;
  }

  /** In every reachable state the processed files of every task are within the capacity. */
  lemma {:induction false} CapacityHolds(w: World, trace: seq<Sys>, i: nat)
    requires Behaviour(w, trace) && i < |trace|
    ensures WithinCapacity(trace[i].queue)
  {
    hide Next, WithinCapacity;
    if i == 0 {
      NothingProcessedYet(trace[0].queue);
    } else {
      CapacityHolds(w, trace, i - 1);
      assert Next(w, trace[i - 1], trace[i - 1 + 1]);
      StepKeepsCapacity(w, trace[i - 1], trace[i]);
    }
  }

  lemma NothingProcessedYet(q: Queue)
    requires q.processed == []
    ensures WithinCapacity(q)
  {
  }

  lemma StepKeepsCapacity(w: World, s: Sys, t: Sys)
    requires Next(w, s, t) && WithinCapacity(s.queue)
    ensures WithinCapacity(t.queue)
  {
    hide BeginScheduled, BeginManual, Poll, PlanDirectory, PlanTargets, PassStart, PassSkip, PassArchived, PassFailed,
      PassConflict, Protocol.SaveManifest, Protocol.SaveReport, FailCollection, Resume, Send, CallFails,
      Protocol.AcceptStart, BindManifest, Oversized, RetryAttention, Crash, Handle, SetEnabled, RequestManual,
      RequestRetry, Discard, CompleteJob, CountTask;
    var step :| Takes(w, s, step, t);
    if step.CompleteStep? {
      CompletionKeepsCapacity(s.queue, step.key, step.now);
    } else {
      OtherStepsProcessNothing(w, s, t, step);
    }
  }

  lemma CompletionKeepsCapacity(q: Queue, key: string, now: int)
    requires CompleteJob(q, key, now).Some? && WithinCapacity(q)
    ensures WithinCapacity(CompleteJob(q, key, now).value)
  {
    hide CountTask, AddProcessed, TrimProcessed;
    forall taskId ensures CountTask(CompleteJob(q, key, now).value.processed, taskId) <= q.processedCapacity {
      CompletionBounds(q, key, now, taskId);
    }
  }
}
