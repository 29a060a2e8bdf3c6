/** What every saved report says, in every state of every run: all that its files gave, whatever came between. */
module ReportHistory {
  import opened Messages
  import opened QueueModel
  import opened Planning
  import opened PlanAccounts
  import opened Reporting
  import opened ReportContents
  import opened Completion
  import opened ControlPlane
  import opened ServerInvariant
  import opened JobInvariant
  import opened Protocol
  import opened ProtocolInvariant
  import opened AgentSteps
  import opened PassSteps
  import JobHistory
  import opened ProtocolSafety
  import opened ProtocolTheorems

  // ---- nothing about a reported job changes ----

  predicate SameReported(a: JobRow, b: JobRow) {
    && a.report.Some? && b.report.Some? && b.report.value.request == a.report.value.request
    && b.files == a.files && b.failures == a.failures && b.task == a.task && b.runId == a.runId
  }

  /** Every reported job was reported before, just so. */
  ghost predicate Settled(a: map<string, JobRow>, b: map<string, JobRow>) {
    forall key :: key in b && b[key].report.Some? ==> key in a && SameReported(a[key], b[key])
  }

  lemma OneJobSettles(a: map<string, JobRow>, key: string, job: JobRow)
    requires job.report.None? || (key in a && SameReported(a[key], job))
    ensures Settled(a, a[key := job])
  {
  }

  lemma FewerSettle(a: map<string, JobRow>, key: string)
    ensures Settled(a, a) && Settled(a, a - {key})
  {
  }

  /** A job that was neither archived nor acknowledged completely has no report. */
  lemma NotReportedYet(w: World, s: Sys, key: string)
    requires Inv(w, s) && key in s.queue.jobs
    requires var stage := s.queue.jobs[key].stage; stage.StartPending? || stage.Collecting? || stage.ManifestPending?
    ensures s.queue.jobs[key].report.None?
  {
    hide Inv, StageOk, FilesOk, JobMatches, LiveClean;
    RowsOk(w, s, key);
    RowParts(w, s, key, s.queue.jobs[key]);
  }

  lemma BeginSettles(w: World, s: Sys, step: Step, t: Sys)
    requires Takes(w, s, step, t) && (step.BeginScheduledStep? || step.BeginManualStep?)
    ensures Settled(s.queue.jobs, t.queue.jobs)
  {
    hide Calendar.IsRfc3339Utc, ScheduledExecutionKey, Settled;
    FewerSettle(s.queue.jobs, "");
    match step
    case BeginScheduledStep(task, slot, startedAt) =>
      var key := ScheduledExecutionKey(task.node, task.id, slot);
      if t.queue != s.queue {
        OneJobSettles(s.queue.jobs, key, t.queue.jobs[key]);
      }
    case BeginManualStep(c, _) =>
      if t.queue != s.queue {
        OneJobSettles(s.queue.jobs, c.key, t.queue.jobs[c.key]);
      }
  }

  lemma DraftSettles(w: World, s: Sys, t: Sys, key: string, draft: Option<Draft>)
    requires Inv(w, s) && NeedsPlan(s, key) && SavesDraft(s, t, key, draft)
    ensures Settled(s.queue.jobs, t.queue.jobs)
  {
    hide Inv, PlanAccepted, Settled;
    NotReportedYet(w, s, key);
    OneJobSettles(s.queue.jobs, key, t.queue.jobs[key]);
  }

  lemma PassSettles(w: World, s: Sys, step: Step, t: Sys)
    requires Inv(w, s) && Takes(w, s, step, t) && (step.PassArchivedStep? || step.PassFailedStep? || step.SaveManifestStep?)
    ensures Settled(s.queue.jobs, t.queue.jobs)
  {
    hide Inv, HasOrdinal, ManifestKeyTaken, Settled, ArchiveFailure;
    WorkerParts(w, s);
    var key := s.worker.key;
    NotReportedYet(w, s, key);
    OneJobSettles(s.queue.jobs, key, t.queue.jobs[key]);
  }

  lemma AttentionSettles(s: Sys, t: Sys, key: string, errorKind: string)
    requires MarkRequiresAttention(s.queue, key, errorKind).Some?
    requires t.queue == MarkRequiresAttention(s.queue, key, errorKind).value
    ensures Settled(s.queue.jobs, t.queue.jobs)
  {
    hide Settled;
    OneJobSettles(s.queue.jobs, key, t.queue.jobs[key]);
  }

  lemma SideSettles(s: Sys, t: Sys, key: string)
    requires Resume(s, t, key) || RetryAttention(s, t, key)
    ensures Settled(s.queue.jobs, t.queue.jobs)
  {
    hide Settled;
    OneJobSettles(s.queue.jobs, key, t.queue.jobs[key]);
  }

  lemma CallFailsSettles(s: Sys, t: Sys, retryable: bool, errorKind: string)
    requires CallFails(s, t, retryable, errorKind)
    ensures Settled(s.queue.jobs, t.queue.jobs)
  {
    hide Settled;
    OneJobSettles(s.queue.jobs, s.worker.key, t.queue.jobs[s.worker.key]);
  }

  lemma StartSettles(w: World, s: Sys, t: Sys, key: string, answer: StartAnswer)
    requires Inv(w, s) && Protocol.AcceptStart(s, t, key, answer)
    ensures Settled(s.queue.jobs, t.queue.jobs)
  {
    hide Inv, Settled;
    NotReportedYet(w, s, key);
    OneJobSettles(s.queue.jobs, key, t.queue.jobs[key]);
  }

  lemma BindSettles(w: World, s: Sys, t: Sys, key: string, ids: seq<string>, replayed: bool)
    requires Inv(w, s) && BindManifest(s, t, key, ids, replayed)
    ensures Settled(s.queue.jobs, t.queue.jobs)
  {
    hide Inv, Settled, BindRawFiles, Recorded, ReportCommitted, StartReplyOk;
    WorkerParts(w, s);
    NotReportedYet(w, s, key);
    OneJobSettles(s.queue.jobs, key, t.queue.jobs[key]);
  }

  lemma PassStartSettles(w: World, s: Sys, t: Sys, key: string)
    requires Inv(w, s) && PassStart(s, t, key)
    ensures t.queue == s.queue
  {
    hide Inv, PassStart;
    PassStartKeeps(w, s, t, key);
  }

  /** Only the two steps that save a report add one; and no step touches a job that has one, but to take it away. */
  lemma StepSettles(w: World, s: Sys, step: Step, t: Sys)
    requires Inv(w, s) && Takes(w, s, step, t) && !step.SaveReportStep? && !step.FailCollectionStep?
    ensures Settled(s.queue.jobs, t.queue.jobs)
  {
    hide Inv, Settled, BeginScheduled, BeginManual, SavesDraft, DirectoryDraft, TargetDraft, Distinct, PassStart, PassArchived,
      PassFailed, Protocol.SaveManifest, QueueModel.MarkRequiresAttention, Resume, CallFails, Protocol.AcceptStart, BindManifest,
      RetryAttention, AddProcessed, TrimProcessed, Handled, FreshDraw, ControlPlane.RequestManualRun,
      ControlPlane.RequestRetryRun, SetTaskEnabled;
    FewerSettle(s.queue.jobs, "");
    match step
    case BeginScheduledStep(_, _, _) => BeginSettles(w, s, step, t);
    case BeginManualStep(_, _) => BeginSettles(w, s, step, t);
    case PlanDirectoryStep(key, limit, items) =>
      DraftSettles(w, s, t, key, DirectoryDraft(s.queue, SiteOf(w.workDir, s.queue.jobs[key]), limit, items, |items|));
    case PlanTargetsStep(key, checks) =>
      var job := s.queue.jobs[key];
      DraftSettles(w, s, t, key, TargetDraft(s.queue, SiteOf(w.workDir, job), job.retryFiles, checks, |checks|));
    case PassStartStep(key) => PassStartSettles(w, s, t, key);
    case PassArchivedStep => PassSettles(w, s, step, t);
    case PassFailedStep(_) => PassSettles(w, s, step, t);
    case PassConflictStep => AttentionSettles(s, t, s.worker.key, "archive_conflict");
    case SaveManifestStep => PassSettles(w, s, step, t);
    case ResumeStep(key) => SideSettles(s, t, key);
    case RetryAttentionStep(key) => SideSettles(s, t, key);
    case CallFailsStep(retryable, errorKind) => CallFailsSettles(s, t, retryable, errorKind);
    case AcceptStartStep(key, answer) => StartSettles(w, s, t, key, answer);
    case BindManifestStep(key, ids, replayed) => BindSettles(w, s, t, key, ids, replayed);
    case OversizedStep(key) => AttentionSettles(s, t, key, "payload_too_large");
    case DiscardStep(key, _) => FewerSettle(s.queue.jobs, key);
    case CompleteStep(key, _, _, _) => FewerSettle(s.queue.jobs, key);
    case _ =>
  }

  // ---- what a saved report says ----

  /** The files are marked clean exactly as they parsed. */
  ghost predicate MarksClean(job: JobRow, parse: string -> ParseOutcome) {
    forall i :: 0 <= i < |job.files| ==>
      (job.files[i].parsedClean <==> Parsable(job.files[i]) && !FailsParsing(job.files[i], parse))
  }

  /** The report says all that the files gave when some archives could not be read. */
  ghost predicate BuiltFrom(w: World, job: JobRow, r: ReportRequest, unreadable: map<string, string>) {
    && MarksClean(job, Reading(w, unreadable))
    && exists texts :: TellsAll(job, Reading(w, unreadable), w.check, r, texts)
  }

  /** The report of a run whose collection failed as a whole: one failure, and the list that was persisted. */
  ghost predicate CollectionFailed(job: JobRow, r: ReportRequest) {
    && r.runId == job.runId && r.node == job.task.node && r.key == ReportKey(job.task.node, job.runId)
    && r.status.Failed? && r.records == [] && r.total == 1 && r.success == 0 && r.failed == 1
    && r.failedFiles == Some(PersistedFailures(job))
    && forall i :: 0 <= i < |job.files| ==> !job.files[i].parsedClean
  }

  ghost predicate ReportSaysAll(w: World, job: JobRow) {
    job.report.Some? ==>
      var r := job.report.value.request;
      CollectionFailed(job, r) || exists unreadable :: BuiltFrom(w, job, r, unreadable)
  }

  ghost predicate ReportsSayAll(w: World, jobs: map<string, JobRow>) {
    forall key :: key in jobs ==> ReportSaysAll(w, jobs[key])
  }

  /** What is said depends on nothing that saving the report changes. */
  lemma {:induction false} SameTally(a: seq<FileRow>, b: seq<FileRow>, failures: seq<FailedFile>, parse: string -> ParseOutcome,
                                     rules: seq<QcRule>, check: (QcRule, ParsedRecord) -> QcResult, n: nat)
    requires n <= |a| == |b| && forall i :: 0 <= i < |a| ==> b[i] == a[i].(parsedClean := b[i].parsedClean)
    ensures TallyFiles(b, failures, parse, rules, check, n) == TallyFiles(a, failures, parse, rules, check, n)
  {
    hide RecordsWithQc, ErrorTexts;
    if n > 0 {
      SameTally(a, b, failures, parse, rules, check, n - 1);
    }
  }

  lemma SavedSaysAll(w: World, job: JobRow, saved: JobRow, unreadable: map<string, string>, finishedAt: string)
    requires var t := JobTally(job, Reading(w, unreadable), w.check);
             && |t.clean| == |job.files| && (forall i :: 0 <= i < |job.files| ==> job.files[i].ordinal == i)
             && saved.report.Some? && saved.report.value.request == ReportOf(job, t, finishedAt)
             && saved.files == WithOutcomes(job.files, t.clean)
             && saved.failures == job.failures && saved.task == job.task && saved.runId == job.runId
    ensures ReportSaysAll(w, saved)
  {
    hide TellsAll, TallyFiles, SummaryText;
    var parse := Reading(w, unreadable);
    var t := JobTally(job, parse, w.check);
    assert forall i :: 0 <= i < |job.files| ==> saved.files[i] == job.files[i].(parsedClean := t.clean[i]);
    SameTally(job.files, saved.files, PersistedFailures(job), parse, job.task.qcRules, w.check, |job.files|);
    assert JobTally(saved, parse, w.check) == t && ReportOf(saved, t, finishedAt) == ReportOf(job, t, finishedAt);
    BuiltReportTellsAll(saved, parse, w.check, finishedAt);
    assert BuiltFrom(w, saved, saved.report.value.request, unreadable);
  }

  lemma OrdinalsOf(w: World, s: Sys, key: string)
    requires Inv(w, s) && key in s.queue.jobs
    ensures forall i :: 0 <= i < |s.queue.jobs[key].files| ==> s.queue.jobs[key].files[i].ordinal == i
  {
    hide Inv, JobMatches, StageOk, ProgressOk, FilesOk, LiveClean;
    RowsOk(w, s, key);
    RowParts(w, s, key, s.queue.jobs[key]);
    OrdinalsAreIndices(w.workDir, s.queue.jobs[key]);
  }

  lemma SaveReportSays(w: World, s: Sys, t: Sys, key: string, unreadable: map<string, string>, finishedAt: string)
    requires Inv(w, s) && ReportsSayAll(w, s.queue.jobs) && Protocol.SaveReport(w, s, t, key, unreadable, finishedAt)
    ensures ReportsSayAll(w, t.queue.jobs)
  {
    hide Inv, ReportSaysAll, JobTally, ReportKeyTaken, WithOutcomes, ReadyToReport;
    assert key in s.queue.jobs by { ReadyHasJob(s, key); }
    OrdinalsOf(w, s, key);
    SavedSaysAll(w, s.queue.jobs[key], t.queue.jobs[key], unreadable, finishedAt);
  }

  lemma ReadyHasJob(s: Sys, key: string)
    requires ReadyToReport(s, key)
    ensures key in s.queue.jobs
  {
  }

  lemma NoneMarked(files: seq<FileRow>)
    requires forall i :: 0 <= i < |files| ==> files[i].ordinal == i
    ensures var marked := WithOutcomes(files, seq(|files|, _ => false));
            forall i :: 0 <= i < |marked| ==> !marked[i].parsedClean
  {
  }

  lemma FailCollectionSays(w: World, s: Sys, t: Sys, key: string, error: string, finishedAt: string)
    requires Inv(w, s) && ReportsSayAll(w, s.queue.jobs) && FailCollection(s, t, key, error, finishedAt)
    ensures ReportsSayAll(w, t.queue.jobs)
  {
    hide Inv, ReportKeyTaken, WithOutcomes, BuiltFrom;
    OrdinalsOf(w, s, key);
    NoneMarked(s.queue.jobs[key].files);
    assert CollectionFailed(t.queue.jobs[key], t.queue.jobs[key].report.value.request);
    forall k | k in t.queue.jobs ensures ReportSaysAll(w, t.queue.jobs[k]) {
      assert k != key ==> ReportSaysAll(w, s.queue.jobs[k]);
    }
  }

  lemma SettledSays(w: World, a: map<string, JobRow>, b: map<string, JobRow>)
    requires Settled(a, b) && ReportsSayAll(w, a)
    ensures ReportsSayAll(w, b)
  {
    hide TellsAll, MarksClean;
    forall key | key in b ensures ReportSaysAll(w, b[key]) {
      if b[key].report.Some? {
        SameSays(w, a[key], b[key]);
      }
    }
  }

  lemma SameSays(w: World, a: JobRow, b: JobRow)
    requires SameReported(a, b) && ReportSaysAll(w, a)
    ensures ReportSaysAll(w, b)
  {
    hide ListsRecords, ListsErrors, ListsFailures;
    var r := a.report.value.request;
    if unreadable :| BuiltFrom(w, a, r, unreadable) {
      var texts :| TellsAll(a, Reading(w, unreadable), w.check, r, texts);
      assert TellsAll(b, Reading(w, unreadable), w.check, r, texts);
      assert BuiltFrom(w, b, r, unreadable);
    }
  }

  lemma NextSays(w: World, s: Sys, t: Sys)
    requires Inv(w, s) && Next(w, s, t) && ReportsSayAll(w, s.queue.jobs)
    ensures ReportsSayAll(w, t.queue.jobs)
  {
    hide Inv, ReportsSayAll, Settled, BeginScheduled, BeginManual, Poll, PlanDirectory, PlanTargets, PassStart, PassSkip,
      PassArchived, PassFailed, PassConflict, Protocol.SaveManifest, Protocol.SaveReport, FailCollection, Resume, Send, CallFails,
      Discard, Protocol.AcceptStart, BindManifest, Complete, Oversized, RetryAttention, Crash, Handle, SetEnabled, RequestManual,
      RequestRetry;
    var step :| Takes(w, s, step, t);
    match step
    case SaveReportStep(key, unreadable, finishedAt) => SaveReportSays(w, s, t, key, unreadable, finishedAt);
    case FailCollectionStep(key, error, finishedAt) => FailCollectionSays(w, s, t, key, error, finishedAt);
    case _ =>
      StepSettles(w, s, step, t);
      SettledSays(w, s.queue.jobs, t.queue.jobs);
  }

  lemma {:induction false} TraceSays(w: World, trace: seq<Sys>, i: nat)
    requires GoodWorld(w) && Behaviour(w, trace) && i < |trace|
    ensures ReportsSayAll(w, trace[i].queue.jobs)
  {
    hide GoodWorld, Next, Inv, ReportSaysAll;
    if i > 0 {
      TraceSays(w, trace, i - 1);
      InvariantHolds(w, trace, i - 1);
      assert Next(w, trace[i - 1], trace[i - 1 + 1]);
      NextSays(w, trace[i - 1], trace[i]);
    }
  }

  /** In every reachable state a saved report says all that the files of its job gave: every parsed record once, in order, with
      every check of it; every error; every failed file; and their numbers. Only the report of a run whose collection failed
      as a whole says no more than the list that was persisted. */
  lemma SavedReportSaysAll(w: World, s: Sys, key: string)
    requires Reachable(w, s) && key in s.queue.jobs
    ensures ReportSaysAll(w, s.queue.jobs[key])
  {
    hide GoodWorld, Behaviour, ReportSaysAll;
    var trace, i: nat :| i < |trace| && Behaviour(w, trace) && trace[i] == s;
    TraceSays(w, trace, i);
  }

  /** And whatever was in the persisted list is in the report, which has then failed. */
  lemma PersistedIsReported(w: World, s: Sys, key: string, f: FailedFile)
    requires Reachable(w, s) && key in s.queue.jobs && s.queue.jobs[key].report.Some?
    requires f in PersistedFailures(s.queue.jobs[key])
    ensures var r := s.queue.jobs[key].report.value.request;
            r.status.Failed? && r.failedFiles.Some? && f in r.failedFiles.value
  {
    hide Reachable, ListsRecords, ListsErrors, MarksClean;
    SavedReportSaysAll(w, s, key);
    var job := s.queue.jobs[key];
    var r := job.report.value.request;
    if !CollectionFailed(job, r) {
      var unreadable :| BuiltFrom(w, job, r, unreadable);
      var texts :| TellsAll(job, Reading(w, unreadable), w.check, r, texts);
      var i :| 0 <= i < |PersistedFailures(job)| && PersistedFailures(job)[i] == f;
      assert r.failedFiles.value[i] == f;
    }
  }

  // ---- clean files ----

  /** When the job leaves the queue, each file that its report counts as clean is occupied, if it was not processed before, the
      capacity has room for the job, and the clock has not gone back behind rows of the task: no listing takes it again. */
  lemma CleanFileIsOccupied(w: World, s: Sys, t: Sys, key: string, response: Response, replayed: bool, now: int, k: nat,
                            item: Listing)
    requires Complete(s, t, key, response, replayed, now) && k < |s.queue.jobs[key].files|
    requires s.queue.jobs[key].files[k].parsedClean && |s.queue.jobs[key].files| <= s.queue.processedCapacity
    requires LaterRows(s.queue.processed, s.queue.jobs[key].task.id, now) == {}
    requires !ProcessedKnown(s.queue.processed, s.queue.jobs[key].task.id, s.queue.jobs[key].files[k].fingerprint)
    ensures Occupied(t.queue, s.queue.jobs[key].task.id, s.queue.jobs[key].files[k].fingerprint)
    ensures item.inspection.Readable?
            && TaskFingerprint(s.queue.jobs[key].task.id, item.localPath, item.inspection.metadata)
               == s.queue.jobs[key].files[k].fingerprint
            ==> !IsFree(t.queue, s.queue.jobs[key].task.id, item)
  {
    hide ProcessedKnown, AddProcessed, TrimProcessed, LaterRows, TaskFingerprint, InFlight;
    CleanFilesStay(s.queue, key, now, k);
  }

  // ---- failures ----

  /** Whatever is in the persisted list of a job stays there for as long as the job is in the queue, once; and it is in its
      report, which has then failed. */
  lemma ListedIsReported(w: World, trace: seq<Sys>, i: nat, j: nat, key: string, f: FailedFile)
    requires GoodWorld(w) && Behaviour(w, trace) && i <= j < |trace| && forall m :: i <= m <= j ==> key in trace[m].queue.jobs
    requires f in PersistedFailures(trace[i].queue.jobs[key])
    ensures var job := trace[j].queue.jobs[key];
            && f in PersistedFailures(job) && UniquePaths(PersistedFailures(job))
            && (job.report.Some? ==>
                  job.report.value.request.status.Failed? && job.report.value.request.failedFiles.Some?
                  && f in job.report.value.request.failedFiles.value)
  {
    hide GoodWorld, Behaviour, ReportTrue;
    JobHistory.HistoryAdvances(w, trace, i, j, key);
    ListGrows(trace[i].queue.jobs[key], trace[j].queue.jobs[key]);
    assert Reachable(w, trace[j]);
    NoFailureIsLost(w, trace[j], key);
    if trace[j].queue.jobs[key].report.Some? {
      PersistedIsReported(w, trace[j], key, f);
    }
  }

  lemma ListGrows(a: JobRow, b: JobRow)
    requires JobHistory.Advances(a, b)
    ensures forall f :: f in PersistedFailures(a) ==> f in PersistedFailures(b)
  {
  }

  /** A file that a listing shows as unreadable, and that the draft reaches, is listed when the draft is saved, with its
      message; from then on ListedIsReported holds of it. */
  lemma UnreadableIsListed(w: World, s: Sys, t: Sys, key: string, limit: nat, items: seq<Listing>, c: nat, k: nat)
    requires PlanDirectory(w, s, t, key, limit, items)
    requires Reaches(s.queue, s.queue.jobs[key].task.id, limit, items, |items|, c)
    requires k < c <= |items| && items[k].inspection.Unreadable?
    ensures key in t.queue.jobs
    ensures FailedFile(items[k].localPath, items[k].originalName, "read", items[k].inspection.message, "")
            in PersistedFailures(t.queue.jobs[key])
  {
    hide PlanAccepted, Distinct, DirectoryDraft, IsFree, Reaches, PlansListing;
    var site := SiteOf(w.workDir, s.queue.jobs[key]);
    var d := DirectoryDraft(s.queue, site, limit, items, |items|).value;
    var b := DirectoryAccounts(s.queue, site, limit, items, |items|);
    SameReach(s.queue, site.taskId, limit, items, |items|, b, c);
    assert ListsUnreadable(d, UnreadableAmong(items, k), items[k]);
    assert PersistedFailures(t.queue.jobs[key]) == d.failures;
  }

  /** So is a retry target that is not read. */
  lemma MissedTargetIsListed(w: World, s: Sys, t: Sys, key: string, checks: seq<TargetCheck>, k: nat) returns (f: FailedFile)
    requires PlanTargets(w, s, t, key, checks) && k < |checks|
    requires !IsRead(s.queue, s.queue.jobs[key].task.id, s.queue.jobs[key].retryFiles[k], checks[k])
    ensures key in t.queue.jobs && f in PersistedFailures(t.queue.jobs[key])
    ensures MissesTarget(f, s.queue.jobs[key].retryFiles[k], checks[k])
  {
    hide PlanAccepted, TargetDraft, IsRead, MissesTarget, ReadAt;
    var job := s.queue.jobs[key];
    var site := SiteOf(w.workDir, job);
    var d := TargetDraft(s.queue, site, job.retryFiles, checks, |checks|).value;
    TargetAccounts(s.queue, site, job.retryFiles, checks, |checks|);
    var at := k - ReadCount(s.queue, site.taskId, job.retryFiles, checks, k);
    assert MissedAt(d, at, job.retryFiles[k], checks[k]);
    assert PersistedFailures(t.queue.jobs[key]) == d.failures;
    f := d.failures[at];
  }

  /** And so is a file that fails to be archived: marked and listed with one message, and with the archive it is a replay of. */
  lemma ArchiveFailureIsListed(w: World, s: Sys, t: Sys, message: string) returns (f: FailedFile)
    requires Inv(w, s) && PassFailed(s, t, message)
    ensures s.worker.key in t.queue.jobs && |t.queue.jobs[s.worker.key].files| == |s.queue.jobs[s.worker.key].files|
    ensures f in PersistedFailures(t.queue.jobs[s.worker.key])
    ensures var job := s.queue.jobs[s.worker.key];
            var file := job.files[s.worker.next];
            && f.sourcePath == file.sourcePath && f.originalName == file.originalName && f.stage == "archive"
            && f.message == message
            && Inherits(job.retryFiles, file.sourcePath, f.archiveRef)
            && forall i :: 0 <= i < |job.files| ==>
                 t.queue.jobs[s.worker.key].files[i]
                 == if i == s.worker.next then file.(errorDetail := message) else job.files[i]
  {
    hide Inv, HasOrdinal, InheritedReference, Inherits;
    var job := s.queue.jobs[s.worker.key];
    OrdinalsOf(w, s, s.worker.key);
    InheritedIs(job.retryFiles, job.files[s.worker.next].sourcePath);
    f := ArchiveFailure(job, s.worker.next, message);
    assert PersistedFailures(t.queue.jobs[s.worker.key]) == s.worker.failures + [f];
  }

  // ---- manifests ----

  /** In every reachable state a saved manifest is that of its run, and lists exactly the files without an error, all of them
      archived, with what was read of each. */
  lemma SavedManifestListsAll(w: World, s: Sys, key: string)
    requires Reachable(w, s) && key in s.queue.jobs && s.queue.jobs[key].manifest.Some?
    ensures var job := s.queue.jobs[key];
            var m := job.manifest.value.request;
            && m.runId == job.runId && m.node == s.queue.node && ListsArchived(m.files, job.files, |job.files|)
            && forall i :: 0 <= i < |job.files| && job.files[i].errorDetail == "" ==> job.files[i].archived
  {
    hide Reachable, Inv, StageOk, ProgressOk, RawFilesBound, ReferencesOk, FilesOk, JobMatches, LiveClean, ListsArchived;
    ReachableInv(w, s);
    RowsOk(w, s, key);
    EntriesListArchived(s.queue.jobs[key].files, |s.queue.jobs[key].files|);
  }
}
