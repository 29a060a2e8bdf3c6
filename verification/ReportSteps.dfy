/** Every report the executor can save passes the checks of the control plane, tells the truth, and is backed by
    evidence. */
module ReportSteps {
  import opened Messages
  import opened QueueModel
  import opened Planning
  import opened Reporting
  import opened ControlPlane
  import opened ServerInvariant
  import opened JobInvariant
  import opened Protocol
  import opened ProtocolInvariant
  import opened AgentSteps

  // ---- the failure list ----

  lemma TargetFound(targets: seq<RetryFile>, i: nat)
    requires i < |targets| && TargetsDistinct(targets)
    ensures FindTarget(targets, targets[i].sourcePath) == Some(targets[i])
  {
    var found := FindTarget(targets, targets[i].sourcePath);
    assert HasTarget(targets, targets[i].sourcePath);
    var k :| 0 <= k < |targets| && targets[k] == found.value;
  }

  lemma PersistedFailureAllowed(rawFiles: map<string, RawFileRow>, job: JobRow, f: FailedFile)
    requires ReferencesOk(job) && TargetsReferenced(job.retryFiles) && TargetsDistinct(job.retryFiles)
    requires f in PersistedFailures(job)
    ensures FailedFileAllowed(rawFiles, job.runId, TargetsOption(job.retryFiles), f)
  {
    if job.retryFiles != [] {
      assert KeepsReference(job.retryFiles, f);
      var i :| 0 <= i < |job.retryFiles| && job.retryFiles[i].sourcePath == f.sourcePath
               && f.archiveRef == KeptReference(job.retryFiles[i]);
      TargetFound(job.retryFiles, i);
    }
  }

  lemma ParseFailureAllowed(rawFiles: map<string, RawFileRow>, job: JobRow, f: FailedFile)
    requires ReferencesOk(job) && FilesBound(rawFiles, job.runId, job.files)
    requires ParseFailureOf(job.files, |job.files|, f)
    ensures FailedFileAllowed(rawFiles, job.runId, TargetsOption(job.retryFiles), f)
  {
    var k :| 0 <= k < |job.files| && Parsable(job.files[k]) && f.sourcePath == job.files[k].sourcePath
             && f.archiveRef == job.files[k].rawFileId && f.originalName == job.files[k].originalName && f.stage == "parse";
  }

  lemma TallyListUnique(w: World, job: JobRow, parse: string -> ParseOutcome)
    requires FilesOk(w.workDir, job)
    ensures UniquePaths(JobTally(job, parse, w.check).failures)
  {
    forall i, j | 0 <= i < |job.files| && 0 <= j < |PersistedFailures(job)| && Parsable(job.files[i])
      ensures job.files[i].sourcePath != PersistedFailures(job)[j].sourcePath
    {
      assert !ListedPath(PersistedFailures(job), job.files[i].sourcePath);
    }
    TallyPathsUnique(job.files, PersistedFailures(job), parse, job.task.qcRules, w.check, |job.files|);
  }

  /** The failure list of any report built from the job is one the control plane accepts for the fixed retry snapshot. */
  lemma BuiltListValid(w: World, job: JobRow, rawFiles: map<string, RawFileRow>, parse: string -> ParseOutcome,
                       finishedAt: string)
    requires FilesOk(w.workDir, job) && ReferencesOk(job) && FilesBound(rawFiles, job.runId, job.files)
    requires TargetsReferenced(job.retryFiles) && TargetsDistinct(job.retryFiles)
    ensures var r := ReportOf(job, JobTally(job, parse, w.check), finishedAt);
            FailedFilesValid(rawFiles, job.runId, TargetsOption(job.retryFiles), r.status, r.failedFiles.value)
  {
    var t := JobTally(job, parse, w.check);
    TallyListUnique(w, job, parse);
    TallyFailures(job.files, PersistedFailures(job), parse, job.task.qcRules, w.check, |job.files|);
    hide FilesOk, ReferencesOk, FilesBound, JobTally, FailedFileAllowed, TargetsReferenced, TargetsDistinct;
    forall i | 0 <= i < |t.failures| ensures FailedFileAllowed(rawFiles, job.runId, TargetsOption(job.retryFiles), t.failures[i]) {
      if i < |PersistedFailures(job)| {
        assert t.failures[i] == PersistedFailures(job)[i];
        PersistedFailureAllowed(rawFiles, job, t.failures[i]);
      } else {
        ParseFailureAllowed(rawFiles, job, t.failures[i]);
      }
    }
  }

  lemma CollectionListValid(w: World, job: JobRow, rawFiles: map<string, RawFileRow>)
    requires FilesOk(w.workDir, job) && ReferencesOk(job)
    requires TargetsReferenced(job.retryFiles) && TargetsDistinct(job.retryFiles)
    ensures FailedFilesValid(rawFiles, job.runId, TargetsOption(job.retryFiles), Failed, PersistedFailures(job))
  {
    forall i | 0 <= i < |PersistedFailures(job)|
      ensures FailedFileAllowed(rawFiles, job.runId, TargetsOption(job.retryFiles), PersistedFailures(job)[i])
    {
      PersistedFailureAllowed(rawFiles, job, PersistedFailures(job)[i]);
    }
  }

  // ---- the records ----

  lemma BuiltRecordFits(w: World, job: JobRow, rawFiles: map<string, RawFileRow>, unreadable: map<string, string>,
                        r: ReportRecord)
    requires GoodWorld(w) && FilesBound(rawFiles, job.runId, job.files)
    requires FromArchive(job.files, Reading(w, unreadable), |job.files|, r)
    ensures RecordStorable(rawFiles, job.runId, r) && Evidence(w, rawFiles, r.rawFileId, r.record)
  {
    var parse := Reading(w, unreadable);
    var k :| 0 <= k < |job.files| && Parsable(job.files[k]) && r.rawFileId == job.files[k].rawFileId
             && parse(job.files[k].archivePath).Parsed? && r.record in parse(job.files[k].archivePath).records;
    assert parse(job.files[k].archivePath) == w.parse(job.files[k].archivePath);
  }

  lemma BuiltRecordsFit(w: World, job: JobRow, rawFiles: map<string, RawFileRow>, unreadable: map<string, string>)
    requires GoodWorld(w) && FilesBound(rawFiles, job.runId, job.files)
    ensures var records := JobTally(job, Reading(w, unreadable), w.check).records;
            forall i :: 0 <= i < |records| ==>
              RecordStorable(rawFiles, job.runId, records[i]) && Evidence(w, rawFiles, records[i].rawFileId, records[i].record)
  {
    var parse := Reading(w, unreadable);
    var records := JobTally(job, parse, w.check).records;
    TallyRecords(job.files, PersistedFailures(job), parse, job.task.qcRules, w.check, |job.files|);
    hide FromArchive, RecordStorable, Evidence, GoodWorld, FilesBound;
    forall i | 0 <= i < |records|
      ensures RecordStorable(rawFiles, job.runId, records[i])
      ensures Evidence(w, rawFiles, records[i].rawFileId, records[i].record)
    {
      BuiltRecordFits(w, job, rawFiles, unreadable, records[i]);
    }
  }

  // ---- the truth ----

  /** A file without an error has been archived and acknowledged by the time the report is built. */
  ghost predicate ReportDue(job: JobRow) {
    && job.report.None?
    && forall i :: 0 <= i < |job.files| && job.files[i].errorDetail == "" ==> job.files[i].rawFileId != "" && job.files[i].archived
  }

  lemma ListedFailures(w: World, job: JobRow)
    requires FilesOk(w.workDir, job) && ReportDue(job)
    ensures forall i :: 0 <= i < |job.files| && !Parsable(job.files[i]) ==> PersistedFailures(job) != []
  {
    forall i | 0 <= i < |job.files| && !Parsable(job.files[i]) ensures PersistedFailures(job) != [] {
      assert ListedPath(PersistedFailures(job), job.files[i].sourcePath);
    }
  }

  /** The report adds up; and it says succeeded only if every selected file was archived, acknowledged and parsed
      cleanly. */
  lemma BuiltReportTrue(w: World, job: JobRow, unreadable: map<string, string>, finishedAt: string)
    requires FilesOk(w.workDir, job) && ReportDue(job)
    ensures var t := JobTally(job, Reading(w, unreadable), w.check);
            var r := ReportOf(job, t, finishedAt);
            ReportTrue(w, WithReport(job, r, t.clean), r)
  {
    var parse := Reading(w, unreadable);
    var t := JobTally(job, parse, w.check);
    var r := ReportOf(job, t, finishedAt);
    TallyConserves(job.files, PersistedFailures(job), parse, job.task.qcRules, w.check, |job.files|);
    TallyClean(job.files, PersistedFailures(job), parse, job.task.qcRules, w.check, |job.files|);
    ListedFailures(w, job);
    SucceededMeansAllClean(job, parse, w.check, finishedAt);
    assert PersistedFailures(WithReport(job, r, t.clean)) == PersistedFailures(job);
    OutcomeOfFile(w, job, t.clean);
    if r.status.Succeeded? {
      forall i | 0 <= i < |job.files| ensures CleanFile(w, WithOutcomes(job.files, t.clean)[i]) {
        assert Parsable(job.files[i]) && CleanParse(parse(job.files[i].archivePath));
      }
    }
  }

  lemma OutcomeOfFile(w: World, job: JobRow, clean: seq<bool>)
    requires FilesOk(w.workDir, job) && |clean| == |job.files|
    ensures forall i :: 0 <= i < |job.files| ==> WithOutcomes(job.files, clean)[i] == job.files[i].(parsedClean := clean[i])
  {
  }

  lemma BuiltReportGood(w: World, server: Server, job: JobRow, unreadable: map<string, string>, finishedAt: string)
    requires GoodWorld(w) && FilesOk(w.workDir, job) && ReferencesOk(job) && ReportDue(job)
    requires FilesBound(server.rawFiles, job.runId, job.files) && TargetsReferenced(job.retryFiles)
    requires TargetsDistinct(job.retryFiles)
    requires job.runId in server.runs && server.runs[job.runId].retryFiles == TargetsOption(job.retryFiles)
    ensures var t := JobTally(job, Reading(w, unreadable), w.check);
            ReportGood(w, server, WithReport(job, ReportOf(job, t, finishedAt), t.clean))
  {
    hide FilesOk, ReferencesOk, FilesBound, TargetsReferenced, TargetsDistinct, GoodWorld, FailedFilesValid,
      RecordStorable, Evidence, ReportTrue, JobTally, WithOutcomes, TargetsOption, Reading;
    var t := JobTally(job, Reading(w, unreadable), w.check);
    BuiltListValid(w, job, server.rawFiles, Reading(w, unreadable), finishedAt);
    BuiltRecordsFit(w, job, server.rawFiles, unreadable);
    BuiltReportTrue(w, job, unreadable, finishedAt);
    CleanOutcomes(w, job, unreadable);
  }

  lemma CleanOutcomes(w: World, job: JobRow, unreadable: map<string, string>)
    requires FilesOk(w.workDir, job)
    ensures var t := JobTally(job, Reading(w, unreadable), w.check);
            forall i :: 0 <= i < |job.files| && WithOutcomes(job.files, t.clean)[i].parsedClean ==>
              CleanParse(w.parse(WithOutcomes(job.files, t.clean)[i].archivePath))
  {
    TallyClean(job.files, PersistedFailures(job), Reading(w, unreadable), job.task.qcRules, w.check, |job.files|);
    OutcomeOfFile(w, job, JobTally(job, Reading(w, unreadable), w.check).clean);
  }

  lemma CollectionReportGood(w: World, server: Server, job: JobRow, error: string, finishedAt: string)
    requires FilesOk(w.workDir, job) && ReferencesOk(job)
    requires TargetsReferenced(job.retryFiles) && TargetsDistinct(job.retryFiles)
    requires job.runId in server.runs && server.runs[job.runId].retryFiles == TargetsOption(job.retryFiles)
    ensures ReportGood(w, server, WithReport(job, CollectionFailureReport(job, error, finishedAt), NoneClean(job)))
  {
    CollectionListValid(w, job, server.rawFiles);
    OutcomeOfFile(w, job, NoneClean(job));
  }

  // ---- the steps ----

  lemma ReportClean(server: Server, net: set<Msg>, key: string, job: JobRow, r: ReportRequest, clean: seq<bool>)
    requires LiveClean(server, net, key, job) && job.report.None? && (job.stage.Collecting? || job.stage.ReportBuilding?)
    ensures LiveClean(server, net, key, WithReport(job, r, clean))
  {
    forall msg | msg in net && msg.key == key ensures Persisted(WithReport(job, r, clean), msg) {
      assert Persisted(job, msg);
    }
  }

  lemma ReportRow(w: World, s: Sys, key: string, job: JobRow, r: ReportRequest, clean: seq<bool>)
    requires RowOk(w, s, key, job) && (job.stage.Collecting? || job.stage.ReportBuilding?)
    requires r.runId == job.runId && r.node == job.task.node && r.key == ReportKey(r.node, r.runId)
    requires Terminal(r.status)
    requires ReportGood(w, s.server, WithReport(job, r, clean))
    ensures RowOk(w, s, key, WithReport(job, r, clean))
  {
    hide FilesOk, StageOk, LiveClean, JobOk, JobRunOk, ReportGood, WithOutcomes;
    RowParts(w, s, key, job);
    ReportJobOk(w.workDir, s.queue.node, key, job, r, clean);
    RunOkSame(s.queue.node, s.server, s.begun, key, job, WithReport(job, r, clean));
    OutcomesKeepBinding(s.server.rawFiles, job.runId, job.files, clean);
    if key !in s.repeated {
      ReportClean(s.server, s.net, key, job, r, clean);
    }
  }

  lemma OutcomesKeepBinding(rawFiles: map<string, RawFileRow>, runId: string, files: seq<FileRow>, clean: seq<bool>)
    requires FilesBound(rawFiles, runId, files)
    ensures FilesBound(rawFiles, runId, WithOutcomes(files, clean))
  {
  }

  lemma SavedReportKeeps(w: World, s: Sys, t: Sys, key: string, r: ReportRequest, clean: seq<bool>)
    requires Inv(w, s) && key in s.queue.jobs && SavesReport(s, t, key, r, clean)
    requires var job := s.queue.jobs[key];
             && (job.stage.Collecting? || job.stage.ReportBuilding?)
             && r.runId == job.runId && r.node == job.task.node && r.key == ReportKey(r.node, r.runId)
             && Terminal(r.status)
             && ReportGood(w, s.server, WithReport(job, r, clean))
    ensures Inv(w, t)
  {
    hide Inv, RowOk, ReportGood, OneHolder, SameInputs, ReportKeyTaken;
    HolderPart(w, s);
    RowsOk(w, s, key);
    ReportRow(w, s, key, s.queue.jobs[key], r, clean);
    OutcomesKeepInputs(s.queue.jobs[key].files, clean);
    hide WithOutcomes;
    OneHolderFrame(s.queue.jobs, t.queue.jobs, key);
    JobStepKeeps(w, s, t, key, WithReport(s.queue.jobs[key], r, clean));
  }

  /** What a row that has passed the start knows of its run. */
  lemma RunFacts(w: World, s: Sys, key: string, job: JobRow)
    requires RowOk(w, s, key, job) && job.runId != ""
    ensures FilesOk(w.workDir, job) && ReferencesOk(job) && FilesBound(s.server.rawFiles, job.runId, job.files)
    ensures TargetsReferenced(job.retryFiles) && TargetsDistinct(job.retryFiles)
    ensures job.runId in s.server.runs && s.server.runs[job.runId].retryFiles == TargetsOption(job.retryFiles)
    ensures s.server.runs[job.runId].node == s.queue.node == job.task.node
  {
    hide FilesOk, ReferencesOk, FilesBound, TargetsReferenced, TargetsDistinct, ReportGood, StageOk, ProgressOk,
      RequestsOk, RawFilesBound, LiveClean, TargetsOption;
    assert RunHasKey(s.server, job.runId, key);
  }

  lemma {:induction false} NoEntriesMeansAllFailed(files: seq<FileRow>, n: nat)
    requires n <= |files| && EntriesOf(files, n) == []
    ensures forall i :: 0 <= i < n ==> files[i].errorDetail != ""
  {
    if n > 0 {
      NoEntriesMeansAllFailed(files, n - 1);
    }
  }

  lemma ReadyMeansDue(w: World, s: Sys, key: string)
    requires Inv(w, s) && ReadyToReport(s, key)
    ensures ReportDue(s.queue.jobs[key]) && s.queue.jobs[key].runId != ""
  {
    hide Inv, IdentityOk, FilesOk, ReferencesOk, JobMatches, LiveClean;
    var job := s.queue.jobs[key];
    WorkerParts(w, s);
    RowsOk(w, s, key);
    if !s.worker.Idle? {
      NoEntriesMeansAllFailed(job.files, |job.files|);
    }
  }

  lemma SaveReportKeeps(w: World, s: Sys, t: Sys, key: string, unreadable: map<string, string>, finishedAt: string)
    requires Inv(w, s) && GoodWorld(w) && Protocol.SaveReport(w, s, t, key, unreadable, finishedAt)
    ensures Inv(w, t)
  {
    hide Inv, RowOk, ReportGood, SavesReport, GoodWorld, ReportDue, JobTally, FilesOk, ReferencesOk, FilesBound,
      TargetsReferenced, TargetsDistinct, TargetsOption, WithReport;
    var job := s.queue.jobs[key];
    RowsOk(w, s, key);
    ReadyMeansDue(w, s, key);
    RunFacts(w, s, key, job);
    BuiltReportGood(w, s.server, job, unreadable, finishedAt);
    var tally := JobTally(job, Reading(w, unreadable), w.check);
    SavedReportKeeps(w, s, t, key, ReportOf(job, tally, finishedAt), tally.clean);
  }

  lemma FailCollectionKeeps(w: World, s: Sys, t: Sys, key: string, error: string, finishedAt: string)
    requires Inv(w, s) && FailCollection(s, t, key, error, finishedAt)
    ensures Inv(w, t)
  {
    hide Inv, JobOk, JobMatches, LiveClean, ReportGood, SavesReport, FilesOk, ReferencesOk, FilesBound,
      TargetsReferenced, TargetsDistinct, TargetsOption, WithReport, StageOk, RowOk;
    var job := s.queue.jobs[key];
    RowsOk(w, s, key);
    RowParts(w, s, key, job);
    RunFacts(w, s, key, job);
    CollectionReportGood(w, s.server, job, error, finishedAt);
    SavedReportKeeps(w, s, t, key, CollectionFailureReport(job, error, finishedAt), NoneClean(job));
  }
}
