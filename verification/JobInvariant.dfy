/** What holds of every job row in the queue between any two transactions, and what each transaction keeps of it. */
module JobInvariant {
  import opened Messages
  import opened ArchivePaths
  import opened QueueModel
  import opened Planning
  import opened Reporting
  import opened ControlPlane
  import opened ServerInvariant

  // ---- the parts of the invariant ----

  function KindOf(stage: Stage): RequestType {
    if stage.ManifestPending? then ManifestType else if stage.ReportPending? then ReportType else StartType
  }

  ghost predicate IdentityOk(node: string, key: string, job: JobRow) {
    var start := job.start.request;
    && job.task.node == node && start.node == node && start.taskId == job.task.id
    && job.start.key == key && start.executionKey == key
    && (start.trigger.Scheduled? <==> !IsOperatorKey(key))
    && (start.trigger.Scheduled? ==> job.retryFiles == [])
    && TargetsDistinct(job.retryFiles)
  }

  /** A side state always remembers an executable stage to resume, and an executable stage remembers none. */
  predicate StageOk(job: JobRow) {
    && (Executable(job.stage) <==> job.retryStage.None?)
    && (job.retryStage.Some? ==> Executable(job.retryStage.value))
    && (job.stage.RetryWait? ==> DeliveryStage(job.retryStage.value) && Attempts(job, KindOf(job.retryStage.value)) > 0)
  }

  predicate ProgressOk(job: JobRow) {
    && (job.files != [] ==> job.failures.Some?)
    && match EffectiveStage(job)
       case StartPending =>
         job.runId == "" && job.files == [] && job.failures.None? && job.manifest.None? && job.report.None?
       case Collecting => job.runId != "" && job.manifest.None? && job.report.None?
       case ManifestPending => job.runId != "" && job.manifest.Some? && job.report.None? && job.failures.Some?
       case ReportBuilding => job.runId != "" && job.manifest.Some? && job.report.None? && job.failures.Some?
       case ReportPending => job.runId != "" && job.report.Some?
       case RetryWait => false
       case RequiresAttention => false
  }

  function EntryOf(file: FileRow): ManifestEntry {
    ManifestEntry(file.originalName, file.fileHash, file.archivePath, file.sizeBytes, file.sourceMtime, "archived_local")
  }

  /** The manifest entries of the files among the first n that have not failed. */
  function EntriesOf(files: seq<FileRow>, n: nat): (r: seq<ManifestEntry>)
    requires n <= |files|
    ensures |r| <= n
  {
    if n == 0 then []
    else EntriesOf(files, n - 1) + (if files[n - 1].errorDetail == "" then [EntryOf(files[n - 1])] else [])
  }

  function ArchivedAmong(files: seq<FileRow>, n: nat): nat
    requires n <= |files|
  {
    if n == 0 then 0 else ArchivedAmong(files, n - 1) + (if files[n - 1].errorDetail == "" then 1 else 0)
  }

  predicate EntryShows(e: ManifestEntry, file: FileRow) {
    && e.originalName == file.originalName && e.fileHash == file.fileHash && e.storagePath == file.archivePath
    && e.sizeBytes == file.sizeBytes && e.sourceMtime == file.sourceMtime && e.ingestStatus == "archived_local"
  }

  /** One entry for each file without an error, in the order of the files, and no others. */
  ghost predicate ListsArchived(entries: seq<ManifestEntry>, files: seq<FileRow>, n: nat)
    requires n <= |files|
  {
    && |entries| == ArchivedAmong(files, n)
    && forall i :: 0 <= i < n && files[i].errorDetail == "" ==>
         ArchivedAmong(files, i) < |entries| && EntryShows(entries[ArchivedAmong(files, i)], files[i])
  }

  lemma {:induction false} EntriesListArchived(files: seq<FileRow>, n: nat)
    requires n <= |files|
    ensures ListsArchived(EntriesOf(files, n), files, n)
  {
    if n > 0 {
      EntriesListArchived(files, n - 1);
    }
  }

  /** The persisted requests name this run, and the manifest lists exactly the files that were archived. */
  ghost predicate RequestsOk(job: JobRow) {
    && (job.manifest.Some? ==>
          var m := job.manifest.value.request;
          && m.runId == job.runId && m.node == job.task.node && m.key == ManifestKey(m.node, m.runId)
          && job.manifest.value.key == m.key && m.files == EntriesOf(job.files, |job.files|) && m.files != []
          && forall i :: 0 <= i < |job.files| && job.files[i].errorDetail == "" ==> job.files[i].archived)
    && (job.report.Some? ==>
          var r := job.report.value.request;
          && r.runId == job.runId && r.node == job.task.node && r.key == ReportKey(r.node, r.runId)
          && job.report.value.key == r.key && Terminal(r.status))
  }

  ghost predicate ListedPath(failures: seq<FailedFile>, path: string) {
    exists i :: 0 <= i < |failures| && failures[i].sourcePath == path
  }

  /** Rows are numbered and placed as planned; a file has an error exactly when it is in the failure list. */
  ghost predicate FilesOk(workDir: string, job: JobRow) {
    && (job.files == [] || PlanAllowed(job.task.id, job.runId, 1))
    && (forall i :: 0 <= i < |job.files| ==>
          job.files[i].ordinal == i
          && job.files[i].archivePath == PlanArchivePath(workDir, job.task.id, job.runId, i + 1, job.files[i].originalName))
    && (forall i, j :: 0 <= i < j < |job.files| ==> job.files[i].sourcePath != job.files[j].sourcePath)
    && UniquePaths(PersistedFailures(job))
    && (forall i :: 0 <= i < |job.files| ==>
          (job.files[i].errorDetail != "" <==> ListedPath(PersistedFailures(job), job.files[i].sourcePath)))
  }

  predicate RawFilesBound(job: JobRow) {
    match EffectiveStage(job)
    case StartPending => true
    case Collecting => forall i :: 0 <= i < |job.files| ==> job.files[i].rawFileId == ""
    case ManifestPending => forall i :: 0 <= i < |job.files| ==> job.files[i].rawFileId == ""
    case _ => forall i :: 0 <= i < |job.files| && job.files[i].rawFileId == "" ==> job.files[i].errorDetail != "" || job.report.Some?
  }

  /** The failures of a retry job belong to its targets and keep their references; others carry none. */
  ghost predicate ReferencesOk(job: JobRow) {
    if job.retryFiles == [] then
      forall i :: 0 <= i < |PersistedFailures(job)| ==> PersistedFailures(job)[i].archiveRef == ""
    else
      && (forall i :: 0 <= i < |PersistedFailures(job)| ==> KeepsReference(job.retryFiles, PersistedFailures(job)[i]))
      && (forall i :: 0 <= i < |job.files| ==> HasTarget(job.retryFiles, job.files[i].sourcePath))
  }

  ghost predicate JobOk(workDir: string, node: string, key: string, job: JobRow) {
    && IdentityOk(node, key, job) && StageOk(job) && ProgressOk(job) && RequestsOk(job) && FilesOk(workDir, job)
    && RawFilesBound(job) && ReferencesOk(job)
  }

  // ---- begin and start ----

  lemma NewJobOk(workDir: string, task: TaskConfig, request: StartRequest, retryFiles: seq<RetryFile>)
    requires request.node == task.node && request.taskId == task.id && TargetsDistinct(retryFiles)
    requires request.trigger.Scheduled? <==> !IsOperatorKey(request.executionKey)
    requires request.trigger.Scheduled? ==> retryFiles == []
    ensures JobOk(workDir, task.node, request.executionKey, NewJob(task, request, retryFiles))
  {
  }

  lemma StartedJobOk(workDir: string, node: string, key: string, job: JobRow, runId: string)
    requires JobOk(workDir, node, key, job) && job.stage.StartPending? && runId != ""
    ensures JobOk(workDir, node, key, job.(runId := runId, stage := Collecting))
  {
  }

  // ---- planning ----

  function SiteOf(workDir: string, job: JobRow): Site { Site(workDir, job.task.id, job.runId) }

  /** The draft fits the job: its rows are fresh, its paths are used once, its failures keep the references. */
  ghost predicate DraftFits(q: Queue, workDir: string, job: JobRow, d: Draft) {
    && WellFormedDraft(q, SiteOf(workDir, job), d)
    && (exists sources: seq<string> :: PathsFrom(d, sources, |sources|))
    && (job.retryFiles == [] ==> forall i :: 0 <= i < |d.failures| ==> d.failures[i].archiveRef == "")
    && (job.retryFiles != [] ==>
          && (forall i :: 0 <= i < |d.failures| ==> KeepsReference(job.retryFiles, d.failures[i]))
          && (forall i :: 0 <= i < |d.plan| ==> HasTarget(job.retryFiles, d.plan[i].sourcePath)))
  }

  lemma DirectoryDraftFits(q: Queue, workDir: string, job: JobRow, limit: nat, items: seq<Listing>)
    requires job.retryFiles == [] && Distinct(ItemPaths(items))
    requires DirectoryDraft(q, SiteOf(workDir, job), limit, items, |items|).Some?
    ensures DraftFits(q, workDir, job, DirectoryDraft(q, SiteOf(workDir, job), limit, items, |items|).value)
  {
    DirectoryDraftSound(q, SiteOf(workDir, job), limit, items, |items|);
    assert PathsFrom(DirectoryDraft(q, SiteOf(workDir, job), limit, items, |items|).value, ItemPaths(items), |ItemPaths(items)|);
  }

  lemma TargetDraftFits(q: Queue, workDir: string, job: JobRow, checks: seq<TargetCheck>)
    requires job.retryFiles != [] && TargetsDistinct(job.retryFiles) && |checks| == |job.retryFiles|
    requires TargetDraft(q, SiteOf(workDir, job), job.retryFiles, checks, |checks|).Some?
    ensures DraftFits(q, workDir, job, TargetDraft(q, SiteOf(workDir, job), job.retryFiles, checks, |checks|).value)
  {
    TargetDraftSound(q, SiteOf(workDir, job), job.retryFiles, checks, |checks|);
    var d := TargetDraft(q, SiteOf(workDir, job), job.retryFiles, checks, |checks|).value;
    var paths := TargetPaths(job.retryFiles);
    assert PathsFrom(d, paths, |paths|);
    forall i | 0 <= i < |d.plan| ensures HasTarget(job.retryFiles, d.plan[i].sourcePath) {
      var k :| 0 <= k < |paths| && paths[k] == d.plan[i].sourcePath;
      assert job.retryFiles[k].sourcePath == paths[k];
    }
  }

  function Planned(job: JobRow, d: Draft): JobRow { job.(files := job.files + d.plan, failures := Some(d.failures)) }

  lemma DraftPathsDistinct(q: Queue, workDir: string, job: JobRow, d: Draft)
    requires DraftFits(q, workDir, job, d)
    ensures UniquePaths(d.failures)
    ensures forall i, j :: 0 <= i < j < |d.plan| ==> d.plan[i].sourcePath != d.plan[j].sourcePath
    ensures forall i :: 0 <= i < |d.plan| ==> !ListedPath(d.failures, d.plan[i].sourcePath)
  {
    hide PlanAllowed, InFlight, KeepsReference, HasTarget, WellFormedDraft, FreshRow;
    var sources :| PathsFrom(d, sources, |sources|);
    forall i | 0 <= i < |d.plan| ensures !ListedPath(d.failures, d.plan[i].sourcePath) {
      assert forall j :: 0 <= j < |d.failures| ==> d.plan[i].sourcePath != d.failures[j].sourcePath;
    }
  }

  lemma DraftRowsFresh(q: Queue, workDir: string, job: JobRow, d: Draft)
    requires DraftFits(q, workDir, job, d)
    ensures d.plan == [] || PlanAllowed(job.task.id, job.runId, 1)
    ensures forall i :: 0 <= i < |d.plan| ==> FreshRow(SiteOf(workDir, job), d.plan[i], i)
  {
    hide PlanAllowed, InFlight, KeepsReference, HasTarget, PathsFrom, FreshRow;
  }

  lemma PlannedFilesOk(q: Queue, workDir: string, job: JobRow, d: Draft)
    requires job.files == [] && DraftFits(q, workDir, job, d)
    ensures FilesOk(workDir, Planned(job, d))
  {
    hide DraftFits, PlanAllowed, PlanArchivePath, ListedPath, UniquePaths;
    DraftPathsDistinct(q, workDir, job, d);
    DraftRowsFresh(q, workDir, job, d);
    assert Planned(job, d).files == d.plan;
  }

  lemma PlannedReferencesOk(q: Queue, workDir: string, job: JobRow, d: Draft)
    requires job.files == [] && DraftFits(q, workDir, job, d)
    ensures ReferencesOk(Planned(job, d))
  {
    hide WellFormedDraft, PathsFrom, KeepsReference, HasTarget;
    assert Planned(job, d).files == d.plan;
  }

  lemma PlannedJobOk(q: Queue, workDir: string, node: string, key: string, job: JobRow, d: Draft)
    requires JobOk(workDir, node, key, job) && job.stage.Collecting? && job.files == [] && job.failures.None?
    requires DraftFits(q, workDir, job, d)
    ensures JobOk(workDir, node, key, Planned(job, d))
  {
    hide FilesOk, ReferencesOk, DraftFits, PlanAllowed, PlanArchivePath, Attempts;
    PlannedFilesOk(q, workDir, job, d);
    PlannedReferencesOk(q, workDir, job, d);
    DraftRowsFresh(q, workDir, job, d);
    assert Planned(job, d).files == d.plan;
  }

  // ---- archiving ----

  /** The reference a failed archive keeps: the one its fixed target carries. */
  function InheritedReference(targets: seq<RetryFile>, path: string): string {
    var target := FindTarget(targets, path);
    if target.Some? then target.value.archiveRef else ""
  }

  /** The archive that a file of the plan is known by: the one that its target carries, if it has one. */
  ghost predicate Inherits(targets: seq<RetryFile>, path: string, ref: string) {
    if HasTarget(targets, path)
    then exists i :: 0 <= i < |targets| && targets[i].sourcePath == path && ref == targets[i].archiveRef
    else ref == ""
  }

  lemma InheritedIs(targets: seq<RetryFile>, path: string)
    ensures Inherits(targets, path, InheritedReference(targets, path))
  {
    var target := FindTarget(targets, path);
    if target.Some? {
      var i :| 0 <= i < |targets| && targets[i] == target.value;
    }
  }

  function ArchiveFailure(job: JobRow, i: nat, message: string): FailedFile
    requires i < |job.files|
  {
    FailedFile(job.files[i].sourcePath, job.files[i].originalName, "archive", message,
               InheritedReference(job.retryFiles, job.files[i].sourcePath))
  }

  function FailedAt(job: JobRow, i: nat, message: string): JobRow
    requires i < |job.files|
  {
    job.(files := WithError(job.files, job.files[i].ordinal, message),
         failures := Some(PersistedFailures(job) + [ArchiveFailure(job, i, message)]))
  }

  /** A source target carries no archive reference. */
  predicate SourceTargetsBare(targets: seq<RetryFile>) {
    forall i :: 0 <= i < |targets| && targets[i].inputType.SourceInput? ==> targets[i].archiveRef == ""
  }

  lemma InheritedKeepsReference(targets: seq<RetryFile>, path: string)
    requires HasTarget(targets, path) && SourceTargetsBare(targets)
    ensures exists i :: 0 <= i < |targets| && targets[i].sourcePath == path
                        && InheritedReference(targets, path) == KeptReference(targets[i])
  {
    var target := FindTarget(targets, path).value;
    var i :| 0 <= i < |targets| && targets[i] == target;
    assert InheritedReference(targets, path) == KeptReference(targets[i]);
  }

  lemma FailedJobFilesOk(workDir: string, job: JobRow, i: nat, message: string)
    requires FilesOk(workDir, job) && i < |job.files| && job.files[i].errorDetail == "" && message != ""
    ensures FilesOk(workDir, FailedAt(job, i, message))
  {
    hide PlanAllowed, PlanArchivePath, InheritedReference;
    var after := FailedAt(job, i, message);
    var failures := PersistedFailures(job);
    var longer := failures + [ArchiveFailure(job, i, message)];
    assert PersistedFailures(after) == longer;
    forall k | 0 <= k < |job.files|
      ensures ListedPath(longer, job.files[k].sourcePath) <==> k == i || ListedPath(failures, job.files[k].sourcePath)
    {
      if k == i {
        assert longer[|failures|].sourcePath == job.files[k].sourcePath;
      } else if ListedPath(failures, job.files[k].sourcePath) {
        var n :| 0 <= n < |failures| && failures[n].sourcePath == job.files[k].sourcePath;
        assert longer[n].sourcePath == job.files[k].sourcePath;
      }
    }
    assert !ListedPath(failures, job.files[i].sourcePath);
  }

  lemma FailedJobReferencesOk(job: JobRow, i: nat, message: string)
    requires ReferencesOk(job) && i < |job.files| && SourceTargetsBare(job.retryFiles)
    ensures ReferencesOk(FailedAt(job, i, message))
  {
    hide SourceTargetsBare, InheritedReference, KeptReference;
    var after, failure := FailedAt(job, i, message), ArchiveFailure(job, i, message);
    assert PersistedFailures(after) == PersistedFailures(job) + [failure];
    if job.retryFiles != [] {
      InheritedKeepsReference(job.retryFiles, job.files[i].sourcePath);
      assert KeepsReference(job.retryFiles, failure);
    } else {
      assert failure.archiveRef == "" by {
        NoTargetNoReference(job.files[i].sourcePath);
      }
    }
  }

  lemma NoTargetNoReference(path: string)
    ensures InheritedReference([], path) == ""
  {
  }

  /** A file that fails to archive enters the list once, in the transaction that marks it. */
  lemma FailedJobOk(workDir: string, node: string, key: string, job: JobRow, i: nat, message: string)
    requires JobOk(workDir, node, key, job) && job.stage.Collecting? && i < |job.files|
    requires job.files[i].errorDetail == "" && message != "" && SourceTargetsBare(job.retryFiles)
    ensures JobOk(workDir, node, key, FailedAt(job, i, message))
  {
    hide FilesOk, ReferencesOk, SourceTargetsBare, ArchiveFailure, Attempts;
    FailedJobFilesOk(workDir, job, i, message);
    FailedJobReferencesOk(job, i, message);
  }

  lemma ArchivedJobOk(workDir: string, node: string, key: string, job: JobRow, ordinal: int)
    requires JobOk(workDir, node, key, job) && job.stage.Collecting?
    ensures JobOk(workDir, node, key, job.(files := WithArchived(job.files, ordinal)))
  {
    hide FilesOk, ReferencesOk, Attempts;
    InputsFrame(workDir, job, job.(files := WithArchived(job.files, ordinal)));
  }

  /** The list with every marked failure of the first n files that it lacked. */
  function Amended(job: JobRow, n: nat): seq<FailedFile>
    requires n <= |job.files|
  {
    if n == 0 then PersistedFailures(job)
    else
      var before := Amended(job, n - 1);
      var file := job.files[n - 1];
      if file.errorDetail == "" || exists i :: 0 <= i < |before| && before[i].sourcePath == file.sourcePath then before
      else before + [FailedFile(file.sourcePath, file.originalName, "archive", file.errorDetail,
                                InheritedReference(job.retryFiles, file.sourcePath))]
  }

  /** The failure is that of a file that was marked, and missing from the list. */
  ghost predicate WasMissing(job: JobRow, f: FailedFile, n: nat)
    requires n <= |job.files|
  {
    exists i :: 0 <= i < n && MissingFile(job, job.files[i], f)
  }

  ghost predicate MissingFile(job: JobRow, file: FileRow, f: FailedFile) {
    && file.errorDetail != "" && !ListedPath(PersistedFailures(job), file.sourcePath)
    && f.sourcePath == file.sourcePath && f.originalName == file.originalName && f.stage == "archive"
    && f.message == file.errorDetail && Inherits(job.retryFiles, file.sourcePath, f.archiveRef)
  }

  /** The repair keeps the list, and adds each marked file that was missing from it, once, and nothing else. */
  lemma {:induction false} AmendmentCompletes(job: JobRow, n: nat)
    requires n <= |job.files|
    ensures var listed, amended := PersistedFailures(job), Amended(job, n);
            && listed <= amended
            && (forall i :: 0 <= i < n && job.files[i].errorDetail != "" ==> ListedPath(amended, job.files[i].sourcePath))
            && (forall k :: |listed| <= k < |amended| ==> WasMissing(job, amended[k], n))
            && (forall k, l :: |listed| <= l < |amended| && 0 <= k < l ==> amended[k].sourcePath != amended[l].sourcePath)
  {
    hide Amended, WasMissing, ListedPath;
    if n > 0 {
      AmendmentCompletes(job, n - 1);
      AmendedByOne(job, n);
      var listed, before, amended := PersistedFailures(job), Amended(job, n - 1), Amended(job, n);
      forall i | 0 <= i < n && job.files[i].errorDetail != "" ensures ListedPath(amended, job.files[i].sourcePath) {
        if i < n - 1 {
          ListedLonger(before, amended, job.files[i].sourcePath);
        }
      }
      forall k | |listed| <= k < |amended| ensures WasMissing(job, amended[k], n) {
        if k < |before| {
          MissingStill(job, before[k], n);
        } else {
          LastMissing(job, n);
        }
      }
    } else {
      NothingAmended(job);
    }
  }

  lemma NothingAmended(job: JobRow)
    ensures Amended(job, 0) == PersistedFailures(job)
  {
  }

  lemma MissingStill(job: JobRow, f: FailedFile, n: nat)
    requires 0 < n <= |job.files| && WasMissing(job, f, n - 1)
    ensures WasMissing(job, f, n)
  {
    hide MissingFile;
  }

  /** One file more: at most one failure more, of a path that was not listed; and a marked file is listed then. */
  lemma AmendedByOne(job: JobRow, n: nat)
    requires 0 < n <= |job.files|
    ensures var before, amended := Amended(job, n - 1), Amended(job, n);
            && before <= amended && |amended| <= |before| + 1
            && (job.files[n - 1].errorDetail != "" ==> ListedPath(amended, job.files[n - 1].sourcePath))
            && (|amended| > |before| ==>
                  forall k :: 0 <= k < |before| ==> amended[k].sourcePath != amended[|before|].sourcePath)
  {
    hide InheritedReference;
    var before, amended, path := Amended(job, n - 1), Amended(job, n), job.files[n - 1].sourcePath;
    if |amended| > |before| {
      assert amended[|before|].sourcePath == path;
    } else if i :| 0 <= i < |before| && before[i].sourcePath == path {
      assert amended[i] == before[i];
    }
  }

  lemma ListedLonger(a: seq<FailedFile>, b: seq<FailedFile>, path: string)
    requires a <= b && ListedPath(a, path)
    ensures ListedPath(b, path)
  {
    var i :| 0 <= i < |a| && a[i].sourcePath == path;
    assert b[i] == a[i];
  }

  lemma LastMissing(job: JobRow, n: nat)
    requires 0 < n <= |job.files| && |Amended(job, n)| > |Amended(job, n - 1)| && PersistedFailures(job) <= Amended(job, n - 1)
    ensures WasMissing(job, Amended(job, n)[|Amended(job, n - 1)|], n)
  {
    hide InheritedReference, Inherits;
    var file, listed, before := job.files[n - 1], PersistedFailures(job), Amended(job, n - 1);
    InheritedIs(job.retryFiles, file.sourcePath);
    assert !ListedPath(listed, file.sourcePath) by {
      forall i | 0 <= i < |listed| ensures listed[i].sourcePath != file.sourcePath {
        assert before[i] == listed[i];
      }
    }
    assert MissingFile(job, file, Amended(job, n)[|before|]);
  }

  /** Nothing is missing from the list of a job in order, so the repair changes nothing. */
  lemma {:induction false} AmendmentIsIdle(workDir: string, job: JobRow, n: nat)
    requires n <= |job.files| && FilesOk(workDir, job)
    ensures Amended(job, n) == PersistedFailures(job)
  {
    if n > 0 {
      AmendmentIsIdle(workDir, job, n - 1);
      assert job.files[n - 1].errorDetail != "" ==> ListedPath(PersistedFailures(job), job.files[n - 1].sourcePath);
    }
  }

  // ---- changes that leave the inputs alone ----

  /** The rows differ at most in what archiving, acknowledgement and parsing record. */
  ghost predicate SameInputs(a: seq<FileRow>, b: seq<FileRow>) {
    && |a| == |b|
    && forall i :: 0 <= i < |a| ==>
         && b[i].ordinal == a[i].ordinal && b[i].sourcePath == a[i].sourcePath && b[i].originalName == a[i].originalName
         && b[i].archivePath == a[i].archivePath && b[i].errorDetail == a[i].errorDetail
         && b[i].fingerprint == a[i].fingerprint
  }

  lemma InputsFrame(workDir: string, a: JobRow, b: JobRow)
    requires SameInputs(a.files, b.files) && b.task == a.task && b.runId == a.runId && b.failures == a.failures
    requires b.retryFiles == a.retryFiles
    ensures FilesOk(workDir, a) ==> FilesOk(workDir, b)
    ensures ReferencesOk(a) ==> ReferencesOk(b)
  {
    assert PersistedFailures(b) == PersistedFailures(a);
  }

  // ---- manifest ----

  function ManifestFor(job: JobRow, entries: seq<ManifestEntry>): ManifestRequest {
    ManifestRequest(job.runId, job.task.node, ManifestKey(job.task.node, job.runId), entries)
  }

  function WithManifest(job: JobRow, m: ManifestRequest): JobRow {
    job.(manifest := Some(Delivery(m.key, m, 0)), stage := ManifestPending)
  }

  lemma ManifestJobOk(workDir: string, node: string, key: string, job: JobRow)
    requires JobOk(workDir, node, key, job) && job.stage.Collecting? && job.failures.Some?
    requires EntriesOf(job.files, |job.files|) != []
    requires forall i :: 0 <= i < |job.files| && job.files[i].errorDetail == "" ==> job.files[i].archived
    ensures JobOk(workDir, node, key, WithManifest(job, ManifestFor(job, EntriesOf(job.files, |job.files|))))
  {
  }

  /** Position p of the entries belongs to the p-th file that has not failed. */
  lemma {:induction false} EntryPosition(files: seq<FileRow>, n: nat, p: nat) returns (i: nat)
    requires n <= |files| && p < |EntriesOf(files, n)|
    ensures i < n && files[i].errorDetail == "" && |EntriesOf(files, i)| == p && EntriesOf(files, n)[p] == EntryOf(files[i])
  {
    if files[n - 1].errorDetail == "" && p == |EntriesOf(files, n - 1)| {
      i := n - 1;
    } else {
      i := EntryPosition(files, n - 1, p);
    }
  }

  lemma {:induction false} EntriesGrow(files: seq<FileRow>, i: nat, n: nat)
    requires i <= n <= |files|
    ensures |EntriesOf(files, i)| <= |EntriesOf(files, n)|
    ensures i < n && files[i].errorDetail == "" ==> |EntriesOf(files, i)| < |EntriesOf(files, n)|
    decreases n - i
  {
    if i < n {
      EntriesGrow(files, i + 1, n);
    }
  }

  ghost predicate PathsDistinct(files: seq<FileRow>) {
    forall i, j :: 0 <= i < j < |files| ==> files[i].archivePath != files[j].archivePath
  }

  /** Every file but the failed ones carries the id answered at its position. */
  ghost predicate BoundUpTo(files: seq<FileRow>, bound: seq<FileRow>, ids: seq<string>, n: nat) {
    && |bound| == |files|
    && forall i :: 0 <= i < |files| ==>
         bound[i] == if files[i].errorDetail == "" && |EntriesOf(files, i)| < n && n <= |ids|
                     then files[i].(rawFileId := ids[|EntriesOf(files, i)|]) else files[i]
  }

  lemma OnlyRowOfPath(files: seq<FileRow>, bound: seq<FileRow>, ids: seq<string>, n: nat, k: nat)
    requires PathsDistinct(files) && n <= |ids| && BoundUpTo(files, bound, ids, n) && k < |files|
    ensures MatchingRows(bound, files[k].archivePath) == {k as int}
    ensures forall i :: 0 <= i < |files| ==> (bound[i].archivePath == files[k].archivePath <==> i == k)
  {
    hide EntriesOf;
    forall i | 0 <= i < |files| ensures bound[i].archivePath == files[k].archivePath <==> i == k {
      assert bound[i].archivePath == files[i].archivePath;
    }
  }

  lemma BindOne(files: seq<FileRow>, bound: seq<FileRow>, ids: seq<string>, n: nat, k: nat)
    requires PathsDistinct(files) && 0 < n <= |ids| && BoundUpTo(files, bound, ids, n - 1)
    requires k < |files| && files[k].errorDetail == "" && |EntriesOf(files, k)| == n - 1
    ensures MatchingRows(bound, files[k].archivePath) == {k as int}
    ensures BoundUpTo(files, WithRawFile(bound, files[k].archivePath, ids[n - 1]), ids, n)
  {
    hide MatchingRows;
    OnlyRowOfPath(files, bound, ids, n - 1, k);
    forall i | 0 <= i < |files| && files[i].errorDetail == "" && |EntriesOf(files, i)| == n - 1 ensures i == k {
      if i < k {
        EntriesGrow(files, i, k);
      } else if k < i {
        EntriesGrow(files, k, i);
      }
    }
  }

  lemma BindStep(files: seq<FileRow>, sent: seq<ManifestEntry>, ids: seq<string>, n: nat, bound: seq<FileRow>)
    requires 0 < n <= |sent| == |ids| && BindRawFiles(files, sent, ids, n - 1) == Some(bound)
    requires |MatchingRows(bound, sent[n - 1].storagePath)| == 1
    ensures BindRawFiles(files, sent, ids, n) == Some(WithRawFile(bound, sent[n - 1].storagePath, ids[n - 1]))
  {
  }

  lemma NothingBoundYet(files: seq<FileRow>, sent: seq<ManifestEntry>, ids: seq<string>)
    requires |ids| == |sent|
    ensures BindRawFiles(files, sent, ids, 0) == Some(files) && BoundUpTo(files, files, ids, 0)
  {
  }

  /** Binding by archive path succeeds, and gives each archived file the id answered for its own entry. */
  lemma {:induction false} BindingFollowsEntries(files: seq<FileRow>, sent: seq<ManifestEntry>, ids: seq<string>,
                                                 n: nat)
    requires PathsDistinct(files) && sent == EntriesOf(files, |files|) && n <= |ids| == |sent|
    ensures BindRawFiles(files, sent, ids, n).Some?
    ensures BoundUpTo(files, BindRawFiles(files, sent, ids, n).value, ids, n)
  {
    hide BindRawFiles, BoundUpTo, PathsDistinct, MatchingRows, WithRawFile;
    if n == 0 {
      NothingBoundYet(files, sent, ids);
    } else {
      BindingFollowsEntries(files, sent, ids, n - 1);
      var bound := BindRawFiles(files, sent, ids, n - 1).value;
      var k := EntryPosition(files, |files|, n - 1);
      BindOne(files, bound, ids, n, k);
      BindStep(files, sent, ids, n, bound);
    }
  }

  lemma PlannedPathsAreDistinct(workDir: string, job: JobRow)
    requires FilesOk(workDir, job)
    ensures PathsDistinct(job.files)
  {
    forall i, j | 0 <= i < j < |job.files| ensures job.files[i].archivePath != job.files[j].archivePath {
      if job.files[i].archivePath == job.files[j].archivePath {
        PlannedPathsDistinct(workDir, job.task.id, job.runId, i + 1, job.files[i].originalName,
                             job.task.id, job.runId, j + 1, job.files[j].originalName);
      }
    }
  }

  function Bound(job: JobRow, bound: seq<FileRow>): JobRow {
    job.(files := bound, stage := if job.stage.ManifestPending? then ReportBuilding else job.stage)
  }

  lemma {:induction false} EntriesIgnoreIds(files: seq<FileRow>, bound: seq<FileRow>, n: nat)
    requires |bound| == |files| && n <= |files|
    requires forall i :: 0 <= i < |files| ==> bound[i] == files[i].(rawFileId := bound[i].rawFileId)
    ensures EntriesOf(bound, n) == EntriesOf(files, n)
  {
    if n > 0 {
      EntriesIgnoreIds(files, bound, n - 1);
    }
  }

  lemma BoundIdentity(files: seq<FileRow>, bound: seq<FileRow>, ids: seq<string>, n: nat)
    requires BoundUpTo(files, bound, ids, n)
    ensures SameInputs(files, bound)
  {
    forall i | 0 <= i < |files| ensures bound[i] == files[i].(rawFileId := bound[i].rawFileId) {}
  }

  lemma EveryEntryBound(files: seq<FileRow>, bound: seq<FileRow>, ids: seq<string>)
    requires |ids| == |EntriesOf(files, |files|)| && BoundUpTo(files, bound, ids, |ids|)
    requires forall i :: 0 <= i < |ids| ==> ids[i] != ""
    ensures forall i :: 0 <= i < |files| && files[i].errorDetail == "" ==> bound[i].rawFileId != ""
    ensures forall i :: 0 <= i < |files| ==> bound[i] == files[i].(rawFileId := bound[i].rawFileId)
  {
    forall i | 0 <= i < |files| && files[i].errorDetail == "" ensures bound[i].rawFileId != "" {
      EntriesGrow(files, i, |files|);
    }
  }

  lemma BoundJobOk(workDir: string, node: string, key: string, job: JobRow, ids: seq<string>, bound: seq<FileRow>)
    requires JobOk(workDir, node, key, job) && job.stage.ManifestPending?
    requires |ids| == |EntriesOf(job.files, |job.files|)| && BoundUpTo(job.files, bound, ids, |ids|)
    requires forall i :: 0 <= i < |ids| ==> ids[i] != ""
    ensures JobOk(workDir, node, key, Bound(job, bound))
  {
    EveryEntryBound(job.files, bound, ids);
    EntriesIgnoreIds(job.files, bound, |job.files|);
    BoundIdentity(job.files, bound, ids, |ids|);
    InputsFrame(workDir, job, Bound(job, bound));
    BoundRequestsOk(job, bound);
    BoundProgressOk(job, bound);
  }

  lemma BoundRequestsOk(job: JobRow, bound: seq<FileRow>)
    requires RequestsOk(job) && |bound| == |job.files| && EntriesOf(bound, |bound|) == EntriesOf(job.files, |job.files|)
    requires forall i :: 0 <= i < |job.files| ==> bound[i] == job.files[i].(rawFileId := bound[i].rawFileId)
    ensures RequestsOk(Bound(job, bound))
  {
  }

  lemma BoundProgressOk(job: JobRow, bound: seq<FileRow>)
    requires StageOk(job) && ProgressOk(job) && job.stage.ManifestPending? && |bound| == |job.files|
    requires forall i :: 0 <= i < |job.files| ==> bound[i] == job.files[i].(rawFileId := bound[i].rawFileId)
    requires forall i :: 0 <= i < |job.files| && job.files[i].errorDetail == "" ==> bound[i].rawFileId != ""
    ensures StageOk(Bound(job, bound)) && ProgressOk(Bound(job, bound)) && RawFilesBound(Bound(job, bound))
  {
  }

  // ---- report ----

  function WithReport(job: JobRow, r: ReportRequest, clean: seq<bool>): JobRow {
    job.(report := Some(Delivery(r.key, r, 0)), files := WithOutcomes(job.files, clean), stage := ReportPending)
  }

  lemma {:induction false} EntriesIgnoreOutcomes(files: seq<FileRow>, clean: seq<bool>, n: nat)
    requires n <= |files|
    ensures EntriesOf(WithOutcomes(files, clean), n) == EntriesOf(files, n)
  {
    if n > 0 {
      EntriesIgnoreOutcomes(files, clean, n - 1);
    }
  }

  lemma ReportJobOk(workDir: string, node: string, key: string, job: JobRow, r: ReportRequest, clean: seq<bool>)
    requires JobOk(workDir, node, key, job) && (job.stage.Collecting? || job.stage.ReportBuilding?)
    requires r.runId == job.runId && r.node == job.task.node && r.key == ReportKey(r.node, r.runId)
    requires Terminal(r.status)
    ensures JobOk(workDir, node, key, WithReport(job, r, clean))
  {
    EntriesIgnoreOutcomes(job.files, clean, |job.files|);
    OutcomesKeepInputs(job.files, clean);
    InputsFrame(workDir, job, WithReport(job, r, clean));
    ReportRequestsOk(job, r, clean);
    ReportProgressOk(job, r, clean);
  }

  lemma OutcomesKeepInputs(files: seq<FileRow>, clean: seq<bool>)
    ensures SameInputs(files, WithOutcomes(files, clean))
  {
  }

  lemma ReportProgressOk(job: JobRow, r: ReportRequest, clean: seq<bool>)
    requires StageOk(job) && ProgressOk(job) && (job.stage.Collecting? || job.stage.ReportBuilding?)
    ensures StageOk(WithReport(job, r, clean)) && ProgressOk(WithReport(job, r, clean))
    ensures RawFilesBound(WithReport(job, r, clean))
  {
  }

  lemma ReportRequestsOk(job: JobRow, r: ReportRequest, clean: seq<bool>)
    requires RequestsOk(job) && job.report.None?
    requires EntriesOf(WithOutcomes(job.files, clean), |job.files|) == EntriesOf(job.files, |job.files|)
    requires r.runId == job.runId && r.node == job.task.node && r.key == ReportKey(r.node, r.runId)
    requires Terminal(r.status)
    ensures RequestsOk(WithReport(job, r, clean))
  {
  }

  // ---- side states ----

  /** Requests, plan, failures and identity: everything a detour through a side state must leave alone. */
  predicate SameWork(a: JobRow, b: JobRow) {
    && b.task == a.task && b.runId == a.runId && b.retryFiles == a.retryFiles && b.failures == a.failures
    && b.files == a.files && b.start.key == a.start.key && b.start.request == a.start.request
    && (b.manifest.Some? <==> a.manifest.Some?) && (b.report.Some? <==> a.report.Some?)
    && (a.manifest.Some? ==> b.manifest.value.key == a.manifest.value.key && b.manifest.value.request == a.manifest.value.request)
    && (a.report.Some? ==> b.report.value.key == a.report.value.key && b.report.value.request == a.report.value.request)
  }

  lemma SideStateKeepsJob(workDir: string, node: string, key: string, a: JobRow, b: JobRow)
    requires JobOk(workDir, node, key, a) && SameWork(a, b) && StageOk(b) && EffectiveStage(b) == EffectiveStage(a)
    ensures JobOk(workDir, node, key, b)
  {
  }

  function WithAttention(job: JobRow, errorKind: string): JobRow {
    job.(stage := RequiresAttention, retryStage := if job.stage.RetryWait? then job.retryStage else Some(job.stage),
         lastErrorKind := errorKind)
  }

  /** Going to attention never fails for an executable or waiting job, and hides the stage without losing it. */
  lemma AttentionKeepsStage(q: Queue, key: string, errorKind: string)
    requires key in q.jobs && StageOk(q.jobs[key])
    ensures var job := q.jobs[key];
            var r := MarkRequiresAttention(q, key, errorKind);
            && (r.Some? <==> !job.stage.RequiresAttention?)
            && (r.Some? ==> r.value == q.(jobs := q.jobs[key := WithAttention(job, errorKind)])
                            && StageOk(WithAttention(job, errorKind)) && SameWork(job, WithAttention(job, errorKind))
                            && EffectiveStage(WithAttention(job, errorKind)) == EffectiveStage(job)
                            && WithAttention(job, errorKind).attempts == job.attempts)
  {
  }

  /** Retrying an attention job never fails to determine its stage, and restores exactly the stage it had. */
  lemma RetryRestoresStage(q: Queue, key: string)
    requires key in q.jobs && StageOk(q.jobs[key]) && q.jobs[key].stage.RequiresAttention?
    ensures var job := q.jobs[key];
            var r := RetryAttentionJob(q, key);
            && r.Resumption? && r.stage == EffectiveStage(job)
            && r.queue == q.(jobs := q.jobs[key := job.(stage := EffectiveStage(job), retryStage := None)])
            && StageOk(r.queue.jobs[key]) && SameWork(job, r.queue.jobs[key])
            && r.queue.jobs[key].attempts == job.attempts
  {
  }

  /** To attention and back: the job is as it was, but for the recorded error. */
  lemma AttentionRoundTrip(q: Queue, key: string, errorKind: string)
    requires key in q.jobs && StageOk(q.jobs[key]) && !q.jobs[key].stage.RequiresAttention?
    ensures var gone := MarkRequiresAttention(q, key, errorKind);
            gone.Some? &&
            var back := RetryAttentionJob(gone.value, key);
            back.Resumption? &&
            back.queue == q.(jobs := q.jobs[key := q.jobs[key].(stage := EffectiveStage(q.jobs[key]), retryStage := None,
                                                                lastErrorKind := errorKind)])
  {
    AttentionKeepsStage(q, key, errorKind);
    var gone := MarkRequiresAttention(q, key, errorKind).value;
    RetryRestoresStage(gone, key);
    assert RetryAttentionJob(gone, key).queue.jobs
        == q.jobs[key := q.jobs[key].(stage := EffectiveStage(q.jobs[key]), retryStage := None, lastErrorKind := errorKind)];
  }

  lemma FailureKeepsStage(job: JobRow, retryable: bool, errorKind: string)
    requires StageOk(job) && ProgressOk(job) && DeliveryStage(job.stage)
    ensures var failed := FailedDelivery(job, KindOf(job.stage), retryable, errorKind);
            StageOk(failed) && SameWork(job, failed) && EffectiveStage(failed) == EffectiveStage(job)
  {
  }

  lemma ResumeKeepsStage(job: JobRow)
    requires StageOk(job)
    ensures CanResume(job) && StageOk(Resumed(job)) && SameWork(job, Resumed(job))
    ensures EffectiveStage(Resumed(job)) == EffectiveStage(job)
    ensures job.stage.RequiresAttention? || Executable(Resumed(job).stage)
  {
  }
}
