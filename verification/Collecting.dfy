/** The collecting stage as the executor runs it: choose files once, archive them one by one, save the manifest. */
module Collecting {
  import opened Messages
  import opened QueueModel
  import opened QueueStore
  import opened Planning
  import opened Reporting
  import opened JobInvariant
  import opened ProtocolInvariant
  import opened PassSteps

  /** What recovering one archive gives. */
  datatype ArchiveOutcome = Archived | ArchiveFailed(message: string) | ArchiveConflict

  /** Outcomes by archive path; a failure always has a message. */
  ghost predicate Explained(outcome: string -> ArchiveOutcome) {
    forall path :: outcome(path).ArchiveFailed? ==> outcome(path).message != ""
  }

  /** A collecting job in good order whose files are selected. */
  ghost predicate Collectable(workDir: string, node: string, key: string, job: JobRow) {
    && JobOk(workDir, node, key, job) && job.stage.Collecting? && job.failures.Some?
    && SourceTargetsBare(job.retryFiles)
  }

  /** The first n files have been dealt with according to their outcomes; a file that had failed is left alone. */
  ghost predicate DealtWith(before: JobRow, after: JobRow, outcome: string -> ArchiveOutcome, n: nat) {
    && |after.files| == |before.files| && n <= |before.files|
    && after == before.(files := after.files, failures := after.failures)
    && (forall i :: 0 <= i < n ==>
          var was, now := before.files[i], after.files[i];
          if was.errorDetail != "" then now == was
          else match outcome(was.archivePath)
               case Archived => now == was.(archived := true)
               case ArchiveFailed(message) => now == was.(errorDetail := message)
               case ArchiveConflict => false)
    && (forall i :: n <= i < |before.files| ==> after.files[i] == before.files[i])
  }

  /** The file has failed now: it had not before, and its archive could not be recovered. */
  predicate FailsNow(file: FileRow, outcome: string -> ArchiveOutcome) {
    file.errorDetail == "" && outcome(file.archivePath).ArchiveFailed?
  }

  function FailedAmong(files: seq<FileRow>, outcome: string -> ArchiveOutcome, n: nat): nat
    requires n <= |files|
  {
    if n == 0 then 0 else FailedAmong(files, outcome, n - 1) + (if FailsNow(files[n - 1], outcome) then 1 else 0)
  }

  ghost predicate ArchiveFailureAt(failures: seq<FailedFile>, at: int, job: JobRow, file: FileRow, message: string) {
    && 0 <= at < |failures| && failures[at].sourcePath == file.sourcePath && failures[at].originalName == file.originalName
    && failures[at].stage == "archive" && failures[at].message == message
    && Inherits(job.retryFiles, file.sourcePath, failures[at].archiveRef)
  }

  /** The list is the one before, and then the files among the first n that failed now, in order, each with its message and
      the archive it is a replay of. */
  ghost predicate ListsFailed(before: JobRow, failures: seq<FailedFile>, outcome: string -> ArchiveOutcome, n: nat)
    requires n <= |before.files|
  {
    var listed := PersistedFailures(before);
    && listed <= failures && |failures| == |listed| + FailedAmong(before.files, outcome, n)
    && forall i :: 0 <= i < n && FailsNow(before.files[i], outcome) ==>
         ArchiveFailureAt(failures, |listed| + FailedAmong(before.files, outcome, i), before, before.files[i],
                          outcome(before.files[i].archivePath).message)
  }

  lemma FailedListed(before: JobRow, job: JobRow, failures: seq<FailedFile>, outcome: string -> ArchiveOutcome, n: nat)
    requires DealtWith(before, job, outcome, n) && n < |job.files| && job.files[n].errorDetail == ""
    requires outcome(job.files[n].archivePath).ArchiveFailed? && ListsFailed(before, failures, outcome, n)
    ensures ListsFailed(before, failures + [ArchiveFailure(job, n, outcome(job.files[n].archivePath).message)], outcome, n + 1)
  {
    hide InheritedReference, Inherits;
    var failure := ArchiveFailure(job, n, outcome(job.files[n].archivePath).message);
    var longer := failures + [failure];
    InheritedIs(before.retryFiles, before.files[n].sourcePath);
    forall i | 0 <= i < n + 1 && FailsNow(before.files[i], outcome)
      ensures ArchiveFailureAt(longer, |PersistedFailures(before)| + FailedAmong(before.files, outcome, i), before, before.files[i],
                               outcome(before.files[i].archivePath).message)
    {
      if i < n {
        assert ArchiveFailureAt(failures, |PersistedFailures(before)| + FailedAmong(before.files, outcome, i), before,
                                before.files[i], outcome(before.files[i].archivePath).message);
      }
    }
  }

  lemma PassedListed(before: JobRow, failures: seq<FailedFile>, outcome: string -> ArchiveOutcome, n: nat)
    requires n < |before.files| && ListsFailed(before, failures, outcome, n) && !FailsNow(before.files[n], outcome)
    ensures ListsFailed(before, failures, outcome, n + 1)
  {
    hide ArchiveFailureAt, FailsNow;
  }

  lemma NoneListedYet(job: JobRow, outcome: string -> ArchiveOutcome)
    ensures ListsFailed(job, PersistedFailures(job), outcome, 0)
  {
  }

  /** The pass went as far as file n, as the outcomes say. */
  ghost predicate PassedTo(before: JobRow, after: JobRow, outcome: string -> ArchiveOutcome, n: nat) {
    n <= |before.files| && DealtWith(before, after, outcome, n) && ListsFailed(before, PersistedFailures(after), outcome, n)
  }

  /** The pass was cut short by an archive that contradicts its evidence. */
  ghost predicate StoppedAtConflict(before: JobRow, after: JobRow, outcome: string -> ArchiveOutcome) {
    exists i :: 0 <= i < |before.files| && PassedTo(before, after, outcome, i) && before.files[i].errorDetail == ""
                && outcome(before.files[i].archivePath).ArchiveConflict?
  }

  lemma ArchivedDealt(before: JobRow, job: JobRow, outcome: string -> ArchiveOutcome, n: nat)
    requires DealtWith(before, job, outcome, n) && n < |job.files| && job.files[n].errorDetail == ""
    requires outcome(job.files[n].archivePath).Archived? && forall i :: 0 <= i < |job.files| ==> job.files[i].ordinal == i
    ensures DealtWith(before, ArchivedAt(job, n), outcome, n + 1)
  {
  }

  lemma FailedDealt(before: JobRow, job: JobRow, outcome: string -> ArchiveOutcome, n: nat)
    requires DealtWith(before, job, outcome, n) && n < |job.files| && job.files[n].errorDetail == ""
    requires outcome(job.files[n].archivePath).ArchiveFailed? && forall i :: 0 <= i < |job.files| ==> job.files[i].ordinal == i
    ensures DealtWith(before, FailedAt(job, n, outcome(job.files[n].archivePath).message), outcome, n + 1)
  {
  }

  lemma CollectableFiles(workDir: string, node: string, key: string, job: JobRow)
    requires Collectable(workDir, node, key, job)
    ensures forall i :: 0 <= i < |job.files| ==> job.files[i].ordinal == i
    ensures Amended(job, |job.files|) == PersistedFailures(job) && StageOk(job)
  {
    AmendmentIsIdle(workDir, job, |job.files|);
  }

  lemma ArchivedCollectable(workDir: string, node: string, key: string, job: JobRow, n: nat)
    requires Collectable(workDir, node, key, job) && n < |job.files|
    ensures Collectable(workDir, node, key, ArchivedAt(job, n))
  {
    hide JobOk;
    ArchivedJobOk(workDir, node, key, job, job.files[n].ordinal);
  }

  lemma FailedCollectable(workDir: string, node: string, key: string, job: JobRow, n: nat, message: string)
    requires Collectable(workDir, node, key, job) && n < |job.files| && job.files[n].errorDetail == "" && message != ""
    ensures Collectable(workDir, node, key, FailedAt(job, n, message))
  {
    hide JobOk, SourceTargetsBare;
    FailedJobOk(workDir, node, key, job, n, message);
  }

  /** How a pass ends: with every file dealt with, or with an archive that contradicts its evidence. */
  datatype PassEnd = Finished(entries: seq<ManifestEntry>) | Conflicted

  /** One pass over the files of a collecting job. The list it accumulates is the one on disk after every file, so it
      can be cut short anywhere; the entries it returns are those of exactly the files that are not failed. */
  method RunPass(store: AgentQueueStore, ghost workDir: string, key: string, outcome: string -> ArchiveOutcome)
    returns (end: PassEnd)
    requires key in store.jobs && Collectable(workDir, store.node, key, store.jobs[key]) && Explained(outcome)
    modifies store
    ensures key in store.jobs
    ensures store.State() == old(store.State()).(jobs := old(store.jobs)[key := store.jobs[key]])
    ensures Collectable(workDir, store.node, key, store.jobs[key])
    ensures |store.jobs[key].files| == |old(store.jobs)[key].files|
    ensures end.Finished? ==>
              && PassedTo(old(store.jobs)[key], store.jobs[key], outcome, |store.jobs[key].files|)
              && PassOk(store.jobs[key], |store.jobs[key].files|, end.entries, PersistedFailures(store.jobs[key]))
              && ListsArchived(end.entries, store.jobs[key].files, |store.jobs[key].files|)
    ensures end.Conflicted? ==> StoppedAtConflict(old(store.jobs)[key], store.jobs[key], outcome)
  {
    hide JobOk, StageOk, WithArchived, WithError, ArchiveFailure, EntriesOf, Amended, ListsFailed, ListsArchived;
    ghost var before := store.State();
    ghost var first := store.jobs[key];
    CollectableFiles(workDir, store.node, key, store.jobs[key]);
    var failures := PersistedFailures(store.jobs[key]);
    var entries: seq<ManifestEntry> := [];
    NoEntriesYet(first);
    NoneListedYet(first, outcome);
    for i := 0 to |store.jobs[key].files|
      invariant key in store.jobs && store.State() == before.(jobs := before.jobs[key := store.jobs[key]])
      invariant |store.jobs[key].files| == |first.files|
      invariant Collectable(workDir, store.node, key, store.jobs[key]) && DealtWith(first, store.jobs[key], outcome, i)
      invariant ListsFailed(first, failures, outcome, i)
      invariant PassOk(store.jobs[key], i, entries, failures)
    {
      var job := store.jobs[key];
      var file := job.files[i];
      CollectableFiles(workDir, store.node, key, job);
      if file.errorDetail != "" {
        PassedListed(first, failures, outcome, i);
        SkippedPass(job, i, entries, failures);
        continue;
      }
      var result := outcome(file.archivePath);
      if result.ArchiveConflict? {
        assert PassedTo(first, job, outcome, i);
        return Conflicted;
      }
      if result.ArchiveFailed? {
        FailedPass(job, i, entries, failures, result.message);
        FailedCollectable(workDir, store.node, key, job, i, result.message);
        FailedDealt(first, job, outcome, i);
        FailedListed(first, job, failures, outcome, i);
        failures := failures + [ArchiveFailure(job, i, result.message)];
        assert HasOrdinal(job.files, file.ordinal);
        var ok := store.MarkFileFailed(key, file.ordinal, result.message, failures);
        assert store.jobs[key] == FailedAt(job, i, result.message);
        continue;
      }
      ArchivedPass(job, i, entries, failures);
      ArchivedCollectable(workDir, store.node, key, job, i);
      ArchivedDealt(first, job, outcome, i);
      PassedListed(first, failures, outcome, i);
      assert HasOrdinal(job.files, file.ordinal);
      var ok := store.MarkFileArchived(key, file.ordinal);
      assert store.jobs[key] == ArchivedAt(job, i);
      entries := entries + [EntryOf(file)];
    }
    EntriesListArchived(store.jobs[key].files, |store.jobs[key].files|);
    return Finished(entries);
  }

  lemma NoEntriesYet(job: JobRow)
    ensures EntriesOf(job.files, 0) == []
  {
  }

  /** How the stage ends; a queue error leaves the process, and a refused plan becomes a collection failure. */
  datatype StageEnd = ManifestSaved | NothingArchived | RequiresPerson | PlanRefused | QueueError

  /** A collecting job, before or after its files were selected. */
  ghost predicate AtCollecting(workDir: string, node: string, key: string, job: JobRow) {
    && JobOk(workDir, node, key, job) && job.stage.Collecting? && SourceTargetsBare(job.retryFiles)
  }

  /** What is drawn for a job: from its directory when it has no fixed targets, and from exactly those when it has. */
  ghost function DraftFor(q: Queue, workDir: string, job: JobRow, limit: nat, items: seq<Listing>, checks: seq<TargetCheck>)
    : Option<Draft>
    requires |checks| == |job.retryFiles|
  {
    if job.retryFiles == [] then DirectoryDraft(q, SiteOf(workDir, job), limit, items, |items|)
    else TargetDraft(q, SiteOf(workDir, job), job.retryFiles, checks, |checks|)
  }

  /** Selects the files of a job that has none selected: from its directory, or exactly its fixed targets. */
  method SelectFiles(store: AgentQueueStore, workDir: string, key: string, limit: nat, items: seq<Listing>,
                     checks: seq<TargetCheck>)
    returns (refused: bool, saved: bool)
    requires key in store.jobs && AtCollecting(workDir, store.node, key, store.jobs[key])
    requires store.jobs[key].files == [] && store.jobs[key].failures.None?
    requires Distinct(ItemPaths(items)) && |checks| == |store.jobs[key].retryFiles|
    modifies store
    ensures key in store.jobs && store.State() == old(store.State()).(jobs := old(store.jobs)[key := store.jobs[key]])
    ensures var draft := DraftFor(old(store.State()), workDir, old(store.jobs)[key], limit, items, checks);
            && (refused <==> draft.None?)
            && (saved <==>
                  draft.Some? && QueueModel.SaveFilePlan(old(store.State()), key, draft.value.plan, draft.value.failures).Some?)
            && store.jobs[key] == if saved then Planned(old(store.jobs)[key], draft.value) else old(store.jobs)[key]
    ensures saved ==> Collectable(workDir, store.node, key, store.jobs[key])
  {
    hide JobOk, PlanAccepted, DraftFits, DirectoryDraft, TargetDraft, Distinct, SourceTargetsBare;
    var job := store.jobs[key];
    ghost var q := store.State();
    var site := SiteOf(workDir, job);
    var draft;
    if job.retryFiles == [] {
      draft := PlanFromDirectory(store, site, limit, items);
      if draft.Some? {
        DirectoryDraftFits(q, workDir, job, limit, items);
      }
    } else {
      draft := PlanFromRetryTargets(store, site, job.retryFiles, checks);
      if draft.Some? {
        TargetsOfJob(workDir, store.node, key, job);
        TargetDraftFits(q, workDir, job, checks);
      }
    }
    if draft.None? {
      return true, false;
    }
    PlannedJobOk(q, workDir, store.node, key, job, draft.value);
    saved := store.SaveFilePlan(key, draft.value.plan, draft.value.failures);
    assert saved ==> store.jobs[key] == Planned(job, draft.value);
    assert saved <==> QueueModel.SaveFilePlan(q, key, draft.value.plan, draft.value.failures).Some?;
    return false, saved;
  }

  lemma TargetsOfJob(workDir: string, node: string, key: string, job: JobRow)
    requires JobOk(workDir, node, key, job)
    ensures ServerInvariant.TargetsDistinct(job.retryFiles)
  {
    hide FilesOk, ReferencesOk, RequestsOk;
  }

  /** The job with every marked failure listed. */
  function Repaired(job: JobRow): JobRow {
    if Amended(job, |job.files|) == PersistedFailures(job) then job else job.(failures := Some(Amended(job, |job.files|)))
  }

  /** Completes a list that an older version left without a failure it had marked. */
  method AmendFailures(store: AgentQueueStore, key: string)
    requires key in store.jobs
    modifies store
    ensures store.State() == old(store.State()).(jobs := old(store.jobs)[key := Repaired(old(store.jobs)[key])])
  {
    var job := store.jobs[key];
    var amended := PersistedFailures(job);
    for i := 0 to |job.files|
      invariant amended == Amended(job, i)
    {
      var file := job.files[i];
      if file.errorDetail == "" || exists k :: 0 <= k < |amended| && amended[k].sourcePath == file.sourcePath {
        continue;
      }
      amended := amended + [FailedFile(file.sourcePath, file.originalName, "archive", file.errorDetail,
                                       InheritedReference(job.retryFiles, file.sourcePath))];
    }
    if amended != PersistedFailures(job) {
      var ok := store.SaveFileFailures(key, amended);
    }
  }

  /** The job after the pass, without what the end of the stage has written. */
  function Unsettled(before: JobRow, after: JobRow): JobRow {
    after.(stage := before.stage, manifest := before.manifest, retryStage := before.retryStage,
           lastErrorKind := before.lastErrorKind)
  }

  /** What each end of the stage leaves of a job whose files are selected: every file dealt with as the outcomes say, and the
      manifest of those without an error; or a job for a person, as far as the conflict. */
  ghost predicate StageEnds(before: JobRow, after: JobRow, outcome: string -> ArchiveOutcome, end: StageEnd) {
    match end
    case ManifestSaved =>
      && PassedTo(before, Unsettled(before, after), outcome, |before.files|)
      && after.stage.ManifestPending? && after.manifest.Some? && after.manifest.value.request.files != []
      && ListsArchived(after.manifest.value.request.files, after.files, |after.files|)
    case NothingArchived =>
      && PassedTo(before, after, outcome, |before.files|) && ArchivedAmong(after.files, |after.files|) == 0
    case RequiresPerson =>
      && StoppedAtConflict(before, Unsettled(before, after), outcome)
      && after.stage.RequiresAttention? && after.retryStage == Some(Collecting) && after.lastErrorKind == "archive_conflict"
    case PlanRefused => false
    case QueueError => PassedTo(before, after, outcome, |before.files|)
  }

  /** Archives the selected files and saves the manifest of those that succeeded. */
  method ArchiveSelected(store: AgentQueueStore, ghost workDir: string, key: string, outcome: string -> ArchiveOutcome)
    returns (end: StageEnd)
    requires key in store.jobs && Collectable(workDir, store.node, key, store.jobs[key]) && Explained(outcome)
    modifies store
    ensures key in store.jobs && store.State() == old(store.State()).(jobs := old(store.jobs)[key := store.jobs[key]])
    ensures JobOk(workDir, store.node, key, store.jobs[key]) && |store.jobs[key].files| == |old(store.jobs)[key].files|
    ensures StageEnds(old(store.jobs)[key], store.jobs[key], outcome, end)
    ensures end.QueueError? ==>
              ManifestKeyTaken(store.State(), ManifestKey(store.jobs[key].task.node, store.jobs[key].runId))
  {
    hide JobOk, StageOk, PassedTo, EntriesOf, Explained, SourceTargetsBare, ListsArchived, SameWork;
    ghost var before := store.jobs[key];
    var pass := RunPass(store, workDir, key, outcome);
    if pass.Conflicted? {
      AttentionJobOk(store.State(), workDir, key);
      StoppedSame(before, store.jobs[key], outcome);
      ghost var stopped := store.jobs[key];
      var ok := store.MarkRequiresAttention(key, "archive_conflict");
      assert Unsettled(before, store.jobs[key]) == stopped;
      return RequiresPerson;
    }
    SamePass(before, store.jobs[key], outcome);
    if pass.entries == [] {
      NoneArchived(pass.entries, store.jobs[key].files);
      return NothingArchived;
    }
    ManifestJobOk(workDir, store.node, key, store.jobs[key]);
    NoManifestYet(workDir, store.node, key, store.jobs[key]);
    var saved := store.SaveManifest(key, ManifestFor(store.jobs[key], pass.entries));
    return if saved then ManifestSaved else QueueError;
  }

  lemma NoManifestYet(workDir: string, node: string, key: string, job: JobRow)
    requires Collectable(workDir, node, key, job)
    ensures job.manifest.None? && job.stage.Collecting?
  {
    hide FilesOk, ReferencesOk, RequestsOk, IdentityOk;
  }

  lemma NoneArchived(entries: seq<ManifestEntry>, files: seq<FileRow>)
    requires ListsArchived(entries, files, |files|)
    ensures entries == [] <==> ArchivedAmong(files, |files|) == 0
  {
  }

  lemma StoppedSame(before: JobRow, after: JobRow, outcome: string -> ArchiveOutcome)
    requires StoppedAtConflict(before, after, outcome)
    ensures after.stage == before.stage && after.manifest == before.manifest && after.retryStage == before.retryStage
    ensures after.lastErrorKind == before.lastErrorKind
  {
    hide ListsFailed;
  }

  /** The pass changes nothing but files and failures. */
  lemma SamePass(before: JobRow, after: JobRow, outcome: string -> ArchiveOutcome)
    requires PassedTo(before, after, outcome, |after.files|)
    ensures after.stage == before.stage && after.manifest == before.manifest && after.retryStage == before.retryStage
    ensures after.lastErrorKind == before.lastErrorKind && |after.files| == |before.files|
  {
  }

  lemma NothingToRepair(workDir: string, node: string, key: string, job: JobRow)
    requires Collectable(workDir, node, key, job)
    ensures Repaired(job) == job
  {
    hide JobOk, Amended, StageOk;
    CollectableFiles(workDir, node, key, job);
  }

  datatype Selection = Refused | NotSaved | Selected(job: JobRow)

  /** The job with its files selected: as it is if they were selected before, and with what is drawn for it if not. */
  ghost function SelectionFor(q: Queue, workDir: string, key: string, limit: nat, items: seq<Listing>, checks: seq<TargetCheck>)
    : Selection
    requires key in q.jobs && |checks| == |q.jobs[key].retryFiles|
  {
    var job := q.jobs[key];
    if job.files != [] || job.failures.Some? then Selected(job)
    else
      match DraftFor(q, workDir, job, limit, items, checks)
      case None => Refused
      case Some(d) =>
        if QueueModel.SaveFilePlan(q, key, d.plan, d.failures).Some? then Selected(Planned(job, d)) else NotSaved
  }

  /** The collecting stage. Files are selected only if they never were; a manifest is saved exactly when some file is
      archived, and lists exactly the files without an error; and the job stays in good order whatever happens. */
  method RunCollectingStage(store: AgentQueueStore, workDir: string, key: string, limit: nat, items: seq<Listing>,
                            checks: seq<TargetCheck>, outcome: string -> ArchiveOutcome)
    returns (end: StageEnd)
    requires key in store.jobs && AtCollecting(workDir, store.node, key, store.jobs[key]) && Explained(outcome)
    requires Distinct(ItemPaths(items)) && |checks| == |store.jobs[key].retryFiles|
    modifies store
    ensures key in store.jobs && store.State() == old(store.State()).(jobs := old(store.jobs)[key := store.jobs[key]])
    ensures JobOk(workDir, store.node, key, store.jobs[key])
    ensures var selected := SelectionFor(old(store.State()), workDir, key, limit, items, checks);
            match selected
            case Refused => end.PlanRefused? && store.jobs[key] == old(store.jobs)[key]
            case NotSaved => end.QueueError? && store.jobs[key] == old(store.jobs)[key]
            case Selected(job) =>
              && StageEnds(job, store.jobs[key], outcome, end)
              && (end.QueueError? ==>
                    ManifestKeyTaken(store.State(), ManifestKey(store.jobs[key].task.node, store.jobs[key].runId)))
  {
    hide JobOk, StageOk, Collectable, StageEnds, Explained, SourceTargetsBare, Distinct, Repaired, DraftFor, PlanAccepted;
    ghost var job := store.jobs[key];
    if store.jobs[key].files == [] && store.jobs[key].failures.None? {
      var refused, saved := SelectFiles(store, workDir, key, limit, items, checks);
      if refused {
        return PlanRefused;
      }
      if !saved {
        return QueueError;
      }
    } else {
      SelectedFiles(workDir, store.node, key, job);
    }
    NothingToRepair(workDir, store.node, key, store.jobs[key]);
    AmendFailures(store, key);
    end := ArchiveSelected(store, workDir, key, outcome);
  }

  /** A collecting job has selected its files as soon as it has a plan or a marker. */
  lemma SelectedFiles(workDir: string, node: string, key: string, job: JobRow)
    requires AtCollecting(workDir, node, key, job) && !(job.files == [] && job.failures.None?)
    ensures Collectable(workDir, node, key, job)
  {
    hide FilesOk, ReferencesOk, RequestsOk, IdentityOk;
  }

  lemma AttentionJobOk(q: Queue, workDir: string, key: string)
    requires key in q.jobs && Collectable(workDir, q.node, key, q.jobs[key])
    ensures var r := QueueModel.MarkRequiresAttention(q, key, "archive_conflict");
            && r.Some? && r.value == q.(jobs := q.jobs[key := WithAttention(q.jobs[key], "archive_conflict")])
            && JobOk(workDir, q.node, key, WithAttention(q.jobs[key], "archive_conflict"))
  {
    hide JobOk, SameWork, StageOk;
    CollectableFiles(workDir, q.node, key, q.jobs[key]);
    AttentionKeepsStage(q, key, "archive_conflict");
    SideStateKeepsJob(workDir, q.node, key, q.jobs[key], WithAttention(q.jobs[key], "archive_conflict"));
  }
}
