/** The protocol on top of a file system that loses power: whatever a manifest lists is on stable storage. */
module ArchiveDurability {
  import opened Messages
  import opened Decimals
  import opened ArchivePaths
  import opened Archive
  import opened QueueModel
  import opened Planning
  import opened Reporting
  import opened ControlPlane
  import opened ServerInvariant
  import opened JobInvariant
  import opened Protocol
  import opened ProtocolInvariant
  import opened AgentSteps
  import opened PassSteps
  import opened DeliverySteps
  import JobHistory
  import opened ProtocolSafety
  import SlotsOnce

  // ---- where archives are ----

  /** What an archive path is planned from. */
  datatype Place = Place(taskId: string, runId: string, ordinal: nat, name: string)

  function Where(root: Path, p: Place): Path { ArchivePath(root, p.taskId, p.runId, p.ordinal, p.name) }

  function PlaceOf(job: JobRow, i: nat): Place
    requires i < |job.files|
  {
    Place(job.task.id, job.runId, i + 1, job.files[i].originalName)
  }

  /** The place is on stable storage, with the bytes that size and hash of the entry show. */
  ghost predicate IsStored(root: Path, f: Fs, p: Place, e: ManifestEntry) {
    exists content :: Shows(Evidence(e.sizeBytes, e.fileHash), content) && Secured(f, Where(root, p), content)
  }

  lemma WhereParts(root: Path, p: Place)
    ensures |Where(root, p)| == |root| + 4 && Where(root, p)[|root| + 2] == p.runId
    ensures Where(root, p)[|root| + 3] == ArchiveFilename(p.ordinal, p.name)
    ensures Where(root, p)[..|Where(root, p)| - 1] == root + ["archive", p.taskId, p.runId]
  {
  }

  /** Only the path itself can be a temporary name, and only in the directory of the same run, under the same ordinal. */
  lemma AvoidsElsewhere(root: Path, p: Place, q: Place)
    requires p.runId != q.runId || p.ordinal != q.ordinal
    ensures Avoids(Where(root, p), Where(root, q))
  {
    hide ArchiveFilename, Where;
    var other, archive := Where(root, p), Where(root, q);
    WhereParts(root, p);
    WhereParts(root, q);
    forall n | 0 < n <= |other| ensures !TempOf(other[..n], archive) {
      if TempOf(other[..n], archive) {
        assert n == |other| && other[..n] == other;
        assert other[..|other| - 1][|root| + 2] == p.runId && archive[..|archive| - 1][|root| + 2] == q.runId;
        OrdinalsTell(p.ordinal, p.name, q.ordinal, q.name);
      }
    }
  }

  lemma OrdinalsTell(m: nat, left: string, n: nat, right: string)
    requires ArchiveFilename(n, right) + ".tmp-" <= ArchiveFilename(m, left)
    ensures m == n
  {
    var long, short := ArchiveFilename(m, left), ArchiveFilename(n, right) + ".tmp-";
    var rest := long[|short|..];
    var x, y := "-" + Sanitized(left), ("-" + Sanitized(right)) + ".tmp-" + rest;
    assert long == short + rest;
    assert Show(m) + x == Show(n) + y;
    DigitPrefixUnique(Show(m), Show(n), x, y);
    ReadShow(m);
    ReadShow(n);
  }

  lemma AvoidsItself(archive: Path)
    requires archive != []
    ensures Avoids(archive, archive)
  {
    ArchiveIsNoTemp(archive);
    forall n | 0 < n <= |archive| ensures !TempOf(archive[..n], archive) {
      assert archive[..|archive|] == archive;
    }
  }

  // ---- what happens to the disk ----

  function PlaceAt(s: Sys): Place
    requires AtFile(s)
  {
    PlaceOf(s.queue.jobs[s.worker.key], s.worker.next)
  }

  /** Whatever is stored stays stored, except possibly under temporary names of the file that is being archived. */
  ghost predicate DiskKeeps(root: Path, s: Sys, f: Fs, g: Fs) {
    forall other, content ::
      Secured(f, other, content) && other != [] && (AtFile(s) ==> Avoids(other, Where(root, PlaceAt(s)))) ==>
        Secured(g, other, content)
  }

  /** A step of the system with what happens to the disk meanwhile; archiving the file at hand has succeeded only when its
      bytes are stored. */
  ghost predicate DiskAllows(root: Path, s: Sys, step: Step, f: Fs, g: Fs) {
    && DiskKeeps(root, s, f, g)
    && (step.PassArchivedStep? && AtFile(s) ==>
          IsStored(root, g, PlaceAt(s), EntryOf(s.queue.jobs[s.worker.key].files[s.worker.next])))
  }

  /** The kernel, a power loss, and every moment of archiving the file at hand are among the things that may happen, in any
      order. */
  lemma DiskKeepsMoments(root: Path, s: Sys, f: Fs, was: seq<Fs>, now: seq<Fs>, i: nat, bytes: string)
    requires AtFile(s) && KeptSince(f, was, now, Where(root, PlaceAt(s)), bytes) && |was| <= i < |now|
    ensures DiskKeeps(root, s, f, now[i])
  {
    hide Secured, Avoids, Safe;
    assert OthersStay(f, now[i], Where(root, PlaceAt(s)));
  }

  lemma DiskKeepsWriteBack(root: Path, s: Sys, f: Fs, g: Fs)
    requires WrittenBack(f, g)
    ensures DiskKeeps(root, s, f, g)
  {
    hide Secured, WrittenBack, Avoids;
    forall other, content | Secured(f, other, content) && other != [] ensures Secured(g, other, content) {
      WriteBackKeepsSecured(f, g, other, content);
    }
  }

  lemma DiskKeepsPowerLoss(root: Path, s: Sys, f: Fs)
    ensures DiskKeeps(root, s, f, PowerLoss(f))
  {
    hide Secured, PowerLoss, Avoids;
    forall other, content | Secured(f, other, content) && other != [] ensures Secured(PowerLoss(f), other, content) {
      PowerLossKeepsSecured(f, other, content);
    }
  }

  lemma DiskKeepsOn(root: Path, s: Sys, f: Fs, g: Fs, h: Fs)
    requires DiskKeeps(root, s, f, g) && DiskKeeps(root, s, g, h)
    ensures DiskKeeps(root, s, f, h)
  {
    hide Secured, Avoids;
  }

  /** Archiving the file at hand, as the executor does it: whatever happens at whatever moment is allowed, and when it
      succeeds, so is the step that marks the file. */
  method ArchiveAtHand(store: FileSystem, root: Path, ghost s: Sys, file: FileRow, ghost p: Place, path: Path, input: string,
                       sequence: nat, ghost bytes: string) returns (outcome: Outcome)
    requires AtFile(s) && file == s.queue.jobs[s.worker.key].files[s.worker.next] && p == PlaceAt(s)
    requires PlanAllowed(p.taskId, p.runId, p.ordinal) && path == Where(root, p)
    requires store.Valid() && Shows(Evidence(file.sizeBytes, file.fileHash), bytes)
    requires path in store.fs.names ==> forall n :: 0 < n <= |path| ==> path[..n] in store.fs.names
    modifies store
    ensures store.Valid() && old(store.history) <= store.history
    ensures forall i :: |old(store.history)| <= i < |store.history| ==> DiskKeeps(root, s, old(store.fs), store.history[i])
    ensures DiskKeeps(root, s, old(store.fs), store.fs)
    ensures outcome.Archived? ==> DiskAllows(root, s, PassArchivedStep, old(store.fs), store.fs)
  {
    hide Secured, Avoids, Safe, ArchiveFilename, DiskKeeps, Lawful, Bounded;
    outcome := RecoverArchive(store, root, path, file.originalName, Evidence(file.sizeBytes, file.fileHash), input, sequence,
                              p.taskId, p.runId, p.ordinal, bytes);
    forall i | |old(store.history)| <= i < |store.history| ensures DiskKeeps(root, s, old(store.fs), store.history[i]) {
      DiskKeepsMoments(root, s, old(store.fs), old(store.history), store.history, i, bytes);
    }
    KeptIsKept(root, s, old(store.fs), store.fs, bytes);
  }

  lemma KeptIsKept(root: Path, s: Sys, f: Fs, g: Fs, bytes: string)
    requires AtFile(s) && Kept(f, g, Where(root, PlaceAt(s)), bytes)
    ensures DiskKeeps(root, s, f, g)
  {
    hide Secured, Avoids, Safe;
  }

  // ---- which files are archived ----

  predicate IsArchived(jobs: map<string, JobRow>, key: string, i: nat) {
    key in jobs && i < |jobs[key].files| && jobs[key].files[i].archived
  }

  /** The files of other jobs are as they were, and those of this one are archived where they were. */
  predicate OnlyJob(a: map<string, JobRow>, b: map<string, JobRow>, key: string) {
    && key in a && key in b && (forall k :: k in b && k != key ==> k in a && b[k] == a[k]) && |b[key].files| == |a[key].files|
    && forall i :: 0 <= i < |a[key].files| ==> b[key].files[i].archived == a[key].files[i].archived
  }

  lemma OnlyJobArchives(a: map<string, JobRow>, b: map<string, JobRow>, key: string)
    requires OnlyJob(a, b, key)
    ensures forall k, i :: IsArchived(b, k, i) ==> IsArchived(a, k, i)
  {
  }

  lemma NewJobArchives(a: map<string, JobRow>, b: map<string, JobRow>, key: string, job: JobRow)
    requires b == a[key := job] && forall i :: 0 <= i < |job.files| ==> !job.files[i].archived
    ensures forall k, i :: IsArchived(b, k, i) ==> IsArchived(a, k, i)
  {
  }

  lemma FewerArchives(a: map<string, JobRow>, key: string)
    ensures forall k, i :: IsArchived(a - {key}, k, i) ==> IsArchived(a, k, i)
  {
  }

  lemma BeginArchives(w: World, s: Sys, step: Step, t: Sys)
    requires Takes(w, s, step, t) && (step.BeginScheduledStep? || step.BeginManualStep?)
    ensures forall k, i :: IsArchived(t.queue.jobs, k, i) ==> IsArchived(s.queue.jobs, k, i)
  {
    hide Calendar.IsRfc3339Utc, IsArchived, ScheduledExecutionKey;
    match step
    case BeginScheduledStep(task, slot, startedAt) =>
      var key := ScheduledExecutionKey(task.node, task.id, slot);
      if t.queue != s.queue {
        NewJobArchives(s.queue.jobs, t.queue.jobs, key, t.queue.jobs[key]);
      }
    case BeginManualStep(c, _) =>
      if t.queue != s.queue {
        NewJobArchives(s.queue.jobs, t.queue.jobs, c.key, t.queue.jobs[c.key]);
      }
  }

  lemma DraftArchives(s: Sys, t: Sys, key: string, site: Site, d: Draft)
    requires NeedsPlan(s, key) && SavesDraft(s, t, key, Some(d)) && WellFormedDraft(s.queue, site, d)
    ensures forall k, i :: IsArchived(t.queue.jobs, k, i) ==> IsArchived(s.queue.jobs, k, i)
  {
    hide InFlight, PlanAccepted, PlanArchivePath, IsArchived;
    assert [] + d.plan == d.plan;
    NewJobArchives(s.queue.jobs, t.queue.jobs, key, t.queue.jobs[key]);
  }

  lemma PlanArchives(w: World, s: Sys, step: Step, t: Sys)
    requires Inv(w, s) && Takes(w, s, step, t) && (step.PlanDirectoryStep? || step.PlanTargetsStep?)
    ensures forall k, i :: IsArchived(t.queue.jobs, k, i) ==> IsArchived(s.queue.jobs, k, i)
  {
    hide Inv, WellFormedDraft, DirectoryDraft, TargetDraft, SavesDraft, Distinct, PathsFrom, IsArchived, JobMatches, StageOk,
      ProgressOk, FilesOk;
    match step
    case PlanDirectoryStep(key, limit, items) =>
      var site := SiteOf(w.workDir, s.queue.jobs[key]);
      var draft := DirectoryDraft(s.queue, site, limit, items, |items|);
      DraftIsSome(s, t, key, draft);
      DirectoryDraftSound(s.queue, site, limit, items, |items|);
      DraftArchives(s, t, key, site, draft.value);
    case PlanTargetsStep(key, checks) =>
      var job := s.queue.jobs[key];
      var draft := TargetDraft(s.queue, SiteOf(w.workDir, job), job.retryFiles, checks, |checks|);
      DraftIsSome(s, t, key, draft);
      RowsOk(w, s, key);
      RowParts(w, s, key, job);
      TargetDraftFits(s.queue, w.workDir, job, checks);
      DraftArchives(s, t, key, SiteOf(w.workDir, job), draft.value);
  }

  lemma DraftIsSome(s: Sys, t: Sys, key: string, draft: Option<Draft>)
    requires SavesDraft(s, t, key, draft)
    ensures draft.Some?
  {
    hide PlanAccepted;
  }

  lemma FailedArchives(s: Sys, t: Sys, message: string)
    requires PassFailed(s, t, message)
    ensures s.worker.Pass? && OnlyJob(s.queue.jobs, t.queue.jobs, s.worker.key)
  {
    hide HasOrdinal;
  }

  lemma BindArchives(w: World, s: Sys, t: Sys, key: string, ids: seq<string>, replayed: bool)
    requires Inv(w, s) && BindManifest(s, t, key, ids, replayed)
    ensures OnlyJob(s.queue.jobs, t.queue.jobs, key)
  {
    hide Inv, RowOk, QueueModel.AcceptManifest, Recorded, StartReplyOk, ReportCommitted;
    WorkerParts(w, s);
    RowsOk(w, s, key);
    RecordedIds(s.server.rawFiles, s.queue.jobs[key].manifest.value.request, ids);
    ManifestBinds(w, s, key, ids);
    BoundArchives(s.queue.jobs[key].files, t.queue.jobs[key].files, ids);
  }

  lemma BoundArchives(files: seq<FileRow>, bound: seq<FileRow>, ids: seq<string>)
    requires BoundUpTo(files, bound, ids, |ids|)
    ensures |bound| == |files| && forall i :: 0 <= i < |files| ==> bound[i].archived == files[i].archived
  {
  }

  lemma ReportArchives(s: Sys, t: Sys, key: string, r: ReportRequest, clean: seq<bool>)
    requires SavesReport(s, t, key, r, clean)
    ensures OnlyJob(s.queue.jobs, t.queue.jobs, key)
  {
    hide ReportKeyTaken;
  }

  lemma AttentionArchives(s: Sys, t: Sys, key: string, errorKind: string)
    requires MarkRequiresAttention(s.queue, key, errorKind).Some?
    requires t.queue == MarkRequiresAttention(s.queue, key, errorKind).value
    ensures OnlyJob(s.queue.jobs, t.queue.jobs, key)
  {
  }

  lemma ConflictArchives(s: Sys, t: Sys)
    requires PassConflict(s, t)
    ensures s.worker.Pass? && OnlyJob(s.queue.jobs, t.queue.jobs, s.worker.key)
  {
    hide QueueModel.MarkRequiresAttention, OnlyJob;
    AttentionArchives(s, t, s.worker.key, "archive_conflict");
  }

  lemma OversizedArchives(s: Sys, t: Sys, key: string)
    requires Oversized(s, t, key)
    ensures OnlyJob(s.queue.jobs, t.queue.jobs, key)
  {
    hide QueueModel.MarkRequiresAttention, OnlyJob;
    AttentionArchives(s, t, key, "payload_too_large");
  }

  lemma ManifestArchives(s: Sys, t: Sys)
    requires Protocol.SaveManifest(s, t)
    ensures s.worker.Pass? && OnlyJob(s.queue.jobs, t.queue.jobs, s.worker.key)
  {
    hide ManifestKeyTaken, ManifestFor;
  }

  lemma ResumeArchives(s: Sys, t: Sys, key: string)
    requires Resume(s, t, key) || RetryAttention(s, t, key)
    ensures OnlyJob(s.queue.jobs, t.queue.jobs, key)
  {
  }

  lemma CallFailsArchives(s: Sys, t: Sys, retryable: bool, errorKind: string)
    requires CallFails(s, t, retryable, errorKind)
    ensures s.worker.Call? && OnlyJob(s.queue.jobs, t.queue.jobs, s.worker.key)
  {
  }

  lemma StartArchives(s: Sys, t: Sys, key: string, answer: StartAnswer)
    requires Protocol.AcceptStart(s, t, key, answer)
    ensures OnlyJob(s.queue.jobs, t.queue.jobs, key)
  {
  }

  lemma PassStartArchives(w: World, s: Sys, t: Sys, key: string)
    requires Inv(w, s) && PassStart(s, t, key)
    ensures t.queue == s.queue
  {
    hide Inv, PassStart;
    PassStartKeeps(w, s, t, key);
  }

  /** No step but the one that follows a successful archiving marks a file as archived. */
  lemma OtherStepsArchiveNothing(w: World, s: Sys, step: Step, t: Sys)
    requires Inv(w, s) && Takes(w, s, step, t) && !step.PassArchivedStep?
    ensures forall k, i :: IsArchived(t.queue.jobs, k, i) ==> IsArchived(s.queue.jobs, k, i)
  {
    hide Inv, IsArchived, OnlyJob, BeginScheduled, BeginManual, PlanDirectory, PlanTargets, PassStart, PassFailed, PassConflict,
      Protocol.SaveManifest, SavesReport, JobTally, Resume, CallFails, Protocol.AcceptStart, BindManifest, Oversized,
      RetryAttention, AddProcessed, TrimProcessed, Handled, FreshDraw, ControlPlane.RequestManualRun, ControlPlane.RequestRetryRun,
      SetTaskEnabled;
    match step
    case BeginScheduledStep(_, _, _) => BeginArchives(w, s, step, t);
    case BeginManualStep(_, _) => BeginArchives(w, s, step, t);
    case PlanDirectoryStep(_, _, _) => PlanArchives(w, s, step, t);
    case PlanTargetsStep(_, _) => PlanArchives(w, s, step, t);
    case PassStartStep(key) => PassStartArchives(w, s, t, key);
    case PassFailedStep(message) =>
      FailedArchives(s, t, message);
      OnlyJobArchives(s.queue.jobs, t.queue.jobs, s.worker.key);
    case BindManifestStep(key, ids, replayed) =>
      BindArchives(w, s, t, key, ids, replayed);
      OnlyJobArchives(s.queue.jobs, t.queue.jobs, key);
    case SaveReportStep(key, unreadable, finishedAt) =>
      var tally := JobTally(s.queue.jobs[key], Reading(w, unreadable), w.check);
      ReportArchives(s, t, key, ReportOf(s.queue.jobs[key], tally, finishedAt), tally.clean);
      OnlyJobArchives(s.queue.jobs, t.queue.jobs, key);
    case FailCollectionStep(key, error, finishedAt) =>
      ReportArchives(s, t, key, CollectionFailureReport(s.queue.jobs[key], error, finishedAt), NoneClean(s.queue.jobs[key]));
      OnlyJobArchives(s.queue.jobs, t.queue.jobs, key);
    case DiscardStep(key, _) => FewerArchives(s.queue.jobs, key);
    case CompleteStep(key, _, _, _) => FewerArchives(s.queue.jobs, key);
    case PassConflictStep => RowArchives(w, s, step, t);
    case SaveManifestStep => RowArchives(w, s, step, t);
    case ResumeStep(_) => RowArchives(w, s, step, t);
    case RetryAttentionStep(_) => RowArchives(w, s, step, t);
    case CallFailsStep(_, _) => RowArchives(w, s, step, t);
    case AcceptStartStep(_, _) => RowArchives(w, s, step, t);
    case OversizedStep(_) => RowArchives(w, s, step, t);
    case _ =>
  }

  lemma RowArchives(w: World, s: Sys, step: Step, t: Sys)
    requires Takes(w, s, step, t)
    requires step.PassConflictStep? || step.SaveManifestStep? || step.ResumeStep? || step.RetryAttentionStep?
             || step.CallFailsStep? || step.AcceptStartStep? || step.OversizedStep?
    ensures forall k, i :: IsArchived(t.queue.jobs, k, i) ==> IsArchived(s.queue.jobs, k, i)
  {
    hide IsArchived, OnlyJob, PassConflict, Protocol.SaveManifest, Resume, CallFails, Protocol.AcceptStart, Oversized,
      RetryAttention;
    var key;
    match step {
      case PassConflictStep =>
        ConflictArchives(s, t);
        key := s.worker.key;
      case SaveManifestStep =>
        ManifestArchives(s, t);
        key := s.worker.key;
      case ResumeStep(k) =>
        ResumeArchives(s, t, k);
        key := k;
      case RetryAttentionStep(k) =>
        ResumeArchives(s, t, k);
        key := k;
      case CallFailsStep(retryable, errorKind) =>
        CallFailsArchives(s, t, retryable, errorKind);
        key := s.worker.key;
      case AcceptStartStep(k, answer) =>
        StartArchives(s, t, k, answer);
        key := k;
      case OversizedStep(k) =>
        OversizedArchives(s, t, k);
        key := k;
    }
    OnlyJobArchives(s.queue.jobs, t.queue.jobs, key);
  }

  /** And that one marks the file at hand. */
  lemma PassArchivesOne(w: World, s: Sys, t: Sys)
    requires Inv(w, s) && PassArchived(s, t)
    ensures AtFile(s)
    ensures forall k, i :: IsArchived(t.queue.jobs, k, i) ==>
              IsArchived(s.queue.jobs, k, i) || (k == s.worker.key && i == s.worker.next)
  {
    hide Inv, JobMatches, StageOk, ProgressOk, RowOk, JobOk, FilesOk, HasOrdinal;
    var key := s.worker.key;
    RowsOk(w, s, key);
    RowParts(w, s, key, s.queue.jobs[key]);
    OrdinalsAreIndices(w.workDir, s.queue.jobs[key]);
  }

  // ---- what is stored ----

  /** Every archived file of a job in the queue is stored. */
  ghost predicate FilesStored(root: Path, jobs: map<string, JobRow>, f: Fs) {
    forall k, i: nat :: IsArchived(jobs, k, i) ==> IsStored(root, f, PlaceOf(jobs[k], i), EntryOf(jobs[k].files[i]))
  }

  /** The path of the entry is planned for the run, and is stored. */
  ghost predicate EntryStored(w: World, root: Path, f: Fs, runId: string, e: ManifestEntry) {
    exists p: Place :: PathOf(w, runId, e, p) && IsStored(root, f, p, e)
  }

  predicate PathOf(w: World, runId: string, e: ManifestEntry, p: Place) {
    p.runId == runId && e.storagePath == PlanArchivePath(w.workDir, p.taskId, p.runId, p.ordinal, p.name)
  }

  ghost predicate ManifestStored(w: World, root: Path, f: Fs, m: ManifestRequest) {
    forall j :: 0 <= j < |m.files| ==> EntryStored(w, root, f, m.runId, m.files[j])
  }

  /** Every manifest that was ever sent lists stored files only. */
  ghost predicate NetStored(w: World, root: Path, net: set<Msg>, f: Fs) {
    forall msg :: msg in net && msg.ManifestMsg? ==> ManifestStored(w, root, f, msg.manifest)
  }

  /** What is stored at a place that the file at hand keeps clear of stays stored. */
  lemma StoredStays(root: Path, s: Sys, f: Fs, g: Fs, p: Place, e: ManifestEntry)
    requires DiskKeeps(root, s, f, g) && IsStored(root, f, p, e)
    requires AtFile(s) ==> p == PlaceAt(s) || p.runId != PlaceAt(s).runId || p.ordinal != PlaceAt(s).ordinal
    ensures IsStored(root, g, p, e)
  {
    hide Secured, Avoids, Shows, Where;
    var content :| Shows(Evidence(e.sizeBytes, e.fileHash), content) && Secured(f, Where(root, p), content);
    WhereParts(root, p);
    if AtFile(s) {
      if p == PlaceAt(s) {
        AvoidsItself(Where(root, p));
      } else {
        AvoidsElsewhere(root, p, PlaceAt(s));
      }
    }
    assert Secured(g, Where(root, p), content);
  }

  /** Two jobs with files have different runs. */
  lemma JobsHaveOwnRuns(w: World, s: Sys, a: string, b: string)
    requires Inv(w, s) && a in s.queue.jobs && b in s.queue.jobs && s.queue.jobs[a].files != []
    requires s.queue.jobs[a].runId == s.queue.jobs[b].runId
    ensures a == b
  {
    hide Inv, StageOk, FilesOk, LiveClean, RawFilesBound, ReferencesOk, FilesBound, ReportGood, TargetsReferenced, SlotOk, RunFits,
      RequestsOk, IdentityOk;
    RowsOk(w, s, a);
    RowsOk(w, s, b);
  }

  lemma FilesStayStored(w: World, root: Path, s: Sys, f: Fs, g: Fs)
    requires Inv(w, s) && DiskKeeps(root, s, f, g) && FilesStored(root, s.queue.jobs, f)
    ensures FilesStored(root, s.queue.jobs, g)
  {
    hide Inv, IsStored, DiskKeeps, EntryOf;
    forall k, i: nat | IsArchived(s.queue.jobs, k, i)
      ensures IsStored(root, g, PlaceOf(s.queue.jobs[k], i), EntryOf(s.queue.jobs[k].files[i]))
    {
      if AtFile(s) && s.queue.jobs[k].runId == s.queue.jobs[s.worker.key].runId {
        JobsHaveOwnRuns(w, s, k, s.worker.key);
      }
      StoredStays(root, s, f, g, PlaceOf(s.queue.jobs[k], i), EntryOf(s.queue.jobs[k].files[i]));
    }
  }

  /** While a job collects, nothing was sent about its run, unless its key was begun again. */
  lemma NothingSentYet(w: World, s: Sys, msg: Msg)
    requires Inv(w, s) && AtFile(s) && msg in s.net && msg.ManifestMsg? && s.repeated == {}
    ensures msg.manifest.runId != PlaceAt(s).runId
  {
    hide Inv, StageOk, FilesOk, RawFilesBound, ReferencesOk, FilesBound, ReportGood, TargetsReferenced, SlotOk, RunFits, IdentityOk,
      ServerOk, RunsOk, NetOk, ReceiptsFromNet, CandidatesOk, ProcessedOk, ReportFits;
    WorkerParts(w, s);
    RowsOk(w, s, s.worker.key);
    ServerParts(w, s);
    NetMessage(w, s, msg);
    KeyOfRun(s, msg.manifest.runId);
  }

  lemma NetMessage(w: World, s: Sys, msg: Msg)
    requires NetOk(w, s.queue.node, s.server, s.begun, s.net) && msg in s.net
    ensures MsgOk(w, s.queue.node, s.server, s.begun, msg)
  {
    hide MsgOk;
  }

  lemma KeyOfRun(s: Sys, runId: string)
    ensures forall a, b :: RunHasKey(s.server, runId, a) && RunHasKey(s.server, runId, b) ==> a == b
  {
  }

  lemma NetStaysStored(w: World, root: Path, s: Sys, f: Fs, g: Fs)
    requires Inv(w, s) && DiskKeeps(root, s, f, g) && NetStored(w, root, s.net, f) && s.repeated == {}
    ensures NetStored(w, root, s.net, g)
  {
    hide Inv, IsStored, DiskKeeps, PathOf, AtFile;
    forall msg | msg in s.net && msg.ManifestMsg? ensures ManifestStored(w, root, g, msg.manifest) {
      if AtFile(s) {
        NothingSentYet(w, s, msg);
      }
      forall j | 0 <= j < |msg.manifest.files| ensures EntryStored(w, root, g, msg.manifest.runId, msg.manifest.files[j]) {
        assert EntryStored(w, root, f, msg.manifest.runId, msg.manifest.files[j]);
        EntryStays(w, root, s, f, g, msg.manifest.runId, msg.manifest.files[j]);
      }
    }
  }

  lemma EntryStays(w: World, root: Path, s: Sys, f: Fs, g: Fs, runId: string, e: ManifestEntry)
    requires DiskKeeps(root, s, f, g) && EntryStored(w, root, f, runId, e) && (AtFile(s) ==> runId != PlaceAt(s).runId)
    ensures EntryStored(w, root, g, runId, e)
  {
    hide IsStored, DiskKeeps, AtFile;
    var p :| PathOf(w, runId, e, p) && IsStored(root, f, p, e);
    StoredStays(root, s, f, g, p, e);
  }

  // ---- a step ----

  /** A file that was archived before the step is the same file after it. */
  lemma SameFile(w: World, s: Sys, step: Step, t: Sys, k: string, i: nat)
    requires Inv(w, s) && Takes(w, s, step, t) && k in s.queue.jobs && k in t.queue.jobs && i < |s.queue.jobs[k].files|
    ensures i < |t.queue.jobs[k].files| && PlaceOf(t.queue.jobs[k], i) == PlaceOf(s.queue.jobs[k], i)
    ensures EntryOf(t.queue.jobs[k].files[i]) == EntryOf(s.queue.jobs[k].files[i])
  {
    hide Inv, Takes, StageOk, FilesOk, JobMatches, LiveClean, JobHistory.DeliveryAdvances;
    JobHistory.StepAdvances(w, s, t, step);
    RowsOk(w, s, k);
    RowParts(w, s, k, s.queue.jobs[k]);
    assert JobHistory.Advances(s.queue.jobs[k], t.queue.jobs[k]);
    assert JobHistory.FileAdvances(s.queue.jobs[k].files[i], t.queue.jobs[k].files[i]);
  }

  lemma FilesAfter(w: World, root: Path, s: Sys, step: Step, t: Sys, f: Fs, g: Fs)
    requires Inv(w, s) && Takes(w, s, step, t) && DiskAllows(root, s, step, f, g) && FilesStored(root, s.queue.jobs, f)
    ensures FilesStored(root, t.queue.jobs, g)
  {
    hide Inv, Takes, IsStored, DiskKeeps, AtFile, EntryOf, PlaceOf;
    FilesStayStored(w, root, s, f, g);
    if step.PassArchivedStep? {
      PassTaken(w, s, step, t);
      PassArchivesOne(w, s, t);
    } else {
      OtherStepsArchiveNothing(w, s, step, t);
    }
    forall k: string, i: nat | IsArchived(t.queue.jobs, k, i)
      ensures IsStored(root, g, PlaceOf(t.queue.jobs[k], i), EntryOf(t.queue.jobs[k].files[i]))
    {
      if IsArchived(s.queue.jobs, k, i) {
        SameFile(w, s, step, t, k, i);
      } else {
        AtHand(s);
        SameFile(w, s, step, t, k, i);
      }
    }
  }

  lemma PassTaken(w: World, s: Sys, step: Step, t: Sys)
    requires Takes(w, s, step, t) && step.PassArchivedStep?
    ensures PassArchived(s, t)
  {
    hide PassArchived;
  }

  lemma AtHand(s: Sys)
    requires AtFile(s)
    ensures s.worker.key in s.queue.jobs && s.worker.next < |s.queue.jobs[s.worker.key].files|
    ensures PlaceAt(s) == PlaceOf(s.queue.jobs[s.worker.key], s.worker.next)
  {
    hide PlaceOf;
  }

  lemma {:induction false} EntryIsOfFile(files: seq<FileRow>, n: nat, e: ManifestEntry) returns (i: nat)
    requires n <= |files| && e in EntriesOf(files, n)
    ensures i < n && files[i].errorDetail == "" && e == EntryOf(files[i])
  {
    if files[n - 1].errorDetail == "" && e == EntryOf(files[n - 1]) {
      i := n - 1;
    } else {
      i := EntryIsOfFile(files, n - 1, e);
    }
  }

  lemma JobRequests(w: World, s: Sys, key: string)
    requires Inv(w, s) && key in s.queue.jobs
    ensures RequestsOk(s.queue.jobs[key]) && FilesOk(w.workDir, s.queue.jobs[key])
  {
    hide Inv, StageOk, ProgressOk, RawFilesBound, ReferencesOk, JobMatches, LiveClean, IdentityOk, RequestsOk, FilesOk;
    RowsOk(w, s, key);
  }

  /** An entry of the manifest of a job is that of one of its archived files. */
  lemma EntryOfArchived(workDir: string, job: JobRow, j: nat) returns (i: nat)
    requires RequestsOk(job) && FilesOk(workDir, job) && job.manifest.Some? && j < |job.manifest.value.request.files|
    ensures i < |job.files| && job.files[i].archived && job.manifest.value.request.files[j] == EntryOf(job.files[i])
    ensures job.manifest.value.request.runId == job.runId
    ensures job.files[i].archivePath == PlanArchivePath(workDir, job.task.id, job.runId, i + 1, job.files[i].originalName)
  {
    hide EntriesOf, EntryOf, PlanArchivePath, UniquePaths, ListedPath;
    i := EntryIsOfFile(job.files, |job.files|, job.manifest.value.request.files[j]);
  }

  /** The manifest of a job lists archived files of its plan. */
  lemma JobManifestStored(w: World, root: Path, s: Sys, f: Fs, key: string)
    requires Inv(w, s) && FilesStored(root, s.queue.jobs, f) && key in s.queue.jobs && s.queue.jobs[key].manifest.Some?
    ensures ManifestStored(w, root, f, s.queue.jobs[key].manifest.value.request)
  {
    hide Inv, RequestsOk, FilesOk, IsStored, PlanArchivePath;
    JobRequests(w, s, key);
    var job := s.queue.jobs[key];
    var m := job.manifest.value.request;
    forall j | 0 <= j < |m.files| ensures EntryStored(w, root, f, m.runId, m.files[j]) {
      var i := EntryOfArchived(w.workDir, job, j);
      assert IsArchived(s.queue.jobs, key, i);
      assert PathOf(w, m.runId, m.files[j], PlaceOf(job, i));
    }
  }

  lemma OnlySendSends(w: World, s: Sys, step: Step, t: Sys)
    requires Takes(w, s, step, t)
    ensures step.SendStep? ==> Send(s, t, step.key)
    ensures !step.SendStep? ==> t.net == s.net
  {
    hide QueueModel.BeginJob, QueueModel.SaveFilePlan, QueueModel.SaveManifest, QueueModel.SaveReport, QueueModel.AcceptManifest,
      QueueModel.CompleteJob, QueueModel.MarkFileArchived, QueueModel.MarkFileFailed, QueueModel.MarkRequiresAttention,
      QueueModel.RecordDeliveryFailure, QueueModel.DiscardStartPending, QueueModel.AcceptStart, QueueModel.ResumeDelivery,
      QueueModel.RetryAttentionJob, DirectoryDraft, TargetDraft, Amended, JobTally, MsgOf, Calendar.IsRfc3339Utc, Distinct,
      NeedsPlan, AtFile, PassDone, ReadyToReport, ReportOf, CollectionFailureReport, ManifestFor, Handled, FreshDraw,
      ControlPlane.RequestManualRun, ControlPlane.RequestRetryRun, SetTaskEnabled;
  }

  lemma SentManifest(s: Sys, t: Sys, key: string)
    requires Send(s, t, key)
    ensures key in s.queue.jobs
    ensures forall msg :: msg in t.net && msg.ManifestMsg? ==>
              msg in s.net || (s.queue.jobs[key].manifest.Some? && msg.manifest == s.queue.jobs[key].manifest.value.request)
  {
  }

  lemma NetAfter(w: World, root: Path, s: Sys, step: Step, t: Sys, f: Fs, g: Fs)
    requires Inv(w, s) && Takes(w, s, step, t) && DiskAllows(root, s, step, f, g) && s.repeated == {}
    requires FilesStored(root, s.queue.jobs, f) && NetStored(w, root, s.net, f)
    ensures NetStored(w, root, t.net, g)
  {
    hide Inv, Takes, IsStored, DiskKeeps, AtFile, FilesStored, ManifestStored, Send;
    NetStaysStored(w, root, s, f, g);
    FilesStayStored(w, root, s, f, g);
    OnlySendSends(w, s, step, t);
    if step.SendStep? {
      SentManifest(s, t, step.key);
      if s.queue.jobs[step.key].manifest.Some? {
        JobManifestStored(w, root, s, g, step.key);
      }
    }
  }

  // ---- whole runs ----

  /** A run of the system on a file system: at every step the disk does what is allowed, and nothing is known of it before. */
  ghost predicate RunsOn(w: World, root: Path, trace: seq<Sys>, steps: seq<Step>, disks: seq<Fs>) {
    && SlotsOnce.Run(w, trace, steps) && |disks| == |trace|
    && forall i :: 0 <= i < |steps| ==> DiskAllows(root, trace[i], steps[i], disks[i], disks[i + 1])
  }

  /** Through crashes and power losses at any moments, as long as no slot is dispatched twice: at every moment every file that
      a job has archived, and every file that a manifest ever listed, is on stable storage under its path, with every
      directory that leads to it, and has the bytes of the size and hash that were sent. */
  lemma {:induction false} ManifestsAreDurable(w: World, root: Path, trace: seq<Sys>, steps: seq<Step>, disks: seq<Fs>, i: nat)
    requires GoodWorld(w) && RunsOn(w, root, trace, steps, disks) && SlotsOnce.SlotsDiffer(steps) && i < |trace|
    ensures FilesStored(root, trace[i].queue.jobs, disks[i]) && NetStored(w, root, trace[i].net, disks[i])
  {
    hide GoodWorld, Inv, Takes, DiskAllows, FilesStored, NetStored, SlotsOnce.SlotsDiffer, Init;
    if i == 0 {
      NothingStoredYet(w, root, trace[0], disks[0]);
    } else {
      ManifestsAreDurable(w, root, trace, steps, disks, i - 1);
      SlotsOnce.NothingIsRepeated(w, trace, steps, i - 1);
      SlotsOnce.RunBehaves(w, trace, steps);
      InvariantHolds(w, trace, i - 1);
      assert Takes(w, trace[i - 1], steps[i - 1], trace[i - 1 + 1]);
      assert DiskAllows(root, trace[i - 1], steps[i - 1], disks[i - 1], disks[i - 1 + 1]);
      FilesAfter(w, root, trace[i - 1], steps[i - 1], trace[i], disks[i - 1], disks[i]);
      NetAfter(w, root, trace[i - 1], steps[i - 1], trace[i], disks[i - 1], disks[i]);
    }
  }

  lemma NothingStoredYet(w: World, root: Path, s: Sys, f: Fs)
    requires Init(s)
    ensures FilesStored(root, s.queue.jobs, f) && NetStored(w, root, s.net, f)
  {
  }
}
