/** The pass over the files of a collecting job, and the saving of its manifest and its report, keep the joint
    invariant. */
module PassSteps {
  import opened Messages
  import opened QueueModel
  import opened Reporting
  import opened ControlPlane
  import opened ServerInvariant
  import opened JobInvariant
  import opened Protocol
  import opened ProtocolInvariant
  import opened AgentSteps

  lemma OnlyWorkerChanges(w: World, s: Sys, t: Sys)
    requires Inv(w, s) && t == s.(worker := t.worker)
    requires WorkerOk(s.queue.jobs, s.server, s.net, s.repeated, t.worker)
    ensures Inv(w, t)
  {
    hide JobsOk, JobsMatch, KeysClean, ServerOk, RunsOk, RecordsEvidenced, ReceiptsFromNet, NetOk, CandidatesOk,
      ProcessedOk, OneHolder, WorkerOk;
  }

  /** A list in the queue is never missing a marked failure, so the pass starts from it unchanged. */
  lemma PassStartKeeps(w: World, s: Sys, t: Sys, key: string)
    requires Inv(w, s) && PassStart(s, t, key)
    ensures Inv(w, t) && t.queue == s.queue
  {
    hide Inv, JobMatches, StageOk, ProgressOk, JobOk, FilesOk, LiveClean;
    var job := s.queue.jobs[key];
    RowsOk(w, s, key);
    RowParts(w, s, key, job);
    AmendmentIsIdle(w.workDir, job, |job.files|);
    OnlyWorkerChanges(w, s, t);
  }

  lemma PassSkipKeeps(w: World, s: Sys, t: Sys)
    requires Inv(w, s) && PassSkip(s, t)
    ensures Inv(w, t)
  {
    hide Inv;
    WorkerParts(w, s);
    SkippedPass(s.queue.jobs[s.worker.key], s.worker.next, s.worker.entries, s.worker.failures);
    OnlyWorkerChanges(w, s, t);
  }

  lemma SkippedPass(job: JobRow, next: nat, entries: seq<ManifestEntry>, failures: seq<FailedFile>)
    requires PassOk(job, next, entries, failures) && next < |job.files| && job.files[next].errorDetail != ""
    ensures PassOk(job, next + 1, entries, failures)
  {
  }

  lemma {:induction false} EntriesFrame(a: seq<FileRow>, b: seq<FileRow>, n: nat)
    requires n <= |a| == |b|
    requires forall i :: 0 <= i < n ==>
               (a[i].errorDetail == "" <==> b[i].errorDetail == "") && (a[i].errorDetail == "" ==> EntryOf(b[i]) == EntryOf(a[i]))
    ensures EntriesOf(b, n) == EntriesOf(a, n)
  {
    if n > 0 {
      EntriesFrame(a, b, n - 1);
    }
  }

  lemma OrdinalsAreIndices(workDir: string, job: JobRow)
    requires FilesOk(workDir, job)
    ensures forall i :: 0 <= i < |job.files| ==> job.files[i].ordinal == i
  {
  }

  function ArchivedAt(job: JobRow, i: nat): JobRow
    requires i < |job.files|
  {
    job.(files := WithArchived(job.files, job.files[i].ordinal))
  }

  lemma ArchivedPass(job: JobRow, next: nat, entries: seq<ManifestEntry>, failures: seq<FailedFile>)
    requires PassOk(job, next, entries, failures) && next < |job.files| && job.files[next].errorDetail == ""
    requires forall i :: 0 <= i < |job.files| ==> job.files[i].ordinal == i
    ensures PassOk(ArchivedAt(job, next), next + 1, entries + [EntryOf(job.files[next])], failures)
    ensures SameInputs(job.files, ArchivedAt(job, next).files)
  {
    EntriesFrame(job.files, ArchivedAt(job, next).files, next + 1);
  }

  lemma ArchivedMatches(w: World, s: Sys, key: string, job: JobRow, i: nat)
    requires JobMatches(w, s.queue.node, s.server, s.begun, key, job) && i < |job.files| && job.report.None?
    ensures JobMatches(w, s.queue.node, s.server, s.begun, key, ArchivedAt(job, i))
  {
    hide JobRunOk;
    RunOkSame(s.queue.node, s.server, s.begun, key, job, ArchivedAt(job, i));
  }

  lemma ArchivedRow(w: World, s: Sys, key: string, job: JobRow, i: nat)
    requires RowOk(w, s, key, job) && job.stage.Collecting? && i < |job.files|
    ensures RowOk(w, s, key, ArchivedAt(job, i))
  {
    hide JobMatches, FilesOk, StageOk, LiveClean, JobOk, WithArchived;
    RowParts(w, s, key, job);
    ArchivedMatches(w, s, key, job, i);
    ArchivedJobOk(w.workDir, s.queue.node, key, job, job.files[i].ordinal);
    if key !in s.repeated {
      WorkingClean(s.server, s.net, key, job, ArchivedAt(job, i));
    }
  }

  lemma PassArchivedKeeps(w: World, s: Sys, t: Sys)
    requires Inv(w, s) && PassArchived(s, t)
    ensures Inv(w, t)
  {
    hide Inv, JobMatches, FilesOk, StageOk, ProgressOk, RowOk, JobOk, OneHolder, HasOrdinal;
    WorkerParts(w, s);
    HolderPart(w, s);
    var key, next := s.worker.key, s.worker.next;
    var job := s.queue.jobs[key];
    RowsOk(w, s, key);
    RowParts(w, s, key, job);
    OrdinalsAreIndices(w.workDir, job);
    ArchivedPass(job, next, s.worker.entries, s.worker.failures);
    hide WithArchived, SameInputs, EntriesOf;
    ArchivedRow(w, s, key, job, next);
    OneHolderFrame(s.queue.jobs, t.queue.jobs, key);
    JobStepKeeps(w, s, t, key, ArchivedAt(job, next));
  }

  lemma FailedPass(job: JobRow, next: nat, entries: seq<ManifestEntry>, failures: seq<FailedFile>, message: string)
    requires PassOk(job, next, entries, failures) && next < |job.files| && job.files[next].errorDetail == "" && message != ""
    requires forall i :: 0 <= i < |job.files| ==> job.files[i].ordinal == i
    ensures PassOk(FailedAt(job, next, message), next + 1, entries, failures + [ArchiveFailure(job, next, message)])
    ensures SameFingerprints(job.files, FailedAt(job, next, message).files)
  {
    EntriesFrame(job.files, FailedAt(job, next, message).files, next);
  }

  predicate SameFingerprints(a: seq<FileRow>, b: seq<FileRow>) {
    |a| == |b| && forall i :: 0 <= i < |a| ==> b[i].fingerprint == a[i].fingerprint
  }

  lemma HoldersSame(a: map<string, JobRow>, b: map<string, JobRow>, key: string)
    requires OneHolder(a) && key in a && key in b && b == a[key := b[key]]
    requires b[key].task == a[key].task && SameFingerprints(a[key].files, b[key].files)
    ensures OneHolder(b)
  {
    forall k, l, taskId, fp | Holds(b, k, taskId, fp) && Holds(b, l, taskId, fp) ensures k == l {
      assert Holds(a, k, taskId, fp) && Holds(a, l, taskId, fp) by {
        var i :| 0 <= i < |b[k].files| && b[k].files[i].fingerprint == fp;
        var j :| 0 <= j < |b[l].files| && b[l].files[j].fingerprint == fp;
        assert a[k].files[i].fingerprint == fp && a[l].files[j].fingerprint == fp;
      }
    }
  }

  lemma FailedMatches(w: World, s: Sys, key: string, job: JobRow, i: nat, message: string)
    requires JobMatches(w, s.queue.node, s.server, s.begun, key, job) && i < |job.files| && job.report.None?
    ensures JobMatches(w, s.queue.node, s.server, s.begun, key, FailedAt(job, i, message))
    ensures SourceTargetsBare(job.retryFiles)
  {
    RunOkSame(s.queue.node, s.server, s.begun, key, job, FailedAt(job, i, message));
  }

  lemma FailedRow(w: World, s: Sys, key: string, job: JobRow, i: nat, message: string)
    requires RowOk(w, s, key, job) && job.stage.Collecting? && i < |job.files| && job.files[i].errorDetail == "" && message != ""
    ensures RowOk(w, s, key, FailedAt(job, i, message))
  {
    hide JobMatches, FilesOk, StageOk, LiveClean, JobOk, WithError, ArchiveFailure, SourceTargetsBare;
    RowParts(w, s, key, job);
    FailedMatches(w, s, key, job, i, message);
    FailedJobOk(w.workDir, s.queue.node, key, job, i, message);
    if key !in s.repeated {
      WorkingClean(s.server, s.net, key, job, FailedAt(job, i, message));
    }
  }

  lemma PassFailedKeeps(w: World, s: Sys, t: Sys, message: string)
    requires Inv(w, s) && PassFailed(s, t, message)
    ensures Inv(w, t)
  {
    hide Inv, JobMatches, FilesOk, StageOk, ProgressOk, RowOk, JobOk, OneHolder, ArchiveFailure, HasOrdinal;
    WorkerParts(w, s);
    HolderPart(w, s);
    var key, next := s.worker.key, s.worker.next;
    var job := s.queue.jobs[key];
    RowsOk(w, s, key);
    RowParts(w, s, key, job);
    OrdinalsAreIndices(w.workDir, job);
    FailedPass(job, next, s.worker.entries, s.worker.failures, message);
    hide WithError, EntriesOf, SameFingerprints;
    FailedRow(w, s, key, job, next, message);
    HoldersSame(s.queue.jobs, t.queue.jobs, key);
    JobStepKeeps(w, s, t, key, FailedAt(job, next, message));
  }

  // ---- manifest ----

  lemma ManifestClean(server: Server, net: set<Msg>, key: string, job: JobRow, m: ManifestRequest)
    requires LiveClean(server, net, key, job) && job.stage.Collecting? && job.manifest.None?
    ensures LiveClean(server, net, key, WithManifest(job, m))
  {
    forall msg | msg in net && msg.key == key ensures Persisted(WithManifest(job, m), msg) {
      assert Persisted(job, msg);
    }
  }

  lemma SaveManifestKeeps(w: World, s: Sys, t: Sys)
    requires Inv(w, s) && Protocol.SaveManifest(s, t)
    ensures Inv(w, t)
  {
    hide Inv, FilesOk, StageOk, LiveClean, JobOk, OneHolder, ManifestKeyTaken, FilesBound, ReportGood;
    WorkerParts(w, s);
    HolderPart(w, s);
    var key := s.worker.key;
    var job := s.queue.jobs[key];
    RowsOk(w, s, key);
    RowParts(w, s, key, job);
    var after := WithManifest(job, ManifestFor(job, s.worker.entries));
    ManifestJobOk(w.workDir, s.queue.node, key, job);
    RunOkSame(s.queue.node, s.server, s.begun, key, job, after);
    assert ReportGood(w, s.server, after) by {
      SameReport(w, s.server, job, after);
    }
    hide JobRunOk;
    if key !in s.repeated {
      ManifestClean(s.server, s.net, key, job, ManifestFor(job, s.worker.entries));
    }
    OneHolderFrame(s.queue.jobs, t.queue.jobs, key);
    JobStepKeeps(w, s, t, key, after);
  }

  lemma SameReport(w: World, server: Server, a: JobRow, b: JobRow)
    requires ReportGood(w, server, a) && b.report == a.report && b.files == a.files && b.failures == a.failures
    ensures ReportGood(w, server, b)
  {
    assert PersistedFailures(b) == PersistedFailures(a);
  }
}
