/** When the queue takes the file plan of a job, whichever way the files were chosen. */
module PlanAcceptance {
  import opened Messages
  import opened Decimals
  import opened Keys
  import opened ArchivePaths
  import opened QueueModel
  import opened Planning
  import opened PlanAccounts
  import opened ControlPlane
  import opened JobInvariant
  import opened Protocol
  import opened ProtocolInvariant
  import opened ProtocolTheorems

  ghost predicate SizesKnown(plan: seq<FileRow>) { forall i :: 0 <= i < |plan| ==> plan[i].sizeBytes >= 0 }

  ghost predicate FilesDiffer(plan: seq<FileRow>) {
    forall i, j :: 0 <= i < j < |plan| ==> plan[i].fingerprint != plan[j].fingerprint
  }

  ghost predicate OrdinalsCount(plan: seq<FileRow>) { forall i :: 0 <= i < |plan| ==> plan[i].ordinal == i }

  lemma AcceptedAlone(job: JobRow, plan: seq<FileRow>)
    requires job.files == [] && OrdinalsCount(plan)
    ensures PlanAccepted(job, plan) <==> SizesKnown(plan) && FilesDiffer(plan)
  {
    assert job.files + plan == plan;
    if PlanAccepted(job, plan) {
      forall i, j | 0 <= i < j < |plan| ensures plan[i].fingerprint != plan[j].fingerprint {
        assert !RowsClash((job.files + plan)[i], plan[j]);
      }
    }
  }

  lemma FreshOrdinals(q: Queue, site: Site, d: Draft)
    requires WellFormedDraft(q, site, d)
    ensures OrdinalsCount(d.plan)
  {
    hide InFlight, PlanArchivePath;
    forall i | 0 <= i < |d.plan| ensures d.plan[i].ordinal == i {
      assert FreshRow(site, d.plan[i], i);
    }
  }

  /** A draft for a job without a plan is saved if and only if no size is negative and no two of its rows are the same
      version of the same file. */
  lemma DraftIsSavedIff(q: Queue, key: string, site: Site, d: Draft)
    requires key in q.jobs && q.jobs[key].files == [] && WellFormedDraft(q, site, d)
    ensures QueueModel.SaveFilePlan(q, key, d.plan, d.failures).Some? <==> SizesKnown(d.plan) && FilesDiffer(d.plan)
  {
    hide WellFormedDraft, PlanAccepted, SizesKnown, FilesDiffer;
    FreshOrdinals(q, site, d);
    AcceptedAlone(q.jobs[key], d.plan);
  }

  // ---- directories ----

  /** Paths of one line are told apart by the fingerprints of their files. */
  lemma FingerprintTellsPath(taskId: string, p: string, m: Metadata, q: string, n: Metadata)
    requires OneLine(p) && OneLine(q) && TaskFingerprint(taskId, p, m) == TaskFingerprint(taskId, q, n)
    ensures p == q
  {
    var head := taskId + "\n";
    var restP := "\n" + (ShowInt(m.sizeBytes) + "\n" + m.sourceMtime + "\n" + m.fileHash);
    var restQ := "\n" + (ShowInt(n.sizeBytes) + "\n" + n.sourceMtime + "\n" + n.fileHash);
    assert TaskFingerprint(taskId, p, m) == head + (p + restP) && TaskFingerprint(taskId, q, n) == head + (q + restQ);
    assert (head + (p + restP))[|head|..] == p + restP && (head + (q + restQ))[|head|..] == q + restQ;
    FirstLine(p, restP, q, restQ);
  }

  /** With a time of one line the fingerprint tells size, time and content too: a file that has changed is another one. */
  lemma FingerprintIdentifies(taskId: string, p: string, m: Metadata, q: string, n: Metadata)
    requires OneLine(p) && OneLine(q) && OneLine(m.sourceMtime) && OneLine(n.sourceMtime)
    ensures TaskFingerprint(taskId, p, m) == TaskFingerprint(taskId, q, n) <==> p == q && m == n
  {
    if TaskFingerprint(taskId, p, m) == TaskFingerprint(taskId, q, n) {
      FingerprintTellsPath(taskId, p, m, q, n);
      var head := taskId + "\n" + p + "\n";
      var endM, endN := "\n" + m.fileHash, "\n" + n.fileHash;
      var timeM, timeN := "\n" + (m.sourceMtime + endM), "\n" + (n.sourceMtime + endN);
      assert TaskFingerprint(taskId, p, m) == head + (ShowInt(m.sizeBytes) + timeM);
      assert TaskFingerprint(taskId, q, n) == head + (ShowInt(n.sizeBytes) + timeN);
      assert (head + (ShowInt(m.sizeBytes) + timeM))[|head|..] == ShowInt(m.sizeBytes) + timeM;
      assert (head + (ShowInt(n.sizeBytes) + timeN))[|head|..] == ShowInt(n.sizeBytes) + timeN;
      NumeralIsOneLine(m.sizeBytes);
      NumeralIsOneLine(n.sizeBytes);
      FirstLine(ShowInt(m.sizeBytes), timeM, ShowInt(n.sizeBytes), timeN);
      ShowIntInjective(m.sizeBytes, n.sizeBytes);
      assert timeM[1..] == m.sourceMtime + endM && timeN[1..] == n.sourceMtime + endN;
      FirstLine(m.sourceMtime, endM, n.sourceMtime, endN);
      assert endM[1..] == m.fileHash && endN[1..] == n.fileHash;
    }
  }

  /** The row is the planned form of the listed file. */
  ghost predicate RowOf(taskId: string, row: FileRow, item: Listing) {
    && item.inspection.Readable? && row.sourcePath == item.localPath && row.sizeBytes == item.inspection.metadata.sizeBytes
    && row.fingerprint == TaskFingerprint(taskId, item.localPath, item.inspection.metadata)
  }

  ghost predicate RowFrom(taskId: string, row: FileRow, items: seq<Listing>) {
    exists k :: 0 <= k < |items| && RowOf(taskId, row, items[k])
  }

  lemma {:induction false} DirectoryRows(q: Queue, site: Site, limit: nat, items: seq<Listing>, n: nat)
    requires n <= |items| && DirectoryDraft(q, site, limit, items, n).Some?
    ensures forall i :: 0 <= i < |DirectoryDraft(q, site, limit, items, n).value.plan| ==>
              RowFrom(site.taskId, DirectoryDraft(q, site, limit, items, n).value.plan[i], items)
  {
    hide Occupied, PlanAllowed, TaskFingerprint, PlanArchivePath;
    if n > 0 {
      DirectoryRows(q, site, limit, items, n - 1);
      var plan := DirectoryDraft(q, site, limit, items, n).value.plan;
      var before := DirectoryDraft(q, site, limit, items, n - 1).value.plan;
      if plan != before {
        assert RowOf(site.taskId, plan[|before|], items[n - 1]);
      }
    }
  }

  predicate Listable(item: Listing) {
    OneLine(item.localPath) && (item.inspection.Readable? ==> item.inspection.metadata.sizeBytes >= 0)
  }

  /** A directory plan is always saved, as long as no path in the listing runs over a line. */
  lemma DirectoryPlanIsSaved(w: World, s: Sys, key: string, limit: nat, items: seq<Listing>)
    requires NeedsPlan(s, key) && Distinct(ItemPaths(items)) && forall i :: 0 <= i < |items| ==> Listable(items[i])
    requires DirectoryDraft(s.queue, SiteOf(w.workDir, s.queue.jobs[key]), limit, items, |items|).Some?
    ensures var d := DirectoryDraft(s.queue, SiteOf(w.workDir, s.queue.jobs[key]), limit, items, |items|).value;
            QueueModel.SaveFilePlan(s.queue, key, d.plan, d.failures).Some?
  {
    hide WellFormedDraft, Occupied, DirectoryDraft, Distinct, TaskFingerprint, QueueModel.SaveFilePlan, RowFrom, Listable;
    var site := SiteOf(w.workDir, s.queue.jobs[key]);
    var d := DirectoryDraft(s.queue, site, limit, items, |items|).value;
    DirectoryDraftSound(s.queue, site, limit, items, |items|);
    DirectoryRows(s.queue, site, limit, items, |items|);
    forall i | 0 <= i < |d.plan| ensures d.plan[i].sizeBytes >= 0 {
      var m := ListedRow(site.taskId, d.plan[i], items);
    }
    forall i, j | 0 <= i < j < |d.plan| ensures d.plan[i].fingerprint != d.plan[j].fingerprint {
      var m := ListedRow(site.taskId, d.plan[i], items);
      var n := ListedRow(site.taskId, d.plan[j], items);
      if d.plan[i].fingerprint == d.plan[j].fingerprint {
        FingerprintTellsPath(site.taskId, d.plan[i].sourcePath, m, d.plan[j].sourcePath, n);
      }
    }
    DraftIsSavedIff(s.queue, key, site, d);
  }

  lemma ListedRow(taskId: string, row: FileRow, items: seq<Listing>) returns (m: Metadata)
    requires RowFrom(taskId, row, items) && forall i :: 0 <= i < |items| ==> Listable(items[i])
    ensures OneLine(row.sourcePath) && row.sizeBytes >= 0 && row.fingerprint == TaskFingerprint(taskId, row.sourcePath, m)
  {
    hide TaskFingerprint;
    var k :| 0 <= k < |items| && RowOf(taskId, row, items[k]);
    assert Listable(items[k]);
    m := items[k].inspection.metadata;
  }

  // ---- fixed targets ----

  lemma JobTargetsDistinct(w: World, s: Sys, key: string)
    requires Reachable(w, s) && key in s.queue.jobs
    ensures Distinct(TargetPaths(s.queue.jobs[key].retryFiles))
  {
    hide Reachable, Inv, StageOk, ProgressOk, FilesOk, RequestsOk, JobMatches, LiveClean, RawFilesBound, ReferencesOk;
    ReachableInv(w, s);
    RowsOk(w, s, key);
  }

  /** The targets among the first n that are read, in order. */
  ghost function ReadAmong(q: Queue, taskId: string, targets: seq<RetryFile>, checks: seq<TargetCheck>, n: nat): seq<nat>
    requires n <= |targets| == |checks|
  {
    if n == 0 then []
    else
      ReadAmong(q, taskId, targets, checks, n - 1) + (if IsRead(q, taskId, targets[n - 1], checks[n - 1]) then [n - 1] else [])
  }

  lemma {:induction false} ReadAmongExactly(q: Queue, taskId: string, targets: seq<RetryFile>, checks: seq<TargetCheck>, n: nat)
    requires n <= |targets| == |checks|
    ensures var among := ReadAmong(q, taskId, targets, checks, n);
            && (forall k :: 0 <= k < |among| ==> among[k] < n && IsRead(q, taskId, targets[among[k]], checks[among[k]]))
            && (forall k, l :: 0 <= k < l < |among| ==> among[k] < among[l])
            && (forall i :: 0 <= i < n && IsRead(q, taskId, targets[i], checks[i]) ==> i in among)
  {
    hide IsRead;
    if n > 0 {
      ReadAmongExactly(q, taskId, targets, checks, n - 1);
    }
  }

  /** The row plans the target. */
  ghost predicate Plans(taskId: string, row: FileRow, target: RetryFile, check: TargetCheck) {
    && check.Accepted? && row.fingerprint == IdentityOf(taskId, target, check)
    && row.sizeBytes == IdentityMetadata(target, check).sizeBytes
  }

  /** Every target that is read is planned, in order, and nothing else is. */
  lemma {:induction false} DraftPlansWhatIsRead(q: Queue, site: Site, targets: seq<RetryFile>, checks: seq<TargetCheck>, n: nat)
    requires n <= |targets| == |checks| && TargetDraft(q, site, targets, checks, n).Some?
    ensures var plan, among := TargetDraft(q, site, targets, checks, n).value.plan, ReadAmong(q, site.taskId, targets, checks, n);
            |plan| == |among| && forall k :: 0 <= k < |plan| ==>
              among[k] < n && Plans(site.taskId, plan[k], targets[among[k]], checks[among[k]])
  {
    hide InFlight, TaskFingerprint, PlanArchivePath, PlanAllowed;
    if n > 0 {
      DraftPlansWhatIsRead(q, site, targets, checks, n - 1);
      if checks[n - 1].Accepted? {
        PlannedTarget(site, |TargetDraft(q, site, targets, checks, n - 1).value.plan|, targets[n - 1], checks[n - 1]);
      }
    }
  }

  lemma PlannedTarget(site: Site, ordinal: nat, target: RetryFile, check: TargetCheck)
    requires check.Accepted?
    ensures Plans(site.taskId, TargetRow(site, ordinal, target, check), target, check)
  {
    hide TaskFingerprint, PlanArchivePath;
  }

  /** The targets that are read have known sizes, and no two of them are the same version of one file. */
  ghost predicate ReadsDiffer(q: Queue, taskId: string, targets: seq<RetryFile>, checks: seq<TargetCheck>)
    requires |targets| == |checks|
  {
    && (forall i :: 0 <= i < |targets| && IsRead(q, taskId, targets[i], checks[i]) ==>
          IdentityMetadata(targets[i], checks[i]).sizeBytes >= 0)
    && (forall i, j :: 0 <= i < j < |targets| && IsRead(q, taskId, targets[i], checks[i]) && IsRead(q, taskId, targets[j], checks[j])
          ==> IdentityOf(taskId, targets[i], checks[i]) != IdentityOf(taskId, targets[j], checks[j]))
  }

  lemma ReadsDifferInPlan(q: Queue, site: Site, targets: seq<RetryFile>, checks: seq<TargetCheck>)
    requires |targets| == |checks| && TargetDraft(q, site, targets, checks, |checks|).Some?
    ensures var plan := TargetDraft(q, site, targets, checks, |checks|).value.plan;
            SizesKnown(plan) && FilesDiffer(plan) <==> ReadsDiffer(q, site.taskId, targets, checks)
  {
    hide IsRead, IdentityOf, IdentityMetadata, TargetDraft, ReadAmong;
    var plan := TargetDraft(q, site, targets, checks, |checks|).value.plan;
    var among := ReadAmong(q, site.taskId, targets, checks, |checks|);
    ReadAmongExactly(q, site.taskId, targets, checks, |checks|);
    DraftPlansWhatIsRead(q, site, targets, checks, |checks|);
    if SizesKnown(plan) && FilesDiffer(plan) {
      forall i, j | 0 <= i < j < |targets| && IsRead(q, site.taskId, targets[i], checks[i])
                    && IsRead(q, site.taskId, targets[j], checks[j])
        ensures IdentityOf(site.taskId, targets[i], checks[i]) != IdentityOf(site.taskId, targets[j], checks[j])
      {
        var k :| 0 <= k < |among| && among[k] == i;
        var l :| 0 <= l < |among| && among[l] == j;
        assert plan[k].fingerprint != plan[l].fingerprint;
      }
      forall i | 0 <= i < |targets| && IsRead(q, site.taskId, targets[i], checks[i])
        ensures IdentityMetadata(targets[i], checks[i]).sizeBytes >= 0
      {
        var k :| 0 <= k < |among| && among[k] == i;
        assert plan[k].sizeBytes >= 0;
      }
    }
  }

  lemma {:induction false} DraftedIff(q: Queue, site: Site, targets: seq<RetryFile>, checks: seq<TargetCheck>, n: nat)
    requires n <= |targets| == |checks|
    ensures TargetDraft(q, site, targets, checks, n).Some? <==> n == 0 || PlanAllowed(site.taskId, site.runId, 1)
  {
    hide InFlight, TaskFingerprint, PlanArchivePath, SafeSegment, TargetRow;
    if n > 0 {
      DraftedIff(q, site, targets, checks, n - 1);
    }
  }

  /** The plan of the retry is drawn and saved. */
  ghost predicate TargetPlanSaved(w: World, s: Sys, key: string, checks: seq<TargetCheck>)
    requires NeedsPlan(s, key) && |checks| == |s.queue.jobs[key].retryFiles|
  {
    var job := s.queue.jobs[key];
    var draft := TargetDraft(s.queue, SiteOf(w.workDir, job), job.retryFiles, checks, |checks|);
    draft.Some? && QueueModel.SaveFilePlan(s.queue, key, draft.value.plan, draft.value.failures).Some?
  }

  /** A retry in a reachable state, whatever its checks find: the plan is drawn and saved if and only if the ids of task and
      run can stand in a path, and no two of the targets that are accepted and not in flight are the same version of one
      file. */
  lemma TargetPlanIsSavedIff(w: World, s: Sys, key: string, checks: seq<TargetCheck>)
    requires Reachable(w, s) && NeedsPlan(s, key) && |checks| == |s.queue.jobs[key].retryFiles|
    ensures var job := s.queue.jobs[key];
            TargetPlanSaved(w, s, key, checks)
            <==> (checks == [] || PlanAllowed(job.task.id, job.runId, 1))
                 && ReadsDiffer(s.queue, job.task.id, job.retryFiles, checks)
  {
    hide Reachable, WellFormedDraft, TargetDraft, QueueModel.SaveFilePlan, SizesKnown, FilesDiffer, ReadsDiffer, PathsFrom,
      Distinct, PlanAllowed;
    var job := s.queue.jobs[key];
    JobTargetsDistinct(w, s, key);
    var site := SiteOf(w.workDir, job);
    DraftedIff(s.queue, site, job.retryFiles, checks, |checks|);
    if TargetDraft(s.queue, site, job.retryFiles, checks, |checks|).Some? {
      TargetDraftSound(s.queue, site, job.retryFiles, checks, |checks|);
      DraftIsSavedIff(s.queue, key, site, TargetDraft(s.queue, site, job.retryFiles, checks, |checks|).value);
      ReadsDifferInPlan(s.queue, site, job.retryFiles, checks);
    }
  }

  ghost predicate PathsDiffer(targets: seq<RetryFile>, checks: seq<TargetCheck>)
    requires |targets| == |checks|
  {
    && (forall i :: 0 <= i < |targets| && checks[i].Accepted? ==>
          OneLine(IdentityPath(targets[i], checks[i])) && IdentityMetadata(targets[i], checks[i]).sizeBytes >= 0)
    && (forall i, j :: 0 <= i < j < |targets| && checks[i].Accepted? && checks[j].Accepted? ==>
          IdentityPath(targets[i], checks[i]) != IdentityPath(targets[j], checks[j]))
  }

  lemma DifferentPathsDiffer(q: Queue, taskId: string, targets: seq<RetryFile>, checks: seq<TargetCheck>)
    requires |targets| == |checks| && PathsDiffer(targets, checks)
    ensures ReadsDiffer(q, taskId, targets, checks)
  {
    hide InFlight, TaskFingerprint, OneLine, IdentityPath, IdentityMetadata;
    forall i, j | 0 <= i < j < |targets| && IsRead(q, taskId, targets[i], checks[i]) && IsRead(q, taskId, targets[j], checks[j])
      ensures IdentityOf(taskId, targets[i], checks[i]) != IdentityOf(taskId, targets[j], checks[j])
    {
      if IdentityOf(taskId, targets[i], checks[i]) == IdentityOf(taskId, targets[j], checks[j]) {
        FingerprintTellsPath(taskId, IdentityPath(targets[i], checks[i]), IdentityMetadata(targets[i], checks[i]),
                             IdentityPath(targets[j], checks[j]), IdentityMetadata(targets[j], checks[j]));
      }
    }
  }

  /** So the plan of a retry is saved whenever its accepted targets lead to different paths of one line each. */
  lemma TargetPlanIsSaved(w: World, s: Sys, key: string, checks: seq<TargetCheck>)
    requires Reachable(w, s) && NeedsPlan(s, key) && |checks| == |s.queue.jobs[key].retryFiles|
    requires PlanAllowed(s.queue.jobs[key].task.id, s.queue.jobs[key].runId, 1)
    requires PathsDiffer(s.queue.jobs[key].retryFiles, checks)
    ensures TargetPlanSaved(w, s, key, checks)
  {
    hide Reachable, TargetPlanSaved, ReadsDiffer, PathsDiffer, PlanAllowed;
    DifferentPathsDiffer(s.queue, s.queue.jobs[key].task.id, s.queue.jobs[key].retryFiles, checks);
    TargetPlanIsSavedIff(w, s, key, checks);
  }

  /** A listed path that is canonical leads to itself. */
  predicate LeadsToItself(target: RetryFile, check: TargetCheck) {
    check.Accepted? ==> OneLine(target.sourcePath) && IdentityMetadata(target, check).sizeBytes >= 0
                        && (target.inputType.SourceInput? ==> check.readPath == target.sourcePath)
  }

  /** In particular whenever every accepted target still has the path that it was listed under. */
  lemma OwnPathsAreSaved(w: World, s: Sys, key: string, checks: seq<TargetCheck>)
    requires Reachable(w, s) && NeedsPlan(s, key) && |checks| == |s.queue.jobs[key].retryFiles|
    requires PlanAllowed(s.queue.jobs[key].task.id, s.queue.jobs[key].runId, 1)
    requires forall i :: 0 <= i < |checks| ==> LeadsToItself(s.queue.jobs[key].retryFiles[i], checks[i])
    ensures TargetPlanSaved(w, s, key, checks)
  {
    hide Reachable, TargetPlanSaved, OneLine, PlanAllowed;
    var targets := s.queue.jobs[key].retryFiles;
    JobTargetsDistinct(w, s, key);
    forall i, j | 0 <= i < j < |targets| ensures targets[i].sourcePath != targets[j].sourcePath {
      assert TargetPaths(targets)[i] != TargetPaths(targets)[j];
    }
    assert forall i :: 0 <= i < |checks| && checks[i].Accepted? ==> IdentityPath(targets[i], checks[i]) == targets[i].sourcePath;
    TargetPlanIsSaved(w, s, key, checks);
  }

  // ---- a list from another client ----

  /** Any two different texts can be reported as failed files, and are retried as two source targets: the control plane does
      not know that they lead to one file. */
  lemma AnyTwoPathsAreRetried(s: Server, runId: string, parent: RunRow, a: FailedFile, b: FailedFile)
    requires a.sourcePath != b.sourcePath && a.sourcePath != "" && b.sourcePath != ""
    requires a.originalName != "" && b.originalName != ""
    requires a.archiveRef == "" && b.archiveRef == ""
    ensures FailedFilesValid(s.rawFiles, runId, None, Failed, [a, b])
    ensures ResolveRetryFiles(s, parent, [a, b], 2)
            == Some([RetryFile(SourceInput, a.sourcePath, a.originalName, "", "", 0, "", ""),
                     RetryFile(SourceInput, b.sourcePath, b.originalName, "", "", 0, "", "")])
  {
    assert ResolveRetryFiles(s, parent, [a, b], 0) == Some([]);
    var first, second := ResolveFile(s, parent, a).value, ResolveFile(s, parent, b).value;
    assert [] + [first] == [first] && [first] + [second] == [first, second];
    assert ResolveRetryFiles(s, parent, [a, b], 1) == Some([first]);
  }

  /** When two source targets do lead to one file that no pending job has, the queue refuses the plan, and refuses it again
      at every later attempt that finds them so, whatever has become of the other jobs. */
  lemma {:induction false} AliasedTargetsAreRefused(q: Queue, key: string, site: Site, targets: seq<RetryFile>,
                                                   checks: seq<TargetCheck>, i: nat, j: nat)
    requires key in q.jobs && q.jobs[key].files == [] && Distinct(TargetPaths(targets)) && i < j < |targets| == |checks|
    requires TargetDraft(q, site, targets, checks, |checks|).Some?
    requires targets[i].inputType.SourceInput? && targets[j].inputType.SourceInput?
    requires checks[i].Accepted? && checks[j] == checks[i]
    requires !InFlight(q, site.taskId, TaskFingerprint(site.taskId, checks[i].readPath, checks[i].metadata))
    ensures var d := TargetDraft(q, site, targets, checks, |checks|).value;
            QueueModel.SaveFilePlan(q, key, d.plan, d.failures).None?
  {
    hide InFlight, TaskFingerprint, TargetDraft, QueueModel.SaveFilePlan, SizesKnown, FilesDiffer, WellFormedDraft, PathsFrom, Distinct;
    TargetDraftSound(q, site, targets, checks, |checks|);
    DraftIsSavedIff(q, key, site, TargetDraft(q, site, targets, checks, |checks|).value);
    ReadsDifferInPlan(q, site, targets, checks);
    assert IsRead(q, site.taskId, targets[i], checks[i]) && IsRead(q, site.taskId, targets[j], checks[j]);
    assert IdentityOf(site.taskId, targets[i], checks[i]) == IdentityOf(site.taskId, targets[j], checks[j]);
  }
}
