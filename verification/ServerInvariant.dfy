/**
 What every committed transaction of the control plane keeps, whatever requests arrive and from whom.
 Row ids are fresh when they are drawn; nothing else is assumed about the requests.
 */
module ServerInvariant {
  import opened Messages
  import opened Fingerprint
  import opened ControlPlane

  // ---- the invariant ----

  ghost predicate Recorded(rawFiles: map<string, RawFileRow>, m: ManifestRequest, ids: seq<string>) {
    && |ids| == |m.files|
    && forall i :: 0 <= i < |ids| ==> ids[i] != "" && ids[i] in rawFiles && rawFiles[ids[i]] == RawFileOf(m, m.files[i])
  }

  ghost predicate ManifestAnswer(s: Server, id: ReceiptId, m: ManifestRequest)
    requires id in s.receipts
  {
    var receipt := s.receipts[id];
    && ManifestReceiptId(m) == id && receipt.runId == m.runId && receipt.fingerprint == ManifestFingerprint(m)
    && receipt.response.Some? && Recorded(s.rawFiles, m, receipt.response.value.rawFileIds)
  }

  ghost predicate ReportAnswer(s: Server, id: ReceiptId, r: ReportRequest)
    requires id in s.receipts
  {
    var receipt := s.receipts[id];
    && ReportReceiptId(r) == id && receipt.runId == r.runId && receipt.fingerprint == ReportFingerprint(r)
    && receipt.response.Some? && |receipt.response.value.recordIds| == |r.records|
    && RecordsOf(s.records, r.runId) == NewRecords(r, receipt.response.value.recordIds, |r.records|)
    && r.runId in s.runs && Terminal(r.status) && Outcome(s.runs[r.runId], r)
  }

  /** The run row carries the outcome of the report. */
  predicate Outcome(run: RunRow, r: ReportRequest) {
    && run.status == r.status && run.failedFiles == r.failedFiles && run.finishedAt == r.finishedAt
    && run.total == r.total && run.success == r.success && run.failed == r.failed && run.summary == r.summary
  }

  /** Every receipt is complete, and answers the one request it was claimed for. */
  ghost predicate ReceiptOk(s: Server, id: ReceiptId)
    requires id in s.receipts
  {
    && s.receipts[id].runId in s.runs
    && (id.kind.ManifestKind? ==> exists m :: ManifestAnswer(s, id, m))
    && (id.kind.ReportKind? ==> exists r :: ReportAnswer(s, id, r))
  }

  ghost predicate OneReportPerRun(s: Server) {
    forall a, b, runId :: ReportReceiptOf(s, a, runId) && ReportReceiptOf(s, b, runId) ==> a == b
  }

  ghost predicate HasReport(s: Server, runId: string) { exists id :: ReportReceiptOf(s, id, runId) }

  ghost predicate RunOk(s: Server, id: string)
    requires id in s.runs
  {
    var run := s.runs[id];
    && id != "" && run.executionKey != ""
    && (run.trigger.Scheduled? ==> !run.status.Pending? && run.retryFiles.None?)
    && (!HasReport(s, id) ==> RecordsOf(s.records, id) == [])
    && (HasReport(s, id) ==> Terminal(run.status))
    && (run.retryFiles.Some? ==> run.retryFiles.value != [] && TargetsDistinct(run.retryFiles.value))
    && (run.failedFiles.Some? ==> Terminal(run.status) && UniquePaths(run.failedFiles.value)
                                  && forall f :: f in run.failedFiles.value ==> FailureKeepsTarget(run.retryFiles, f))
    && (run.failedFiles.Some? && run.failedFiles.value != [] ==> run.status.Failed? && HasReport(s, id))
    && (run.trigger.Retry? ==> run.retryOf in s.runs && RetriesParent(s, run, s.runs[run.retryOf]))
    && (PendingManual(run) ==> run.taskId in s.tasks && s.tasks[run.taskId].enabled)
  }

  ghost predicate TargetsDistinct(targets: seq<RetryFile>) {
    forall i, j :: 0 <= i < j < |targets| ==> targets[i].sourcePath != targets[j].sourcePath
  }

  /** A failed file of a retry run is one of its targets, and an archive target has not lost its reference. */
  ghost predicate FailureKeepsTarget(retryFiles: Option<seq<RetryFile>>, f: FailedFile) {
    retryFiles.Some? ==>
      && FindTarget(retryFiles.value, f.sourcePath).Some?
      && (FindTarget(retryFiles.value, f.sourcePath).value.inputType.ArchiveInput? ==> f.archiveRef != "")
  }

  /** The target carries the archive that its reference names, as it was recorded for the node and the task of the parent. */
  ghost predicate ReplaysRecorded(s: Server, parent: RunRow, t: RetryFile) {
    && t.archiveRef in s.rawFiles
    && var raw := s.rawFiles[t.archiveRef];
       && t.storagePath == raw.storagePath && t.storagePath != "" && t.fileHash == raw.fileHash && t.fileHash != ""
       && t.sizeBytes == raw.sizeBytes && t.sourceMtime == raw.sourceMtime
       && raw.node == parent.node && raw.runId in s.runs && s.runs[raw.runId].taskId == parent.taskId
  }

  /** The target is what the failed file calls for: a replay of its archive if it carried a reference, and a bare new read
      of the source if not. */
  ghost predicate TargetOf(s: Server, parent: RunRow, t: RetryFile, f: FailedFile) {
    && t.sourcePath == f.sourcePath && t.originalName == f.originalName && t.archiveRef == f.archiveRef
    && if f.archiveRef != "" then t.inputType.ArchiveInput? && ReplaysRecorded(s, parent, t)
       else t.inputType.SourceInput? && t.storagePath == "" && t.fileHash == "" && t.sizeBytes == 0 && t.sourceMtime == ""
  }

  ghost predicate RetriesParent(s: Server, run: RunRow, parent: RunRow) {
    && parent.status.Failed? && parent.failedFiles.Some? && run.retryFiles.Some? && run.taskId == parent.taskId
    && |run.retryFiles.value| == |parent.failedFiles.value|
    && forall i :: 0 <= i < |run.retryFiles.value| ==>
         TargetOf(s, parent, run.retryFiles.value[i], parent.failedFiles.value[i])
  }

  ghost predicate KeysUnique(s: Server) {
    forall a, b :: a in s.runs && b in s.runs && s.runs[a].executionKey == s.runs[b].executionKey ==> a == b
  }

  ghost predicate OnePendingPerTask(s: Server) {
    forall a, b, t :: IsPendingManualOf(s, a, t) && IsPendingManualOf(s, b, t) ==> a == b
  }

  ghost predicate RawFilesOk(s: Server) {
    forall id :: id in s.rawFiles ==> s.rawFiles[id].runId in s.runs
  }

  ghost predicate RecordsOk(s: Server) {
    forall i :: 0 <= i < |s.records| ==>
      && s.records[i].rawFileId in s.rawFiles && s.rawFiles[s.records[i].rawFileId].runId == s.records[i].runId
      && s.records[i].runId in s.runs
  }

  ghost predicate ServerOk(s: Server) {
    && (forall id :: id in s.runs ==> RunOk(s, id))
    && (forall id :: id in s.receipts ==> ReceiptOk(s, id))
    && OneReportPerRun(s) && KeysUnique(s) && OnePendingPerTask(s) && RawFilesOk(s) && RecordsOk(s)
  }

  // ---- how the tables grow ----

  /** Runs keep their identity, move only forward, and never leave a terminal state. */
  predicate RunAdvances(a: RunRow, b: RunRow) {
    && b.taskId == a.taskId && b.node == a.node && b.trigger == a.trigger && b.executionKey == a.executionKey
    && b.scheduledFor == a.scheduledFor && b.retryOf == a.retryOf && b.retryFiles == a.retryFiles
    && (Terminal(a.status) ==> b == a)
    && (a.status.Running? ==> !b.status.Pending?)
  }

  ghost predicate Grows(s: Server, t: Server) {
    && (forall id :: id in s.runs ==> id in t.runs && RunAdvances(s.runs[id], t.runs[id]))
    && (forall id :: id in s.rawFiles ==> id in t.rawFiles && t.rawFiles[id] == s.rawFiles[id])
    && (forall id :: id in s.receipts ==> id in t.receipts && t.receipts[id] == s.receipts[id])
    && s.records <= t.records
  }

  lemma GrowsReflexive(s: Server)
    ensures Grows(s, s)
  {
  }

  lemma GrowsTransitive(s: Server, t: Server, u: Server)
    requires Grows(s, t) && Grows(t, u)
    ensures Grows(s, u)
  {
  }

  // ---- initial state ----

  lemma EmptyServerOk(tasks: map<string, TaskRow>)
    ensures ServerOk(Server(tasks, map[], map[], [], map[]))
  {
  }

  // ---- transactions that leave receipts, raw files and records alone ----

  ghost predicate OnlyRunsChange(s: Server, t: Server) {
    t.receipts == s.receipts && t.records == s.records && t.rawFiles == s.rawFiles && Grows(s, t)
  }

  lemma ReceiptFrame(s: Server, t: Server, id: ReceiptId)
    requires OnlyRunsChange(s, t) && id in s.receipts && ReceiptOk(s, id)
    ensures ReceiptOk(t, id)
  {
    if id.kind.ManifestKind? {
      var m :| ManifestAnswer(s, id, m);
      assert ManifestAnswer(t, id, m);
    } else {
      var r :| ReportAnswer(s, id, r);
      assert ReportAnswer(t, id, r);
    }
  }

  lemma HasReportFrame(s: Server, t: Server, runId: string)
    requires t.receipts == s.receipts
    ensures HasReport(t, runId) <==> HasReport(s, runId)
  {
    if HasReport(s, runId) {
      var id :| ReportReceiptOf(s, id, runId);
      assert ReportReceiptOf(t, id, runId);
    }
    if HasReport(t, runId) {
      var id :| ReportReceiptOf(t, id, runId);
      assert ReportReceiptOf(s, id, runId);
    }
  }

  /** What a retry took from its parent and from the archives stays so: neither ever changes. */
  lemma RetryStaysPrepared(s: Server, t: Server, run: RunRow, after: RunRow)
    requires Grows(s, t) && after.trigger == run.trigger && after.retryOf == run.retryOf && after.retryFiles == run.retryFiles
    requires after.taskId == run.taskId
    requires run.trigger.Retry? ==> run.retryOf in s.runs && RetriesParent(s, run, s.runs[run.retryOf])
    ensures after.trigger.Retry? ==> after.retryOf in t.runs && RetriesParent(t, after, t.runs[after.retryOf])
  {
    hide TargetOf;
    if run.trigger.Retry? {
      var parent := s.runs[run.retryOf];
      assert RunAdvances(parent, t.runs[run.retryOf]);
      forall i | 0 <= i < |run.retryFiles.value|
        ensures TargetOf(t, parent, run.retryFiles.value[i], parent.failedFiles.value[i])
      {
        TargetStays(s, t, parent, run.retryFiles.value[i], parent.failedFiles.value[i]);
      }
    }
  }

  lemma TargetStays(s: Server, t: Server, parent: RunRow, target: RetryFile, f: FailedFile)
    requires Grows(s, t) && TargetOf(s, parent, target, f)
    ensures TargetOf(t, parent, target, f)
  {
    if f.archiveRef != "" {
      var raw := s.rawFiles[target.archiveRef];
      assert RunAdvances(s.runs[raw.runId], t.runs[raw.runId]);
    }
  }

  /** A run row that does not change stays correct. */
  lemma RunFrame(s: Server, t: Server, id: string)
    requires OnlyRunsChange(s, t) && id in s.runs && t.runs[id] == s.runs[id] && RunOk(s, id)
    requires PendingManual(s.runs[id]) ==> s.runs[id].taskId in t.tasks && t.tasks[s.runs[id].taskId].enabled
    ensures RunOk(t, id)
  {
    hide RetriesParent;
    HasReportFrame(s, t, id);
    RetryStaysPrepared(s, t, s.runs[id], t.runs[id]);
  }

  /** The tasks are the same too. */
  lemma OldRunOk(s: Server, t: Server, id: string)
    requires OnlyRunsChange(s, t) && t.tasks == s.tasks && id in s.runs && t.runs[id] == s.runs[id] && RunOk(s, id)
    ensures RunOk(t, id)
  {
    hide Grows, HasReport, RetriesParent, FailureKeepsTarget, TargetsDistinct;
    RunFrame(s, t, id);
  }

  lemma OnlyRunsRows(s: Server, t: Server)
    requires RawFilesOk(s) && RecordsOk(s) && OnlyRunsChange(s, t)
    ensures RawFilesOk(t) && RecordsOk(t)
  {
    hide RunAdvances;
  }

  lemma OnlyRunsFrame(s: Server, t: Server)
    requires ServerOk(s) && OnlyRunsChange(s, t)
    ensures (forall id :: id in t.receipts ==> ReceiptOk(t, id)) && OneReportPerRun(t) && RawFilesOk(t) && RecordsOk(t)
  {
    hide ReceiptOk, RunOk, Grows, RawFilesOk, RecordsOk, KeysUnique, OnePendingPerTask;
    OnlyRunsRows(s, t);
    forall id | id in t.receipts ensures ReceiptOk(t, id) {
      ReceiptFrame(s, t, id);
    }
    forall a, b, runId | ReportReceiptOf(t, a, runId) && ReportReceiptOf(t, b, runId) ensures a == b {
      assert ReportReceiptOf(s, a, runId) && ReportReceiptOf(s, b, runId);
    }
  }

  // ---- a run is added ----

  ghost predicate AddsRun(s: Server, t: Server, newId: string, run: RunRow) {
    newId !in s.runs && newId != "" && t == s.(runs := s.runs[newId := run])
  }

  lemma {:induction false} NoRecordsOfUnknownRun(records: seq<RecordRow>, runId: string)
    requires forall i :: 0 <= i < |records| ==> records[i].runId != runId
    ensures RecordsOf(records, runId) == []
  {
    if records != [] {
      NoRecordsOfUnknownRun(records[..|records| - 1], runId);
    }
  }

  lemma NoReportOfUnknownRun(s: Server, runId: string)
    requires ServerOk(s) && runId !in s.runs
    ensures !HasReport(s, runId) && RecordsOf(s.records, runId) == []
  {
    assert forall id :: id in s.receipts ==> ReceiptOk(s, id);
    NoRecordsOfUnknownRun(s.records, runId);
  }

  /** The row of an accepted or started run, before anything was reported for it. */
  ghost predicate FreshRun(s: Server, run: RunRow) {
    && run.executionKey != "" && run.failedFiles.None? && !Terminal(run.status)
    && (run.trigger.Scheduled? ==> !run.status.Pending? && run.retryFiles.None?)
    && (run.retryFiles.Some? ==> run.retryFiles.value != [] && TargetsDistinct(run.retryFiles.value))
    && (run.trigger.Retry? ==> run.retryOf in s.runs && RetriesParent(s, run, s.runs[run.retryOf]))
    && (PendingManual(run) ==> run.taskId in s.tasks && s.tasks[run.taskId].enabled)
  }

  lemma AddedRunOk(s: Server, t: Server, newId: string, run: RunRow)
    requires ServerOk(s) && AddsRun(s, t, newId, run) && FreshRun(s, run)
    ensures RunOk(t, newId)
  {
    hide ServerOk, RetriesParent, TargetsDistinct, HasReport;
    NoReportOfUnknownRun(s, newId);
    HasReportFrame(s, t, newId);
    RetryStaysPrepared(s, t, run, run);
  }

  lemma KeysAfterAdding(s: Server, t: Server, newId: string, run: RunRow)
    requires KeysUnique(s) && AddsRun(s, t, newId, run) && FindByExecutionKey(s, run.executionKey).None?
    ensures KeysUnique(t)
  {
    forall id | id in s.runs ensures s.runs[id].executionKey != run.executionKey {
      assert !RunHasKey(s, id, run.executionKey);
    }
  }

  lemma AddRunKeepsServer(s: Server, t: Server, newId: string, run: RunRow)
    requires ServerOk(s) && AddsRun(s, t, newId, run) && FreshRun(s, run)
    requires FindByExecutionKey(s, run.executionKey).None?
    requires PendingManual(run) ==> forall id :: !IsPendingManualOf(s, id, run.taskId)
    ensures ServerOk(t) && Grows(s, t)
  {
    hide RunOk, ReceiptOk, HasReport, FreshRun, KeysUnique, OnePendingPerTask, OneReportPerRun, RawFilesOk, RecordsOk;
    OnlyRunsFrame(s, t);
    forall id | id in t.runs ensures RunOk(t, id) {
      if id == newId {
        AddedRunOk(s, t, newId, run);
      } else {
        OldRunOk(s, t, id);
      }
    }
    KeysAfterAdding(s, t, newId, run);
    PendingAfterAdding(s, t, newId, run);
  }

  lemma PendingAfterAdding(s: Server, t: Server, newId: string, run: RunRow)
    requires OnePendingPerTask(s) && AddsRun(s, t, newId, run)
    requires PendingManual(run) ==> forall id :: !IsPendingManualOf(s, id, run.taskId)
    ensures OnePendingPerTask(t)
  {
    forall a, b, task | IsPendingManualOf(t, a, task) && IsPendingManualOf(t, b, task) ensures a == b {
      assert a != newId ==> IsPendingManualOf(s, a, task);
      assert b != newId ==> IsPendingManualOf(s, b, task);
    }
  }

  // ---- a pending run starts or fails ----

  ghost predicate SettlesRun(s: Server, t: Server, id: string, run: RunRow) {
    && id in s.runs && s.runs[id].status.Pending? && t == s.(runs := s.runs[id := run]) && RunAdvances(s.runs[id], run)
    && ((run.status.Running? && run.failedFiles == s.runs[id].failedFiles)
        || (run.status.Failed? && run.failedFiles == Some([])))
  }

  lemma PendingRunHasNoReport(s: Server, id: string)
    requires ServerOk(s) && id in s.runs && s.runs[id].status.Pending?
    ensures !HasReport(s, id) && s.runs[id].failedFiles.None?
  {
    assert RunOk(s, id);
  }

  lemma SettleKeepsServer(s: Server, t: Server, id: string, run: RunRow)
    requires ServerOk(s) && SettlesRun(s, t, id, run)
    ensures ServerOk(t) && Grows(s, t)
  {
    hide RunOk, ReceiptOk, HasReport, OneReportPerRun, RawFilesOk, RecordsOk, OnePendingPerTask;
    OnlyRunsFrame(s, t);
    PendingRunHasNoReport(s, id);
    forall other | other in t.runs ensures RunOk(t, other) {
      assert RunOk(s, other);
      if other == id {
        SettledRunOk(s, t, id, run);
      } else {
        OldRunOk(s, t, other);
      }
    }
    PendingAfterSettling(s, t, id, run);
  }

  lemma PendingAfterSettling(s: Server, t: Server, id: string, run: RunRow)
    requires OnePendingPerTask(s) && SettlesRun(s, t, id, run)
    ensures OnePendingPerTask(t)
  {
    forall a, b, task | IsPendingManualOf(t, a, task) && IsPendingManualOf(t, b, task) ensures a == b {
      assert IsPendingManualOf(s, a, task) && IsPendingManualOf(s, b, task);
    }
  }

  lemma SettledRunOk(s: Server, t: Server, id: string, run: RunRow)
    requires SettlesRun(s, t, id, run) && RunOk(s, id) && !HasReport(s, id) && s.runs[id].failedFiles.None?
    ensures RunOk(t, id)
  {
    hide HasReport, FailureKeepsTarget, TargetsDistinct, RetriesParent;
    HasReportFrame(s, t, id);
    RetryStaysPrepared(s, t, s.runs[id], run);
  }

  // ---- start ----

  /** A start keeps the invariant, whatever it asks for. */
  lemma StartKeepsServer(s: Server, req: StartRequest, newId: string)
    requires ServerOk(s) && newId !in s.runs && newId != ""
    ensures ServerOk(Start(s, req, newId).0) && Grows(s, Start(s, req, newId).0)
  {
    hide ServerOk, Grows;
    GrowsReflexive(s);
    var t := Start(s, req, newId).0;
    if t != s {
      if OperatorStarted(req.trigger) {
        var id := FindByExecutionKey(s, req.executionKey).value;
        SettleKeepsServer(s, t, id, s.runs[id].(status := Running, startedAt := req.startedAt));
      } else {
        AddRunKeepsServer(s, t, newId, t.runs[newId]);
      }
    }
  }

  // ---- manual and retry acceptance ----

  lemma AcceptManualKeepsServer(s: Server, trigger: Trigger, taskId: string, retryOf: string, token: string,
                                targets: seq<RetryFile>, executable: bool, newId: string)
    requires ServerOk(s) && newId !in s.runs && newId != "" && OperatorStarted(trigger) && TargetsDistinct(targets)
    requires trigger.Retry? ==> retryOf in s.runs && RetryPrepared(s, taskId, retryOf, targets)
    ensures var t := AcceptManual(s, trigger, taskId, retryOf, token, targets, executable, newId).0;
            ServerOk(t) && Grows(s, t)
  {
    var t := AcceptManual(s, trigger, taskId, retryOf, token, targets, executable, newId).0;
    if t != s {
      AddRunKeepsServer(s, t, newId, t.runs[newId]);
    }
  }

  ghost predicate RetryPrepared(s: Server, taskId: string, retryOf: string, targets: seq<RetryFile>)
    requires retryOf in s.runs
  {
    var parent := s.runs[retryOf];
    && targets != [] && parent.status.Failed? && parent.failedFiles.Some? && taskId == parent.taskId
    && |targets| == |parent.failedFiles.value|
    && forall i :: 0 <= i < |targets| ==> TargetOf(s, parent, targets[i], parent.failedFiles.value[i])
  }

  lemma {:induction false} ResolvedTargets(s: Server, parent: RunRow, failed: seq<FailedFile>, n: nat)
    requires n <= |failed| && ResolveRetryFiles(s, parent, failed, n).Some?
    ensures var targets := ResolveRetryFiles(s, parent, failed, n).value;
            |targets| == n && forall i :: 0 <= i < n ==> TargetOf(s, parent, targets[i], failed[i])
  {
    if n > 0 {
      ResolvedTargets(s, parent, failed, n - 1);
    }
  }

  /** A retry resolves every failed file of its parent: references become archive replays, the rest source reads. */
  lemma RequestRetryKeepsServer(s: Server, runId: string, token: string, executable: bool, newId: string)
    requires ServerOk(s) && newId !in s.runs && newId != ""
    ensures var t := RequestRetryRun(s, runId, token, executable, newId).0;
            ServerOk(t) && Grows(s, t)
  {
    var t := RequestRetryRun(s, runId, token, executable, newId).0;
    if t != s {
      var parent := s.runs[runId];
      var failed := parent.failedFiles.value;
      ResolvedTargets(s, parent, failed, |failed|);
      var targets := ResolveRetryFiles(s, parent, failed, |failed|).value;
      assert RunOk(s, runId);
      AcceptManualKeepsServer(s, Retry, parent.taskId, runId, token, targets, executable, newId);
    }
  }

  // ---- enabling and disabling ----

  lemma FailPendingGrows(s: Server, taskId: string)
    requires forall id :: id in s.runs ==> RunOk(s, id)
    ensures OnlyRunsChange(s, FailPendingManualRuns(s, taskId))
  {
  }

  lemma FailPendingKeepsServer(s: Server, taskId: string)
    requires ServerOk(s)
    ensures var t := FailPendingManualRuns(s, taskId);
            ServerOk(t) && Grows(s, t) && forall id :: !IsPendingManualOf(t, id, taskId)
  {
    var t := FailPendingManualRuns(s, taskId);
    FailPendingGrows(s, taskId);
    OnlyRunsFrame(s, t);
    forall id | id in t.runs ensures RunOk(t, id) {
      assert RunOk(s, id);
      if t.runs[id] == s.runs[id] {
        RunFrame(s, t, id);
      } else {
        FailedPendingRunOk(s, t, id);
      }
    }
    forall a, b, task | IsPendingManualOf(t, a, task) && IsPendingManualOf(t, b, task) ensures a == b {
      assert IsPendingManualOf(s, a, task) && IsPendingManualOf(s, b, task);
    }
  }

  lemma FailedPendingRunOk(s: Server, t: Server, id: string)
    requires OnlyRunsChange(s, t) && id in s.runs && RunOk(s, id) && PendingManual(s.runs[id])
    requires t.runs[id] == s.runs[id].(status := Failed, failedFiles := Some([]))
    ensures RunOk(t, id)
  {
    hide RetriesParent;
    HasReportFrame(s, t, id);
    RetryStaysPrepared(s, t, s.runs[id], t.runs[id]);
  }

  /** Disabling leaves no pending manual run of the task behind. */
  lemma SetTaskEnabledKeepsServer(s: Server, taskId: string, enabled: bool, executable: bool)
    requires ServerOk(s)
    ensures var t := SetTaskEnabled(s, taskId, enabled, executable);
            && ServerOk(t) && Grows(s, t)
            && (taskId in s.tasks && !enabled ==> !t.tasks[taskId].enabled && forall id :: !IsPendingManualOf(t, id, taskId))
  {
    var t := SetTaskEnabled(s, taskId, enabled, executable);
    if taskId in s.tasks && !(enabled && !executable) {
      var u := if enabled then s else FailPendingManualRuns(s, taskId);
      if !enabled {
        FailPendingKeepsServer(s, taskId);
      }
      TasksChangeKeepsServer(u, t, taskId, enabled);
      GrowsTransitive(s, u, t);
    }
  }

  lemma TasksChangeKeepsServer(s: Server, t: Server, taskId: string, enabled: bool)
    requires ServerOk(s) && taskId in s.tasks
    requires t == s.(tasks := s.tasks[taskId := s.tasks[taskId].(enabled := enabled)])
    requires enabled || forall id :: !IsPendingManualOf(s, id, taskId)
    ensures ServerOk(t) && Grows(s, t)
    ensures forall id, task :: IsPendingManualOf(t, id, task) <==> IsPendingManualOf(s, id, task)
  {
    OnlyRunsFrame(s, t);
    forall id | id in t.runs ensures RunOk(t, id) {
      assert RunOk(s, id) && (enabled || !IsPendingManualOf(s, id, taskId));
      RunFrame(s, t, id);
    }
    forall a, b, task | IsPendingManualOf(t, a, task) && IsPendingManualOf(t, b, task) ensures a == b {
      assert IsPendingManualOf(s, a, task) && IsPendingManualOf(s, b, task);
    }
  }

  // ---- manifest ----

  lemma {:induction false} AddedRawFiles(s: Server, req: ManifestRequest, ids: seq<string>, n: nat)
    requires n <= |req.files| == |ids| && FreshRawFileIds(s, ids)
    ensures var after := AddRawFiles(s.rawFiles, req, ids, n);
            && (forall id :: id in s.rawFiles ==> id in after && after[id] == s.rawFiles[id])
            && (forall i :: 0 <= i < n ==> ids[i] in after && after[ids[i]] == RawFileOf(req, req.files[i]))
            && (forall id :: id in after ==> id in s.rawFiles || after[id].runId == req.runId)
  {
    if n > 0 {
      AddedRawFiles(s, req, ids, n - 1);
    }
  }

  ghost predicate ManifestApplied(s: Server, t: Server, req: ManifestRequest, ids: seq<string>) {
    && |ids| == |req.files| && FreshRawFileIds(s, ids) && req.runId in s.runs && ManifestReceiptId(req) !in s.receipts
    && t == s.(rawFiles := AddRawFiles(s.rawFiles, req, ids, |ids|),
               receipts := s.receipts[ManifestReceiptId(req) :=
                 Receipt(req.runId, ManifestFingerprint(req), Some(ManifestResponse(ids)))])
  }

  lemma ManifestAppliedGrows(s: Server, t: Server, req: ManifestRequest, ids: seq<string>)
    requires ManifestApplied(s, t, req, ids)
    ensures Grows(s, t) && Recorded(t.rawFiles, req, ids)
    ensures forall id :: id in t.rawFiles ==> id in s.rawFiles || t.rawFiles[id].runId == req.runId
    ensures forall id, runId :: ReportReceiptOf(t, id, runId) <==> ReportReceiptOf(s, id, runId)
  {
    AddedRawFiles(s, req, ids, |ids|);
  }

  lemma ManifestKeepsReceipt(s: Server, t: Server, req: ManifestRequest, ids: seq<string>, id: ReceiptId)
    requires ServerOk(s) && ManifestApplied(s, t, req, ids) && Grows(s, t) && Recorded(t.rawFiles, req, ids)
    requires id in t.receipts
    ensures ReceiptOk(t, id)
  {
    if id == ManifestReceiptId(req) {
      assert ManifestAnswer(t, id, req);
    } else {
      assert ReceiptOk(s, id);
      if id.kind.ManifestKind? {
        var m :| ManifestAnswer(s, id, m);
        assert ManifestAnswer(t, id, m);
      } else {
        var r :| ReportAnswer(s, id, r);
        assert ReportAnswer(t, id, r);
      }
    }
  }

  lemma ManifestKeepsRun(s: Server, t: Server, req: ManifestRequest, ids: seq<string>, id: string)
    requires ManifestApplied(s, t, req, ids) && Grows(s, t) && id in s.runs && RunOk(s, id)
    requires forall x, runId :: ReportReceiptOf(t, x, runId) <==> ReportReceiptOf(s, x, runId)
    ensures RunOk(t, id)
  {
    hide RetriesParent, Grows, FailureKeepsTarget, TargetsDistinct;
    assert HasReport(t, id) <==> HasReport(s, id);
    RetryStaysPrepared(s, t, s.runs[id], t.runs[id]);
  }

  lemma ManifestEffect(s: Server, req: ManifestRequest, ids: seq<string>)
    requires |ids| == |req.files| && FreshRawFileIds(s, ids)
    ensures var t := AcceptManifest(s, req, ids).0; t == s || ManifestApplied(s, t, req, ids)
  {
  }

  lemma AppliedManifestKeepsServer(s: Server, t: Server, req: ManifestRequest, ids: seq<string>)
    requires ServerOk(s) && ManifestApplied(s, t, req, ids)
    ensures ServerOk(t) && Grows(s, t)
  {
    hide RunOk, ReceiptOk, Recorded, AddRawFiles, FreshRawFileIds;
    ManifestAppliedGrows(s, t, req, ids);
    forall id | id in t.receipts ensures ReceiptOk(t, id) {
      ManifestKeepsReceipt(s, t, req, ids, id);
    }
    forall id | id in t.runs ensures RunOk(t, id) {
      ManifestKeepsRun(s, t, req, ids, id);
    }
    PendingFrame(s, t);
  }

  /** A manifest keeps the invariant: its receipt is committed complete, with the raw files it answers. */
  lemma AcceptManifestKeepsServer(s: Server, req: ManifestRequest, ids: seq<string>)
    requires ServerOk(s) && |ids| == |req.files| && FreshRawFileIds(s, ids)
    ensures var t := AcceptManifest(s, req, ids).0;
            ServerOk(t) && Grows(s, t)
  {
    ManifestEffect(s, req, ids);
    if AcceptManifest(s, req, ids).0 != s {
      AppliedManifestKeepsServer(s, AcceptManifest(s, req, ids).0, req, ids);
    }
  }

  lemma PendingFrame(s: Server, t: Server)
    requires OnePendingPerTask(s)
    requires forall id :: id in t.runs && t.runs[id].status.Pending? ==> id in s.runs && s.runs[id] == t.runs[id]
    ensures OnePendingPerTask(t)
  {
    forall a, b, task | IsPendingManualOf(t, a, task) && IsPendingManualOf(t, b, task) ensures a == b {
      assert IsPendingManualOf(s, a, task) && IsPendingManualOf(s, b, task);
    }
  }

  // ---- report ----

  lemma {:induction false} RecordsOfConcat(a: seq<RecordRow>, b: seq<RecordRow>, runId: string)
    ensures RecordsOf(a + b, runId) == RecordsOf(a, runId) + RecordsOf(b, runId)
  {
    if b == [] {
      assert a + b == a;
    } else {
      RecordsOfConcat(a, b[..|b| - 1], runId);
      assert (a + b)[..|a + b| - 1] == a + b[..|b| - 1];
    }
  }

  lemma {:induction false} NewRecordsBelong(req: ReportRequest, ids: seq<string>, n: nat)
    requires n <= |req.records| == |ids|
    ensures RecordsOf(NewRecords(req, ids, n), req.runId) == NewRecords(req, ids, n)
    ensures forall runId :: runId != req.runId ==> RecordsOf(NewRecords(req, ids, n), runId) == []
    ensures forall i :: 0 <= i < n ==> NewRecords(req, ids, n)[i] == RecordOf(req, req.records[i], ids[i])
  {
    if n > 0 {
      NewRecordsBelong(req, ids, n - 1);
      assert NewRecords(req, ids, n)[..n - 1] == NewRecords(req, ids, n - 1);
    }
  }

  ghost predicate ReportApplied(s: Server, t: Server, req: ReportRequest, recordIds: seq<string>, qcIds: seq<string>,
                                alertIds: seq<string>)
  {
    && |recordIds| == |req.records| && req.runId in s.runs && !Terminal(s.runs[req.runId].status)
    && Terminal(req.status)
    && ReportReceiptId(req) !in s.receipts
    && t == s.(records := s.records + NewRecords(req, recordIds, |recordIds|),
               runs := s.runs[req.runId := FinishedRun(s.runs[req.runId], req)],
               receipts := s.receipts[ReportReceiptId(req) :=
                 Receipt(req.runId, ReportFingerprint(req), Some(ReportResponse(recordIds, qcIds, alertIds)))])
    && (forall i :: 0 <= i < |req.records| ==> RecordStorable(s.rawFiles, req.runId, req.records[i]))
    && (req.failedFiles.Some? ==>
          FailedFilesValid(s.rawFiles, req.runId, s.runs[req.runId].retryFiles, req.status, req.failedFiles.value))
  }

  lemma OtherRecordsUntouched(s: Server, t: Server, req: ReportRequest, recordIds: seq<string>, qcIds: seq<string>,
                              alertIds: seq<string>, runId: string)
    requires ReportApplied(s, t, req, recordIds, qcIds, alertIds)
    ensures RecordsOf(t.records, runId)
         == RecordsOf(s.records, runId) + (if runId == req.runId then NewRecords(req, recordIds, |recordIds|) else [])
  {
    RecordsOfConcat(s.records, NewRecords(req, recordIds, |recordIds|), runId);
    NewRecordsBelong(req, recordIds, |recordIds|);
  }

  lemma ReportKeepsReceipt(s: Server, t: Server, req: ReportRequest, recordIds: seq<string>, qcIds: seq<string>,
                           alertIds: seq<string>, id: ReceiptId)
    requires ServerOk(s) && ReportApplied(s, t, req, recordIds, qcIds, alertIds) && Grows(s, t) && id in t.receipts
    ensures ReceiptOk(t, id)
  {
    assert RunOk(s, req.runId);
    if id == ReportReceiptId(req) {
      OtherRecordsUntouched(s, t, req, recordIds, qcIds, alertIds, req.runId);
      assert ReportAnswer(t, id, req);
    } else {
      assert ReceiptOk(s, id);
      if id.kind.ManifestKind? {
        var m :| ManifestAnswer(s, id, m);
        assert ManifestAnswer(t, id, m);
      } else {
        var r :| ReportAnswer(s, id, r);
        OtherRecordsUntouched(s, t, req, recordIds, qcIds, alertIds, r.runId);
        assert ReportAnswer(t, id, r);
      }
    }
  }

  lemma ReportFinishesRun(s: Server, t: Server, req: ReportRequest, recordIds: seq<string>, qcIds: seq<string>,
                          alertIds: seq<string>)
    requires req.runId in s.runs && RunOk(s, req.runId) && ReportApplied(s, t, req, recordIds, qcIds, alertIds)
    requires Grows(s, t)
    ensures req.runId in t.runs && RunOk(t, req.runId)
  {
    hide NewRecords, FailedFileAllowed, RecordStorable, FailureKeepsTarget, TargetsDistinct, RecordsOf, RetriesParent;
    var id := req.runId;
    assert ReportReceiptOf(t, ReportReceiptId(req), id);
    if req.failedFiles.Some? {
      ValidFailuresKeepTargets(s.rawFiles, id, s.runs[id].retryFiles, req.status, req.failedFiles.value);
    }
    RetryStaysPrepared(s, t, s.runs[id], t.runs[id]);
  }

  lemma ReportKeepsOtherRun(s: Server, t: Server, req: ReportRequest, recordIds: seq<string>, qcIds: seq<string>,
                            alertIds: seq<string>, id: string)
    requires id in s.runs && RunOk(s, id) && ReportApplied(s, t, req, recordIds, qcIds, alertIds) && Grows(s, t)
    requires id != req.runId
    ensures RunOk(t, id)
  {
    hide Grows, NewRecords, FailedFilesValid, RecordStorable, FailureKeepsTarget, TargetsDistinct, RetriesParent,
      RecordsOf;
    OtherRecordsUntouched(s, t, req, recordIds, qcIds, alertIds, id);
    assert forall x :: ReportReceiptOf(t, x, id) <==> ReportReceiptOf(s, x, id);
    RetryStaysPrepared(s, t, s.runs[id], t.runs[id]);
  }

  lemma ReportKeepsRun(s: Server, t: Server, req: ReportRequest, recordIds: seq<string>, qcIds: seq<string>,
                       alertIds: seq<string>, id: string)
    requires ServerOk(s) && ReportApplied(s, t, req, recordIds, qcIds, alertIds) && Grows(s, t) && id in t.runs
    ensures RunOk(t, id)
  {
    hide RunOk, Grows, FailedFilesValid, NewRecords, RecordStorable;
    assert RunOk(s, id);
    if id == req.runId {
      ReportFinishesRun(s, t, req, recordIds, qcIds, alertIds);
    } else {
      ReportKeepsOtherRun(s, t, req, recordIds, qcIds, alertIds, id);
    }
  }

  /** An accepted failure list has not dropped the archive reference of any archive target. */
  lemma ValidFailuresKeepTargets(rawFiles: map<string, RawFileRow>, runId: string, retryFiles: Option<seq<RetryFile>>,
                                 status: RunStatus, failures: seq<FailedFile>)
    requires FailedFilesValid(rawFiles, runId, retryFiles, status, failures)
    ensures forall f :: f in failures ==> FailureKeepsTarget(retryFiles, f)
  {
    forall f | f in failures ensures FailureKeepsTarget(retryFiles, f) {
      assert FailedFileAllowed(rawFiles, runId, retryFiles, f);
    }
  }

  lemma ReportAppliedGrows(s: Server, t: Server, req: ReportRequest, recordIds: seq<string>, qcIds: seq<string>,
                           alertIds: seq<string>)
    requires ReportApplied(s, t, req, recordIds, qcIds, alertIds)
    ensures Grows(s, t)
  {
  }

  lemma ReportEffect(s: Server, req: ReportRequest, recordIds: seq<string>, qcIds: seq<string>, alertIds: seq<string>,
                     rulesUsable: bool)
    requires |recordIds| == |req.records|
    ensures var t := AcceptReport(s, req, recordIds, qcIds, alertIds, rulesUsable).0;
            t == s || ReportApplied(s, t, req, recordIds, qcIds, alertIds)
  {
  }

  lemma AppliedReportKeepsServer(s: Server, t: Server, req: ReportRequest, recordIds: seq<string>, qcIds: seq<string>,
                                 alertIds: seq<string>)
    requires ServerOk(s) && ReportApplied(s, t, req, recordIds, qcIds, alertIds)
    ensures ServerOk(t) && Grows(s, t)
  {
    hide RunOk, ReceiptOk, NewRecords, FailedFilesValid, OneReportPerRun, RecordsOk, RawFilesOk;
    ReportAppliedGrows(s, t, req, recordIds, qcIds, alertIds);
    forall id | id in t.receipts ensures ReceiptOk(t, id) {
      ReportKeepsReceipt(s, t, req, recordIds, qcIds, alertIds, id);
    }
    forall id | id in t.runs ensures RunOk(t, id) {
      ReportKeepsRun(s, t, req, recordIds, qcIds, alertIds, id);
    }
    OneReportAfter(s, t, req, recordIds, qcIds, alertIds);
    RecordsAfter(s, t, req, recordIds, qcIds, alertIds);
    PendingFrame(s, t);
  }

  /** A report keeps the invariant: one complete receipt per run, whose records are the stored ones. */
  lemma AcceptReportKeepsServer(s: Server, req: ReportRequest, recordIds: seq<string>, qcIds: seq<string>,
                                alertIds: seq<string>, rulesUsable: bool)
    requires ServerOk(s) && |recordIds| == |req.records|
    ensures var t := AcceptReport(s, req, recordIds, qcIds, alertIds, rulesUsable).0;
            ServerOk(t) && Grows(s, t)
  {
    ReportEffect(s, req, recordIds, qcIds, alertIds, rulesUsable);
    if AcceptReport(s, req, recordIds, qcIds, alertIds, rulesUsable).0 != s {
      AppliedReportKeepsServer(s, AcceptReport(s, req, recordIds, qcIds, alertIds, rulesUsable).0, req, recordIds, qcIds, alertIds);
    }
  }

  lemma OneReportAfter(s: Server, t: Server, req: ReportRequest, recordIds: seq<string>, qcIds: seq<string>,
                       alertIds: seq<string>)
    requires ServerOk(s) && ReportApplied(s, t, req, recordIds, qcIds, alertIds)
    ensures OneReportPerRun(t)
  {
    assert RunOk(s, req.runId);
    assert forall id :: !ReportReceiptOf(s, id, req.runId);
    forall a, b, runId | ReportReceiptOf(t, a, runId) && ReportReceiptOf(t, b, runId) ensures a == b {
      assert a != ReportReceiptId(req) ==> ReportReceiptOf(s, a, runId);
      assert b != ReportReceiptId(req) ==> ReportReceiptOf(s, b, runId);
    }
  }

  lemma RecordsAfter(s: Server, t: Server, req: ReportRequest, recordIds: seq<string>, qcIds: seq<string>,
                     alertIds: seq<string>)
    requires RecordsOk(s) && RawFilesOk(s) && ReportApplied(s, t, req, recordIds, qcIds, alertIds)
    ensures RecordsOk(t) && RawFilesOk(t)
  {
    NewRecordsBelong(req, recordIds, |recordIds|);
  }
}
