/**
 The control plane's tables as a value: each function is the committed effect of one PostgreSQL transaction.
 A refused request is rolled back, so it leaves the tables as they were. Row ids are drawn by the database and
 are parameters here.
 */
module ControlPlane {
  import opened Messages
  import opened Fingerprint
  import opened Calendar

  datatype TaskRow = TaskRow(node: string, enabled: bool)

  datatype RunRow = RunRow(taskId: string, node: string, trigger: Trigger, executionKey: string, scheduledFor: string,
                           status: RunStatus, retryOf: string, retryFiles: Option<seq<RetryFile>>,
                           failedFiles: Option<seq<FailedFile>>, startedAt: string, finishedAt: string,
                           total: int, success: int, failed: int, summary: string)

  datatype RawFileRow = RawFileRow(runId: string, node: string, originalName: string, fileHash: string,
                                   storagePath: string, sizeBytes: int, sourceMtime: string, ingestStatus: string)

  datatype RecordRow = RecordRow(id: string, runId: string, rawFileId: string, record: ParsedRecord, parseStatus: string)

  datatype RequestKind = ManifestKind | ReportKind

  datatype ReceiptId = ReceiptId(node: string, kind: RequestKind, key: string)

  datatype Response = Response(rawFileIds: seq<string>, recordIds: seq<string>, qcIds: seq<string>, alertIds: seq<string>)

  /** response is None until the receipt is completed. */
  datatype Receipt = Receipt(runId: string, fingerprint: string, response: Option<Response>)

  /** records is in insertion order. */
  datatype Server = Server(tasks: map<string, TaskRow>, runs: map<string, RunRow>, rawFiles: map<string, RawFileRow>,
                           records: seq<RecordRow>, receipts: map<ReceiptId, Receipt>)

  datatype Refusal = Invalid | NotFound | TaskDisabled | WrongNode | NotAccepted | KeyReused
                   | IdempotencyConflict | TaskRunConflict | RunFinished | IncompleteReceipt
                   | BadFailedFiles | BadRecords | RuleUnavailable | PendingExists | NotRetryable | NotExecutable

  datatype Reply = Started(answer: StartAnswer)
                 | ManifestAccepted(rawFileIds: seq<string>, replayed: bool)
                 | ReportAccepted(response: Response, replayed: bool)
                 | ManualAccepted(runId: string, status: RunStatus, replayed: bool)
                 | Refused(reason: Refusal)

  // ---- finding runs ----

  ghost predicate RunHasKey(s: Server, id: string, key: string) { id in s.runs && s.runs[id].executionKey == key }

  ghost function FindByExecutionKey(s: Server, key: string): (r: Option<string>)
    ensures r.Some? ==> RunHasKey(s, r.value, key)
    ensures r.None? ==> forall id :: !RunHasKey(s, id, key)
  {
    if exists id :: RunHasKey(s, id, key) then
      var id :| RunHasKey(s, id, key);
      Some(id)
    else None
  }

  predicate OperatorStarted(trigger: Trigger) { trigger.Manual? || trigger.Retry? }

  predicate PendingManual(run: RunRow) { run.status.Pending? && OperatorStarted(run.trigger) }

  ghost predicate IsPendingManualOf(s: Server, id: string, taskId: string) {
    id in s.runs && s.runs[id].taskId == taskId && PendingManual(s.runs[id])
  }

  // ---- start ----

  function NewRun(taskId: string, node: string, trigger: Trigger, key: string, scheduledFor: string, status: RunStatus,
                  retryOf: string, retryFiles: Option<seq<RetryFile>>, startedAt: string): RunRow
  {
    RunRow(taskId, node, trigger, key, scheduledFor, status, retryOf, retryFiles, None, startedAt, "", 0, 0, 0, "")
  }

  ghost function Start(s: Server, req: StartRequest, newId: string): (Server, Reply) {
    if req.node == "" || req.taskId == "" then (s, Refused(Invalid))
    else if OperatorStarted(req.trigger) then StartManual(s, req)
    else StartScheduled(s, req, newId)
  }

  /** A replay of a scheduled start is always answered running. */
  ghost function StartScheduled(s: Server, req: StartRequest, newId: string): (Server, Reply) {
    if req.executionKey == "" || !IsRfc3339Utc(req.scheduledFor) || !IsRfc3339Utc(req.startedAt) then (s, Refused(Invalid))
    else if req.taskId !in s.tasks then (s, Refused(NotFound))
    else if !s.tasks[req.taskId].enabled then (s, Refused(TaskDisabled))
    else if s.tasks[req.taskId].node != req.node then (s, Refused(WrongNode))
    else
      match FindByExecutionKey(s, req.executionKey)
      case None =>
        var run := NewRun(req.taskId, req.node, Scheduled, req.executionKey, req.scheduledFor, Running, "", None, req.startedAt);
        (s.(runs := s.runs[newId := run]), Started(StartAnswer(newId, false, Running)))
      case Some(id) =>
        if s.runs[id].taskId != req.taskId || s.runs[id].scheduledFor != req.scheduledFor then (s, Refused(KeyReused))
        else (s, Started(StartAnswer(id, true, Running)))
  }

  /** A manual or retry run is never created by a start: it was accepted before, and is moved from pending once. */
  ghost function StartManual(s: Server, req: StartRequest): (Server, Reply) {
    if req.executionKey == "" || req.scheduledFor != "" || !IsRfc3339Utc(req.startedAt) then (s, Refused(Invalid))
    else
      match FindByExecutionKey(s, req.executionKey)
      case None => (s, Refused(NotAccepted))
      case Some(id) =>
        var run := s.runs[id];
        if run.node != req.node || run.taskId != req.taskId || run.trigger != req.trigger then (s, Refused(NotAccepted))
        else if !run.status.Pending? then (s, Started(StartAnswer(id, true, run.status)))
        else if run.taskId !in s.tasks then (s, Refused(NotFound))
        else (s.(runs := s.runs[id := run.(status := Running, startedAt := req.startedAt)]),
              Started(StartAnswer(id, false, Running)))
  }

  // ---- accepting manual and retry runs, enabling and disabling a task ----

  predicate IsHexadecimal(c: char) { '0' <= c <= '9' || 'a' <= c <= 'f' || 'A' <= c <= 'F' }

  predicate IsOperatorToken(token: string) { |token| == 32 && forall i :: 0 <= i < 32 ==> IsHexadecimal(token[i]) }

  ghost function AcceptManual(s: Server, trigger: Trigger, taskId: string, retryOf: string, token: string,
                              retryFiles: seq<RetryFile>, executable: bool, newId: string): (Server, Reply)
  {
    if !IsOperatorToken(token) then (s, Refused(Invalid))
    else
      match FindByExecutionKey(s, OperatorKey(token))
      case Some(id) =>
        var run := s.runs[id];
        if run.trigger != trigger || run.taskId != taskId || run.retryOf != retryOf then (s, Refused(KeyReused))
        else (s, ManualAccepted(id, run.status, true))
      case None =>
        if taskId !in s.tasks then (s, Refused(NotFound))
        else if !s.tasks[taskId].enabled then (s, Refused(TaskDisabled))
        else if !executable then (s, Refused(NotExecutable))
        else if exists id :: IsPendingManualOf(s, id, taskId) then (s, Refused(PendingExists))
        else
          var run := NewRun(taskId, s.tasks[taskId].node, trigger, OperatorKey(token), "", Pending, retryOf,
                            if retryFiles == [] then None else Some(retryFiles), "");
          (s.(runs := s.runs[newId := run]), ManualAccepted(newId, Pending, false))
  }

  ghost function RequestManualRun(s: Server, taskId: string, token: string, executable: bool,
                                  newId: string): (Server, Reply) {
    AcceptManual(s, Manual, taskId, "", token, [], executable, newId)
  }

  /** The target a failed file becomes: an archive replay whenever it carries an archive reference. */
  function ResolveFile(s: Server, parent: RunRow, f: FailedFile): Option<RetryFile> {
    if f.sourcePath == "" || f.originalName == "" then None
    else if f.archiveRef == "" then Some(RetryFile(SourceInput, f.sourcePath, f.originalName, "", "", 0, "", ""))
    else if f.archiveRef !in s.rawFiles then None
    else
      var raw := s.rawFiles[f.archiveRef];
      if raw.node != parent.node || raw.runId !in s.runs || s.runs[raw.runId].taskId != parent.taskId
         || raw.storagePath == "" || raw.fileHash == "" then None
      else Some(RetryFile(ArchiveInput, f.sourcePath, f.originalName, f.archiveRef, raw.storagePath, raw.sizeBytes,
                          raw.fileHash, raw.sourceMtime))
  }

  /** The targets of the first n failed files, or None if one of them cannot be resolved. */
  function ResolveRetryFiles(s: Server, parent: RunRow, failed: seq<FailedFile>, n: nat): Option<seq<RetryFile>>
    requires n <= |failed|
  {
    if n == 0 then Some([])
    else
      match ResolveRetryFiles(s, parent, failed, n - 1)
      case None => None
      case Some(targets) =>
        match ResolveFile(s, parent, failed[n - 1])
        case None => None
        case Some(target) => Some(targets + [target])
  }

  ghost function RequestRetryRun(s: Server, runId: string, token: string, executable: bool,
                                 newId: string): (Server, Reply) {
    if !IsOperatorToken(token) then (s, Refused(Invalid))
    else
      match FindByExecutionKey(s, OperatorKey(token))
      case Some(id) =>
        if !s.runs[id].trigger.Retry? || s.runs[id].retryOf != runId then (s, Refused(KeyReused))
        else (s, ManualAccepted(id, s.runs[id].status, true))
      case None =>
        if runId == "" then (s, Refused(Invalid))
        else if runId !in s.runs then (s, Refused(NotFound))
        else
          var parent := s.runs[runId];
          if !parent.status.Failed? || parent.failedFiles.None? || parent.failedFiles.value == []
          then (s, Refused(NotRetryable))
          else
            match ResolveRetryFiles(s, parent, parent.failedFiles.value, |parent.failedFiles.value|)
            case None => (s, Refused(NotRetryable))
            case Some(targets) => AcceptManual(s, Retry, parent.taskId, runId, token, targets, executable, newId)
  }

  function FailPendingRun(run: RunRow, taskId: string): RunRow {
    if run.taskId == taskId && PendingManual(run) then run.(status := Failed, failedFiles := Some([])) else run
  }

  function FailPendingManualRuns(s: Server, taskId: string): Server {
    s.(runs := map id | id in s.runs :: FailPendingRun(s.runs[id], taskId))
  }

  /** Disabling also fails the task's pending manual runs; enabling may be refused by a dependency. */
  function SetTaskEnabled(s: Server, taskId: string, enabled: bool, executable: bool): Server {
    if taskId !in s.tasks || (enabled && !executable) then s
    else
      var settled := if enabled then s else FailPendingManualRuns(s, taskId);
      settled.(tasks := settled.tasks[taskId := settled.tasks[taskId].(enabled := enabled)])
  }

  // ---- receipts ----

  datatype Claim = Acquired | Replay(response: Response) | Conflict(reason: Refusal)

  ghost predicate ReportReceiptOf(s: Server, id: ReceiptId, runId: string) {
    id in s.receipts && id.kind.ReportKind? && s.receipts[id].runId == runId
  }

  ghost function ClaimReceipt(s: Server, id: ReceiptId, runId: string, fingerprint: string): Claim {
    if id in s.receipts then
      if s.receipts[id].fingerprint != fingerprint then Conflict(IdempotencyConflict)
      else if s.receipts[id].response.None? then Conflict(IncompleteReceipt)
      else Replay(s.receipts[id].response.value)
    else if id.kind.ReportKind? && exists other :: ReportReceiptOf(s, other, runId) then Conflict(TaskRunConflict)
    else Acquired
  }

  function Ownership(s: Server, runId: string, node: string): Option<Refusal> {
    if runId == "" || node == "" then Some(Invalid)
    else if runId !in s.runs then Some(NotFound)
    else if s.runs[runId].node != node then Some(WrongNode)
    else None
  }

  // ---- raw file manifest ----

  predicate EntryValid(file: ManifestEntry) { file.originalName != "" && file.storagePath != "" }

  function RawFileOf(req: ManifestRequest, file: ManifestEntry): RawFileRow {
    RawFileRow(req.runId, req.node, file.originalName, file.fileHash, file.storagePath, file.sizeBytes, file.sourceMtime,
               OrDefault(file.ingestStatus, "collected"))
  }

  /** The raw files after the first n entries were recorded. */
  function AddRawFiles(rawFiles: map<string, RawFileRow>, req: ManifestRequest, ids: seq<string>,
                       n: nat): map<string, RawFileRow>
    requires n <= |req.files| == |ids|
  {
    if n == 0 then rawFiles else AddRawFiles(rawFiles, req, ids, n - 1)[ids[n - 1] := RawFileOf(req, req.files[n - 1])]
  }

  ghost predicate FreshRawFileIds(s: Server, ids: seq<string>) {
    && (forall i :: 0 <= i < |ids| ==> ids[i] != "" && ids[i] !in s.rawFiles)
    && (forall i, j :: 0 <= i < j < |ids| ==> ids[i] != ids[j])
  }

  function ManifestReceiptId(req: ManifestRequest): ReceiptId { ReceiptId(req.node, ManifestKind, req.key) }

  function ManifestResponse(ids: seq<string>): Response { Response(ids, [], [], []) }

  ghost function AcceptManifest(s: Server, req: ManifestRequest, ids: seq<string>): (Server, Reply)
    requires |ids| == |req.files|
  {
    if req.key == "" then (s, Refused(Invalid))
    else if Ownership(s, req.runId, req.node).Some? then (s, Refused(Ownership(s, req.runId, req.node).value))
    else
      match ClaimReceipt(s, ManifestReceiptId(req), req.runId, ManifestFingerprint(req))
      case Replay(response) => (s, ManifestAccepted(response.rawFileIds, true))
      case Conflict(reason) => (s, Refused(reason))
      case Acquired =>
        if exists i :: 0 <= i < |req.files| && !EntryValid(req.files[i]) then (s, Refused(Invalid))
        else
          var receipt := Receipt(req.runId, ManifestFingerprint(req), Some(ManifestResponse(ids)));
          (s.(rawFiles := AddRawFiles(s.rawFiles, req, ids, |ids|), receipts := s.receipts[ManifestReceiptId(req) := receipt]),
           ManifestAccepted(ids, false))
  }

  // ---- run report ----

  predicate HasTarget(targets: seq<RetryFile>, path: string) {
    exists i :: 0 <= i < |targets| && targets[i].sourcePath == path
  }

  function FindTarget(targets: seq<RetryFile>, path: string): (r: Option<RetryFile>)
    ensures r.Some? <==> HasTarget(targets, path)
    ensures r.Some? ==> r.value in targets && r.value.sourcePath == path
  {
    if targets == [] then None
    else if targets[0].sourcePath == path then Some(targets[0])
    else
      var rest := FindTarget(targets[1..], path);
      assert HasTarget(targets, path) ==> HasTarget(targets[1..], path) by {
        if HasTarget(targets, path) {
          var i :| 0 <= i < |targets| && targets[i].sourcePath == path;
          assert targets[1..][i - 1].sourcePath == path;
        }
      }
      rest
  }

  /** What a failed file may refer to: nothing (unless the target is an archive replay), a raw file of this run, or
      the archive its own fixed target carries. */
  predicate ReferenceAllowed(rawFiles: map<string, RawFileRow>, runId: string, target: Option<RetryFile>, ref: string) {
    if ref == "" then !(target.Some? && target.value.inputType.ArchiveInput?)
    else
      || (ref in rawFiles && rawFiles[ref].runId == runId)
      || (target.Some? && target.value.inputType.ArchiveInput? && target.value.archiveRef == ref)
  }

  predicate FailedFileAllowed(rawFiles: map<string, RawFileRow>, runId: string, retryFiles: Option<seq<RetryFile>>,
                              f: FailedFile) {
    && (retryFiles.Some? ==> HasTarget(retryFiles.value, f.sourcePath))
    && ReferenceAllowed(rawFiles, runId, if retryFiles.Some? then FindTarget(retryFiles.value, f.sourcePath) else None,
                        f.archiveRef)
  }

  ghost predicate UniquePaths(failures: seq<FailedFile>) {
    forall i, j :: 0 <= i < j < |failures| ==> failures[i].sourcePath != failures[j].sourcePath
  }

  ghost predicate FailedFilesValid(rawFiles: map<string, RawFileRow>, runId: string, retryFiles: Option<seq<RetryFile>>,
                                   status: RunStatus, failures: seq<FailedFile>)
  {
    && (status.Succeeded? ==> failures == [])
    && UniquePaths(failures)
    && forall i :: 0 <= i < |failures| ==> FailedFileAllowed(rawFiles, runId, retryFiles, failures[i])
  }

  predicate RecordStorable(rawFiles: map<string, RawFileRow>, runId: string, r: ReportRecord) {
    r.rawFileId in rawFiles && rawFiles[r.rawFileId].runId == runId && r.record.payload != ""
  }

  predicate IdsPresent(r: ReportRecord) {
    r.rawFileId != "" && forall i :: 0 <= i < |r.qc| ==> r.qc[i].ruleId != ""
  }

  function RecordOf(req: ReportRequest, r: ReportRecord, id: string): RecordRow {
    RecordRow(id, req.runId, r.rawFileId, r.record, OrDefault(r.parseStatus, "parsed"))
  }

  function NewRecords(req: ReportRequest, ids: seq<string>, n: nat): (r: seq<RecordRow>)
    requires n <= |req.records| == |ids|
    ensures |r| == n
  {
    if n == 0 then [] else NewRecords(req, ids, n - 1) + [RecordOf(req, req.records[n - 1], ids[n - 1])]
  }

  function FinishedRun(run: RunRow, req: ReportRequest): RunRow {
    run.(status := req.status, finishedAt := req.finishedAt, total := req.total, success := req.success,
         failed := req.failed, summary := req.summary, failedFiles := req.failedFiles)
  }

  function ReportReceiptId(req: ReportRequest): ReceiptId { ReceiptId(req.node, ReportKind, req.key) }

  function ReportResponse(recordIds: seq<string>, qcIds: seq<string>, alertIds: seq<string>): Response {
    Response([], recordIds, qcIds, alertIds)
  }

  /** Why a claimed report is refused for what it says, whatever the state of its run. */
  ghost function ContentRefusal(s: Server, req: ReportRequest, rulesUsable: bool): Option<Refusal>
    requires req.runId in s.runs
  {
    if exists i :: 0 <= i < |req.records| && !IdsPresent(req.records[i]) then Some(Invalid)
    else if !rulesUsable then Some(RuleUnavailable)
    else if req.failedFiles.Some?
            && !FailedFilesValid(s.rawFiles, req.runId, s.runs[req.runId].retryFiles, req.status, req.failedFiles.value)
    then Some(BadFailedFiles)
    else if exists i :: 0 <= i < |req.records| && !RecordStorable(s.rawFiles, req.runId, req.records[i])
    then Some(BadRecords)
    else None
  }

  ghost function ReportRefusal(s: Server, req: ReportRequest, rulesUsable: bool): Option<Refusal>
    requires req.runId in s.runs
  {
    if Terminal(s.runs[req.runId].status) then Some(RunFinished) else ContentRefusal(s, req, rulesUsable)
  }

  ghost function AcceptReport(s: Server, req: ReportRequest, recordIds: seq<string>, qcIds: seq<string>,
                              alertIds: seq<string>, rulesUsable: bool): (Server, Reply)
    requires |recordIds| == |req.records|
  {
    if req.key == "" then (s, Refused(Invalid))
    else if Ownership(s, req.runId, req.node).Some? then (s, Refused(Ownership(s, req.runId, req.node).value))
    else if !Terminal(req.status) then (s, Refused(Invalid))
    else
      match ClaimReceipt(s, ReportReceiptId(req), req.runId, ReportFingerprint(req))
      case Replay(response) => (s, ReportAccepted(response, true))
      case Conflict(reason) => (s, Refused(reason))
      case Acquired =>
        if ReportRefusal(s, req, rulesUsable).Some? then (s, Refused(ReportRefusal(s, req, rulesUsable).value))
        else
          var response := ReportResponse(recordIds, qcIds, alertIds);
          var receipt := Receipt(req.runId, ReportFingerprint(req), Some(response));
          (s.(records := s.records + NewRecords(req, recordIds, |recordIds|),
              runs := s.runs[req.runId := FinishedRun(s.runs[req.runId], req)],
              receipts := s.receipts[ReportReceiptId(req) := receipt]),
           ReportAccepted(response, false))
  }

  /** The records stored for one run, in order. */
  function RecordsOf(records: seq<RecordRow>, runId: string): seq<RecordRow> {
    if records == [] then []
    else
      RecordsOf(records[..|records| - 1], runId)
      + (if records[|records| - 1].runId == runId then [records[|records| - 1]] else [])
  }
}
