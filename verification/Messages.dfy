/** The values that travel between the Agent, its durable queue and the control plane. */
module Messages {
  datatype Option<+T> = None | Some(value: T)

  datatype RunStatus = Pending | Running | Succeeded | Failed

  predicate Terminal(status: RunStatus) { status.Succeeded? || status.Failed? }

  datatype Trigger = Scheduled | Manual | Retry

  datatype SourceType = LocalDirectory | Ftp | Oracle

  datatype DataSource = DataSource(id: string, node: string, sourceType: SourceType, name: string, config: string)

  datatype QcRule = QcRule(id: string, ruleType: string, name: string, config: string)

  datatype TaskConfig = TaskConfig(id: string, node: string, dataSourceId: string, name: string, taskType: string,
                                   schedule: string, parserType: string, qcProfile: string, enabled: bool,
                                   dataSource: DataSource, qcRules: seq<QcRule>)

  datatype StartRequest = StartRequest(node: string, taskId: string, executionKey: string, scheduledFor: string,
                                       startedAt: string, trigger: Trigger)

  datatype ManifestEntry = ManifestEntry(originalName: string, fileHash: string, storagePath: string, sizeBytes: int,
                                         sourceMtime: string, ingestStatus: string)

  datatype ManifestRequest = ManifestRequest(runId: string, node: string, key: string, files: seq<ManifestEntry>)

  datatype ParsedRecord = ParsedRecord(station: string, device: string, recordTime: string, payload: string)

  datatype QcResult = QcResult(ruleId: string, level: string, result: string, message: string)

  datatype ReportRecord = ReportRecord(rawFileId: string, record: ParsedRecord, parseStatus: string, qc: seq<QcResult>)

  /** One file-level failure; archiveRef is empty when the input never obtained an archive. */
  datatype FailedFile = FailedFile(sourcePath: string, originalName: string, stage: string, message: string,
                                   archiveRef: string)

  /** failedFiles is None when the field is absent, which differs from an explicit empty list. */
  datatype ReportRequest = ReportRequest(runId: string, node: string, key: string, status: RunStatus,
                                         finishedAt: string, total: int, success: int, failed: int, summary: string,
                                         records: seq<ReportRecord>, failedFiles: Option<seq<FailedFile>>)

  datatype InputType = ArchiveInput | SourceInput

  /** One target of a retry run, fixed when the retry is accepted. */
  datatype RetryFile = RetryFile(inputType: InputType, sourcePath: string, originalName: string, archiveRef: string,
                                 storagePath: string, sizeBytes: int, fileHash: string, sourceMtime: string)

  /** The state of a run that a start request is answered with. */
  datatype StartAnswer = StartAnswer(runId: string, replayed: bool, status: RunStatus)

  /** SHA-256 as an injective digest; no digest starts with the prefix of an operator key. */
  function Sha256Hex(text: string): string { "#" + text }

  function ScheduledExecutionKey(node: string, taskId: string, scheduledFor: string): string {
    Sha256Hex("scheduled\n" + node + "\n" + taskId + "\n" + scheduledFor)
  }

  function ManifestKey(node: string, runId: string): string { Sha256Hex("manifest\n" + node + "\n" + runId) }

  function ReportKey(node: string, runId: string): string { Sha256Hex("report\n" + node + "\n" + runId) }

  function OperatorKey(token: string): string { "operator:" + token }

  predicate IsOperatorKey(key: string) { "operator:" <= key }

  /** For one node, a derived idempotency key determines its run. */
  lemma DerivedKeysIdentifyRun(node: string, left: string, right: string)
    ensures ManifestKey(node, left) == ManifestKey(node, right) ==> left == right
    ensures ReportKey(node, left) == ReportKey(node, right) ==> left == right
  {
    var manifest, report := "#" + ("manifest\n" + node + "\n"), "#" + ("report\n" + node + "\n");
    assert ManifestKey(node, left) == manifest + left && ManifestKey(node, right) == manifest + right;
    assert ReportKey(node, left) == report + left && ReportKey(node, right) == report + right;
    assert (manifest + left)[|manifest|..] == left && (manifest + right)[|manifest|..] == right;
    assert (report + left)[|report|..] == left && (report + right)[|report|..] == right;
  }

  /** A scheduled key is never an operator key, so the two kinds of runs cannot share one. */
  lemma ScheduledKeyIsNotOperatorKey(node: string, taskId: string, scheduledFor: string)
    ensures !IsOperatorKey(ScheduledExecutionKey(node, taskId, scheduledFor))
  {
    assert ScheduledExecutionKey(node, taskId, scheduledFor)[0] == '#';
  }
}
