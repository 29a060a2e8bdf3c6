/**
 The Agent's durable queue as a value: each transition is the effect of one SQLite transaction.
 A transition that returns None is a transaction that throws and is rolled back.
 Rows of pending_files and pending_deliveries are kept inside the pending_jobs row that owns them,
 which is what their cascading foreign keys make of them.
 */
module QueueModel {
  import opened Messages

  datatype Stage = StartPending | Collecting | ManifestPending | ReportBuilding | ReportPending
                 | RetryWait | RequiresAttention

  predicate Executable(stage: Stage) { !stage.RetryWait? && !stage.RequiresAttention? }

  datatype FileRow = FileRow(ordinal: int, sourcePath: string, originalName: string, sourceMtime: string,
                             sizeBytes: int, fileHash: string, fingerprint: string, archivePath: string,
                             inputPath: string, archived: bool, rawFileId: string, parsedClean: bool,
                             errorDetail: string)

  datatype Delivery<+R> = Delivery(key: string, request: R, attempts: nat)

  datatype JobRow = JobRow(task: TaskConfig, stage: Stage, retryStage: Option<Stage>, runId: string, attempts: nat,
                           lastErrorKind: string, retryFiles: seq<RetryFile>, failures: Option<seq<FailedFile>>,
                           files: seq<FileRow>, start: Delivery<StartRequest>,
                           manifest: Option<Delivery<ManifestRequest>>, report: Option<Delivery<ReportRequest>>)

  datatype ProcessedRow = ProcessedRow(taskId: string, fingerprint: string, sourcePath: string, fileHash: string,
                                       processedAt: int, executionKey: string)

  /** processed is in rowid order. */
  datatype Queue = Queue(node: string, maxJobs: nat, processedCapacity: nat, jobs: map<string, JobRow>,
                         processed: seq<ProcessedRow>)

  datatype RequestType = StartType | ManifestType | ReportType

  // ---- begin_job ----

  datatype Begin = Begun(queue: Queue) | AlreadyQueued | BeginError

  function NewJob(task: TaskConfig, request: StartRequest, retryFiles: seq<RetryFile>): JobRow {
    JobRow(task, StartPending, None, "", 0, "", retryFiles, None, [],
           Delivery(request.executionKey, request, 0), None, None)
  }

  predicate SameJob(job: JobRow, task: TaskConfig, request: StartRequest) {
    job.task == task && job.start.request.scheduledFor == request.scheduledFor
  }

  function BeginJob(q: Queue, task: TaskConfig, request: StartRequest, retryFiles: seq<RetryFile>): Begin {
    if request.node != q.node || task.node != q.node || request.taskId != task.id then BeginError
    else if request.executionKey in q.jobs then
      if SameJob(q.jobs[request.executionKey], task, request) then AlreadyQueued else BeginError
    else if |q.jobs| >= q.maxJobs then BeginError
    else Begun(q.(jobs := q.jobs[request.executionKey := NewJob(task, request, retryFiles)]))
  }

  // ---- file plan and file outcomes ----

  predicate RowsClash(a: FileRow, b: FileRow) { a.ordinal == b.ordinal || a.fingerprint == b.fingerprint }

  /** The inserted rows satisfy the size check and clash with no earlier row of the job. */
  ghost predicate PlanAccepted(job: JobRow, plan: seq<FileRow>) {
    forall i :: 0 <= i < |plan| ==>
      plan[i].sizeBytes >= 0 && forall j :: 0 <= j < |job.files| + i ==> !RowsClash((job.files + plan)[j], plan[i])
  }

  ghost function SaveFilePlan(q: Queue, key: string, plan: seq<FileRow>, failures: seq<FailedFile>): Option<Queue> {
    if key !in q.jobs || !PlanAccepted(q.jobs[key], plan) then None
    else Some(q.(jobs := q.jobs[key := q.jobs[key].(files := q.jobs[key].files + plan, failures := Some(failures))]))
  }

  function SaveFileFailures(q: Queue, key: string, failures: seq<FailedFile>): Option<Queue> {
    if key !in q.jobs then None else Some(q.(jobs := q.jobs[key := q.jobs[key].(failures := Some(failures))]))
  }

  predicate HasOrdinal(files: seq<FileRow>, ordinal: int) {
    exists i :: 0 <= i < |files| && files[i].ordinal == ordinal
  }

  function WithError(files: seq<FileRow>, ordinal: int, detail: string): (r: seq<FileRow>)
    ensures |r| == |files|
  {
    seq(|files|, i requires 0 <= i < |files| =>
      if files[i].ordinal == ordinal then files[i].(errorDetail := detail) else files[i])
  }

  function MarkFileFailed(q: Queue, key: string, ordinal: int, detail: string,
                          failures: seq<FailedFile>): Option<Queue> {
    if key !in q.jobs || !HasOrdinal(q.jobs[key].files, ordinal) then None
    else
      var job := q.jobs[key];
      Some(q.(jobs := q.jobs[key := job.(files := WithError(job.files, ordinal, detail), failures := Some(failures))]))
  }

  function WithArchived(files: seq<FileRow>, ordinal: int): (r: seq<FileRow>)
    ensures |r| == |files|
  {
    seq(|files|, i requires 0 <= i < |files| =>
      if files[i].ordinal == ordinal then files[i].(archived := true) else files[i])
  }

  function MarkFileArchived(q: Queue, key: string, ordinal: int): Option<Queue> {
    if key !in q.jobs || !HasOrdinal(q.jobs[key].files, ordinal) then None
    else Some(q.(jobs := q.jobs[key := q.jobs[key].(files := WithArchived(q.jobs[key].files, ordinal))]))
  }

  // ---- stage changes of the delivery chain ----

  function AcceptStart(q: Queue, key: string, runId: string): Option<Queue> {
    if key !in q.jobs || !q.jobs[key].stage.StartPending? then None
    else Some(q.(jobs := q.jobs[key := q.jobs[key].(runId := runId, stage := Collecting)]))
  }

  /** UNIQUE (request_type, idempotency_key) for the manifest and report rows of the other jobs. */
  ghost predicate ManifestKeyTaken(q: Queue, idempotencyKey: string) {
    exists k :: k in q.jobs && q.jobs[k].manifest.Some? && q.jobs[k].manifest.value.key == idempotencyKey
  }

  ghost predicate ReportKeyTaken(q: Queue, idempotencyKey: string) {
    exists k :: k in q.jobs && q.jobs[k].report.Some? && q.jobs[k].report.value.key == idempotencyKey
  }

  ghost function SaveManifest(q: Queue, key: string, request: ManifestRequest): Option<Queue> {
    if key !in q.jobs || q.jobs[key].manifest.Some? || ManifestKeyTaken(q, request.key)
       || !q.jobs[key].stage.Collecting? then None
    else Some(q.(jobs := q.jobs[key := q.jobs[key].(manifest := Some(Delivery(request.key, request, 0)),
                                                     stage := ManifestPending)]))
  }

  ghost function MatchingRows(files: seq<FileRow>, path: string): set<int> {
    set i | 0 <= i < |files| && files[i].archivePath == path
  }

  function WithRawFile(files: seq<FileRow>, path: string, id: string): (r: seq<FileRow>)
    ensures |r| == |files|
  {
    seq(|files|, i requires 0 <= i < |files| =>
      if files[i].archivePath == path then files[i].(rawFileId := id) else files[i])
  }

  /** Binding of the first n answered ids, each to the only row with the archive path it was sent for. */
  ghost function BindRawFiles(files: seq<FileRow>, sent: seq<ManifestEntry>, ids: seq<string>,
                              n: nat): Option<seq<FileRow>>
    requires n <= |sent| == |ids|
  {
    if n == 0 then Some(files)
    else
      match BindRawFiles(files, sent, ids, n - 1)
      case None => None
      case Some(bound) =>
        if |MatchingRows(bound, sent[n - 1].storagePath)| != 1 then None
        else Some(WithRawFile(bound, sent[n - 1].storagePath, ids[n - 1]))
  }

  ghost function AcceptManifest(q: Queue, key: string, ids: seq<string>): Option<Queue> {
    if key !in q.jobs || q.jobs[key].manifest.None? then None
    else
      var job := q.jobs[key];
      var sent := job.manifest.value.request.files;
      if |sent| != |ids| then None
      else
        match BindRawFiles(job.files, sent, ids, |ids|)
        case None => None
        case Some(bound) =>
          var stage := if job.stage.ManifestPending? then ReportBuilding else job.stage;
          Some(q.(jobs := q.jobs[key := job.(files := bound, stage := stage)]))
  }

  function WithOutcomes(files: seq<FileRow>, clean: seq<bool>): (r: seq<FileRow>)
    ensures |r| == |files|
  {
    seq(|files|, i requires 0 <= i < |files| =>
      if 0 <= files[i].ordinal < |clean| then files[i].(parsedClean := clean[files[i].ordinal]) else files[i])
  }

  ghost function SaveReport(q: Queue, key: string, request: ReportRequest, clean: seq<bool>): Option<Queue> {
    if key !in q.jobs || |q.jobs[key].files| != |clean| || q.jobs[key].report.Some? || ReportKeyTaken(q, request.key)
    then None
    else
      var job := q.jobs[key];
      var stage := if job.stage.Collecting? || job.stage.ReportBuilding? then ReportPending else job.stage;
      Some(q.(jobs := q.jobs[key := job.(report := Some(Delivery(request.key, request, 0)),
                                         files := WithOutcomes(job.files, clean), stage := stage)]))
  }

  // ---- removal ----

  ghost predicate ProcessedKnown(processed: seq<ProcessedRow>, taskId: string, fingerprint: string) {
    exists i :: 0 <= i < |processed| && processed[i].taskId == taskId && processed[i].fingerprint == fingerprint
  }

  /** INSERT OR IGNORE of the cleanly parsed files, in row order. */
  ghost function AddProcessed(processed: seq<ProcessedRow>, taskId: string, key: string, now: int, files: seq<FileRow>)
    : seq<ProcessedRow>
  {
    if files == [] then processed
    else
      var before := AddProcessed(processed, taskId, key, now, files[..|files| - 1]);
      var file := files[|files| - 1];
      if !file.parsedClean || ProcessedKnown(before, taskId, file.fingerprint) then before
      else before + [ProcessedRow(taskId, file.fingerprint, file.sourcePath, file.fileHash, now, key)]
  }

  /** Rows of the same task that are ordered before row i by (processed_at, rowid) descending. */
  ghost function NewerRows(processed: seq<ProcessedRow>, i: int): set<int>
    requires 0 <= i < |processed|
  {
    set j | 0 <= j < |processed| && processed[j].taskId == processed[i].taskId
            && (processed[j].processedAt > processed[i].processedAt
                || (processed[j].processedAt == processed[i].processedAt && j > i))
  }

  ghost predicate Retained(processed: seq<ProcessedRow>, taskId: string, capacity: nat, i: int)
    requires 0 <= i < |processed|
  {
    processed[i].taskId != taskId || |NewerRows(processed, i)| < capacity
  }

  /** The rows that survive trimming one task to its capacity, among the first n. */
  ghost function TrimProcessed(processed: seq<ProcessedRow>, taskId: string, capacity: nat, n: nat): seq<ProcessedRow>
    requires n <= |processed|
  {
    if n == 0 then []
    else TrimProcessed(processed, taskId, capacity, n - 1)
         + (if Retained(processed, taskId, capacity, n - 1) then [processed[n - 1]] else [])
  }

  ghost function CompleteJob(q: Queue, key: string, now: int): Option<Queue> {
    if key !in q.jobs || !q.jobs[key].stage.ReportPending? then None
    else
      var job := q.jobs[key];
      var added := AddProcessed(q.processed, job.task.id, key, now, job.files);
      Some(q.(jobs := q.jobs - {key}, processed := TrimProcessed(added, job.task.id, q.processedCapacity, |added|)))
  }

  function DiscardStartPending(q: Queue, key: string): Option<Queue> {
    if key !in q.jobs || q.jobs[key].files != [] || !q.jobs[key].stage.StartPending? then None
    else Some(q.(jobs := q.jobs - {key}))
  }

  // ---- side states ----

  function MarkRequiresAttention(q: Queue, key: string, errorKind: string): Option<Queue> {
    if key !in q.jobs then None
    else
      var job := q.jobs[key];
      if job.stage.RequiresAttention? || (job.stage.RetryWait? && !(job.retryStage.Some? && Executable(job.retryStage.value)))
      then None
      else
        var resume := if job.stage.RetryWait? then job.retryStage else Some(job.stage);
        Some(q.(jobs := q.jobs[key := job.(stage := RequiresAttention, retryStage := resume, lastErrorKind := errorKind)]))
  }

  predicate HasDelivery(job: JobRow, kind: RequestType, idempotencyKey: string) {
    match kind
    case StartType => job.start.key == idempotencyKey
    case ManifestType => job.manifest.Some? && job.manifest.value.key == idempotencyKey
    case ReportType => job.report.Some? && job.report.value.key == idempotencyKey
  }

  function Attempts(job: JobRow, kind: RequestType): nat {
    match kind
    case StartType => job.start.attempts
    case ManifestType => if job.manifest.Some? then job.manifest.value.attempts else 0
    case ReportType => if job.report.Some? then job.report.value.attempts else 0
  }

  function CountAttempt(job: JobRow, kind: RequestType): JobRow {
    match kind
    case StartType => job.(start := job.start.(attempts := job.start.attempts + 1))
    case ManifestType =>
      if job.manifest.None? then job
      else job.(manifest := Some(job.manifest.value.(attempts := job.manifest.value.attempts + 1)))
    case ReportType =>
      if job.report.None? then job
      else job.(report := Some(job.report.value.(attempts := job.report.value.attempts + 1)))
  }

  predicate DeliveryStage(stage: Stage) { stage.StartPending? || stage.ManifestPending? || stage.ReportPending? }

  function FailedDelivery(job: JobRow, kind: RequestType, retryable: bool, errorKind: string): JobRow {
    var counted := CountAttempt(job, kind);
    if !DeliveryStage(job.stage) then counted
    else counted.(retryStage := Some(job.stage), stage := if retryable then RetryWait else RequiresAttention,
                  attempts := job.attempts + 1, lastErrorKind := errorKind)
  }

  /** The delivery row of (kind, idempotencyKey) belongs to the job key. */
  predicate Owns(q: Queue, key: string, kind: RequestType, idempotencyKey: string) {
    key in q.jobs && HasDelivery(q.jobs[key], kind, idempotencyKey)
  }

  function RecordDeliveryFailure(q: Queue, key: string, kind: RequestType, retryable: bool, errorKind: string): Queue
    requires key in q.jobs
  {
    q.(jobs := q.jobs[key := FailedDelivery(q.jobs[key], kind, retryable, errorKind)])
  }

  predicate CanResume(job: JobRow) { !job.stage.RetryWait? || job.retryStage.Some? }

  function Resumed(job: JobRow): JobRow
    requires CanResume(job)
  {
    if job.stage.RetryWait? then job.(stage := job.retryStage.value, retryStage := None) else job
  }

  function ResumeDelivery(q: Queue, key: string): Option<Queue>
    requires key in q.jobs
  {
    if !CanResume(q.jobs[key]) then None else Some(q.(jobs := q.jobs[key := Resumed(q.jobs[key])]))
  }

  datatype AttentionRetry = Resumption(queue: Queue, stage: Stage) | NotAttention(current: Stage) | RetryError

  function RetryAttentionJob(q: Queue, key: string): AttentionRetry {
    if key !in q.jobs then RetryError
    else
      var job := q.jobs[key];
      if !job.stage.RequiresAttention? then NotAttention(job.stage)
      else if job.retryStage.None? && job.lastErrorKind != "archive_conflict" then RetryError
      else if job.retryStage.Some? && !Executable(job.retryStage.value) then RetryError
      else
        var resume := if job.retryStage.Some? then job.retryStage.value else Collecting;
        Resumption(q.(jobs := q.jobs[key := job.(stage := resume, retryStage := None)]), resume)
  }

  // ---- queries ----

  predicate InFlight(q: Queue, taskId: string, fingerprint: string) {
    exists k :: k in q.jobs && q.jobs[k].task.id == taskId
                && exists i :: 0 <= i < |q.jobs[k].files| && q.jobs[k].files[i].fingerprint == fingerprint
  }

  ghost predicate Occupied(q: Queue, taskId: string, fingerprint: string) {
    ProcessedKnown(q.processed, taskId, fingerprint) || InFlight(q, taskId, fingerprint)
  }

  /** The stage a job is at, or will resume at when it is in a side state. */
  function EffectiveStage(job: JobRow): Stage {
    if Executable(job.stage) then job.stage
    else if job.retryStage.Some? then job.retryStage.value else job.stage
  }
}
