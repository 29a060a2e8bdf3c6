/** The joint invariant of Agent, network and control plane, and what each kind of change has to re-establish. */
module ProtocolInvariant {
  import opened Messages
  import opened Calendar
  import opened Fingerprint
  import opened QueueModel
  import opened Reporting
  import opened ControlPlane
  import opened ServerInvariant
  import opened JobInvariant
  import opened Protocol

  /** The parser gives every record a payload. */
  ghost predicate GoodWorld(w: World) {
    forall path :: w.parse(path).Parsed? ==> forall r :: r in w.parse(path).records ==> r.payload != ""
  }

  // ---- runs and candidates ----

  /** A target carries an archive reference exactly when it is an archive replay. */
  predicate TargetsReferenced(targets: seq<RetryFile>) {
    forall i :: 0 <= i < |targets| ==> (targets[i].inputType.ArchiveInput? <==> targets[i].archiveRef != "")
  }

  predicate ScheduledKeyOk(node: string, taskId: string, slot: string, key: string) {
    IsRfc3339Utc(slot) && key == ScheduledExecutionKey(node, taskId, slot)
  }

  ghost predicate RunKeyOk(node: string, begun: set<string>, run: RunRow) {
    if run.trigger.Scheduled? then
      run.node == node && ScheduledKeyOk(node, run.taskId, run.scheduledFor, run.executionKey) && run.executionKey in begun
    else
      IsOperatorKey(run.executionKey) && run.scheduledFor == "" && (run.retryFiles.Some? ==> TargetsReferenced(run.retryFiles.value))
  }

  ghost predicate RunsOk(node: string, server: Server, begun: set<string>) {
    forall id :: id in server.runs ==> RunKeyOk(node, begun, server.runs[id])
  }

  function TargetsOption(targets: seq<RetryFile>): Option<seq<RetryFile>> {
    if targets == [] then None else Some(targets)
  }

  predicate RunFits(run: RunRow, node: string, taskId: string, trigger: Trigger, slot: string,
                    targets: seq<RetryFile>) {
    && run.node == node && run.taskId == taskId && run.trigger == trigger && run.scheduledFor == slot
    && run.retryFiles == TargetsOption(targets)
  }

  ghost predicate CandidateOk(node: string, server: Server, c: Candidate) {
    && c.task.node == node && OperatorStarted(c.trigger) && IsOperatorKey(c.key)
    && TargetsReferenced(c.retryFiles) && TargetsDistinct(c.retryFiles)
    && exists id :: RunHasKey(server, id, c.key) && RunFits(server.runs[id], node, c.task.id, c.trigger, "", c.retryFiles)
  }

  // ---- a job and its run ----

  predicate SlotOk(node: string, key: string, job: JobRow) {
    if job.start.request.trigger.Scheduled? then ScheduledKeyOk(node, job.task.id, job.start.request.scheduledFor, key)
    else job.start.request.scheduledFor == ""
  }

  ghost predicate JobRunOk(node: string, server: Server, begun: set<string>, key: string, job: JobRow) {
    var start := job.start.request;
    && key in begun && SlotOk(node, key, job) && TargetsReferenced(job.retryFiles)
    && (forall id :: RunHasKey(server, id, key) ==>
          RunFits(server.runs[id], node, job.task.id, start.trigger, start.scheduledFor, job.retryFiles))
    && (!start.trigger.Scheduled? ==> exists id :: RunHasKey(server, id, key))
    && (job.runId != "" ==> RunHasKey(server, job.runId, key) && !server.runs[job.runId].status.Pending?)
  }

  /** The raw file bound to a file row is the one stored under the archive path of that row. */
  predicate FilesBound(rawFiles: map<string, RawFileRow>, runId: string, files: seq<FileRow>) {
    forall i :: 0 <= i < |files| && files[i].rawFileId != "" ==>
      && files[i].rawFileId in rawFiles && rawFiles[files[i].rawFileId].runId == runId
      && rawFiles[files[i].rawFileId].storagePath == files[i].archivePath
  }

  /** The record came out of parsing the archive its raw file is stored under. */
  predicate Evidence(w: World, rawFiles: map<string, RawFileRow>, rawFileId: string, record: ParsedRecord) {
    && rawFileId in rawFiles && w.parse(rawFiles[rawFileId].storagePath).Parsed?
    && record in w.parse(rawFiles[rawFileId].storagePath).records
  }

  /** Everything the control plane checks of a report holds of it, and its records are backed by evidence. */
  ghost predicate ReportFits(w: World, server: Server, r: ReportRequest) {
    && r.runId in server.runs && r.failedFiles.Some?
    && FailedFilesValid(server.rawFiles, r.runId, server.runs[r.runId].retryFiles, r.status, r.failedFiles.value)
    && forall i :: 0 <= i < |r.records| ==>
         && RecordStorable(server.rawFiles, r.runId, r.records[i])
         && Evidence(w, server.rawFiles, r.records[i].rawFileId, r.records[i].record)
  }

  /** A file that ended well: archived, acknowledged and parsed without an error. */
  predicate CleanFile(w: World, file: FileRow) {
    && file.errorDetail == "" && file.archived && file.rawFileId != "" && file.parsedClean
    && CleanParse(w.parse(file.archivePath))
  }

  /** The report adds up, and claims success only when every selected file ended well. */
  predicate ReportTrue(w: World, job: JobRow, r: ReportRequest) {
    && r.total == r.success + r.failed && r.success == |r.records|
    && (r.status.Succeeded? ==>
          PersistedFailures(job) == [] && forall i :: 0 <= i < |job.files| ==> CleanFile(w, job.files[i]))
  }

  ghost predicate ReportGood(w: World, server: Server, job: JobRow) {
    && (job.report.Some? ==> ReportFits(w, server, job.report.value.request) && ReportTrue(w, job, job.report.value.request))
    && forall i :: 0 <= i < |job.files| && job.files[i].parsedClean ==>
         job.report.Some? && CleanParse(w.parse(job.files[i].archivePath))
  }

  ghost predicate JobMatches(w: World, node: string, server: Server, begun: set<string>, key: string, job: JobRow) {
    JobRunOk(node, server, begun, key, job) && FilesBound(server.rawFiles, job.runId, job.files) && ReportGood(w, server, job)
  }

  // ---- messages and receipts ----

  ghost predicate MsgOk(w: World, node: string, server: Server, begun: set<string>, msg: Msg) {
    && msg.key in begun
    && match msg
       case StartMsg(key, req) =>
         && req.executionKey == key && req.node == node && (req.trigger.Scheduled? <==> !IsOperatorKey(key))
         && (req.trigger.Scheduled? ==> ScheduledKeyOk(node, req.taskId, req.scheduledFor, key))
       case ManifestMsg(key, m) =>
         RunHasKey(server, m.runId, key) && server.runs[m.runId].node == node && m.node == node && m.key == ManifestKey(node, m.runId)
       case ReportMsg(key, r) =>
         && RunHasKey(server, r.runId, key) && server.runs[r.runId].node == node && r.node == node
         && r.key == ReportKey(node, r.runId)
         && Terminal(r.status) && ReportFits(w, server, r)
  }

  predicate ReceiptFor(id: ReceiptId, receipt: Receipt, msg: Msg) {
    match msg
    case StartMsg(_, _) => false
    case ManifestMsg(_, m) =>
      ManifestReceiptId(m) == id && receipt.runId == m.runId && receipt.fingerprint == ManifestFingerprint(m)
    case ReportMsg(_, r) =>
      ReportReceiptId(r) == id && receipt.runId == r.runId && receipt.fingerprint == ReportFingerprint(r)
  }

  ghost predicate ReceiptsFromNet(server: Server, net: set<Msg>) {
    forall id :: id in server.receipts ==> exists msg :: msg in net && ReceiptFor(id, server.receipts[id], msg)
  }

  // ---- keys that were begun once ----

  /** Nothing was ever reported under the key. */
  ghost predicate Quiet(net: set<Msg>, key: string) { forall msg :: msg in net && msg.key == key ==> msg.StartMsg? }

  ghost predicate OneRequest(net: set<Msg>, key: string) {
    && (forall a, b :: a in net && b in net && a.key == key && b.key == key && a.ManifestMsg? && b.ManifestMsg? ==> a == b)
    && (forall a, b :: a in net && b in net && a.key == key && b.key == key && a.ReportMsg? && b.ReportMsg? ==> a == b)
  }

  ghost predicate ReportsSettled(server: Server, net: set<Msg>, key: string) {
    forall msg :: msg in net && msg.key == key && msg.ReportMsg? && msg.report.runId in server.runs ==>
      server.runs[msg.report.runId].status.Running? || HasReport(server, msg.report.runId)
  }

  /** The run of the key exists and is over. */
  ghost predicate Finished(server: Server, key: string) {
    exists id :: RunHasKey(server, id, key) && Terminal(server.runs[id].status)
  }

  predicate Persisted(job: JobRow, msg: Msg) {
    match msg
    case StartMsg(_, _) => true
    case ManifestMsg(_, m) => job.manifest.Some? && job.manifest.value.request == m
    case ReportMsg(_, r) => job.report.Some? && job.report.value.request == r
  }

  ghost predicate StartClean(server: Server, net: set<Msg>, key: string, scheduled: bool) {
    if scheduled then Quiet(net, key) && forall id :: RunHasKey(server, id, key) ==> server.runs[id].status.Running?
    else Quiet(net, key) || Finished(server, key)
  }

  ghost predicate WorkClean(server: Server, net: set<Msg>, key: string, job: JobRow) {
    && (forall msg :: msg in net && msg.key == key ==> Persisted(job, msg))
    && job.runId in server.runs
    && (server.runs[job.runId].status.Running? || (HasReport(server, job.runId) && job.report.Some?))
  }

  ghost predicate LiveClean(server: Server, net: set<Msg>, key: string, job: JobRow) {
    if EffectiveStage(job).StartPending? then StartClean(server, net, key, job.start.request.trigger.Scheduled?)
    else WorkClean(server, net, key, job)
  }

  ghost predicate CleanKey(jobs: map<string, JobRow>, server: Server, net: set<Msg>, key: string) {
    && OneRequest(net, key) && ReportsSettled(server, net, key)
    && if key in jobs then LiveClean(server, net, key, jobs[key]) else Finished(server, key)
  }

  // ---- the worker ----

  /** What the pass has in memory is what the queue has on disk. */
  ghost predicate PassOk(job: JobRow, next: nat, entries: seq<ManifestEntry>, failures: seq<FailedFile>) {
    && job.stage.Collecting? && job.failures.Some? && next <= |job.files| && failures == PersistedFailures(job)
    && entries == EntriesOf(job.files, next)
    && forall i :: 0 <= i < next && job.files[i].errorDetail == "" ==> job.files[i].archived
  }

  ghost predicate StartReplyOk(server: Server, net: set<Msg>, repeated: set<string>, key: string, answer: StartAnswer) {
    && RunHasKey(server, answer.runId, key) && answer.runId != ""
    && (Terminal(answer.status) ==> Terminal(server.runs[answer.runId].status))
    && (answer.status.Running? ==>
          && !server.runs[answer.runId].status.Pending?
          && (key !in repeated ==> server.runs[answer.runId].status.Running? && Quiet(net, key)))
  }

  ghost predicate ReportCommitted(server: Server, r: ReportRequest, response: Response) {
    && ReportReceiptId(r) in server.receipts
    && server.receipts[ReportReceiptId(r)] == Receipt(r.runId, ReportFingerprint(r), Some(response))
  }

  ghost predicate ReplyOk(server: Server, net: set<Msg>, repeated: set<string>, msg: Msg, reply: Reply) {
    match msg
    case StartMsg(key, req) =>
      reply.Refused? || (reply.Started? && StartReplyOk(server, net, repeated, key, reply.answer))
    case ManifestMsg(key, m) =>
      reply.Refused? || (reply.ManifestAccepted? && Recorded(server.rawFiles, m, reply.rawFileIds))
    case ReportMsg(key, r) =>
      reply.Refused? || (reply.ReportAccepted? && ReportCommitted(server, r, reply.response))
  }

  ghost predicate WorkerOk(jobs: map<string, JobRow>, server: Server, net: set<Msg>, repeated: set<string>,
                           worker: Worker) {
    match worker
    case Idle => true
    case Pass(key, next, entries, failures) => key in jobs && PassOk(jobs[key], next, entries, failures)
    case Call(key, msg, reply) =>
      && key in jobs && MsgOf(key, jobs[key]) == Some(msg) && msg in net
      && (reply.Some? ==> ReplyOk(server, net, repeated, msg, reply.value))
  }

  // ---- ownership of files ----

  /** A job of the task has the fingerprint in its plan. */
  ghost predicate Holds(jobs: map<string, JobRow>, key: string, taskId: string, fingerprint: string) {
    && key in jobs && jobs[key].task.id == taskId
    && exists i :: 0 <= i < |jobs[key].files| && jobs[key].files[i].fingerprint == fingerprint
  }

  ghost predicate OneHolder(jobs: map<string, JobRow>) {
    forall a, b, taskId, fp :: Holds(jobs, a, taskId, fp) && Holds(jobs, b, taskId, fp) ==> a == b
  }

  /** The report of the run of the key was committed. */
  ghost predicate Reported(server: Server, key: string) {
    exists id :: RunHasKey(server, id, key) && HasReport(server, id)
  }

  /** A fingerprint counts as processed only when the report of its run was committed. */
  ghost predicate ProcessedOk(server: Server, processed: seq<ProcessedRow>) {
    forall i :: 0 <= i < |processed| ==> Reported(server, processed[i].executionKey)
  }

  // ---- the invariant ----

  ghost predicate JobsOk(w: World, queue: Queue) {
    forall key :: key in queue.jobs ==> JobOk(w.workDir, queue.node, key, queue.jobs[key])
  }

  ghost predicate JobsMatch(w: World, queue: Queue, server: Server, begun: set<string>) {
    forall key :: key in queue.jobs ==> JobMatches(w, queue.node, server, begun, key, queue.jobs[key])
  }

  ghost predicate NetOk(w: World, node: string, server: Server, begun: set<string>, net: set<Msg>) {
    forall msg :: msg in net ==> MsgOk(w, node, server, begun, msg)
  }

  ghost predicate KeysClean(jobs: map<string, JobRow>, server: Server, net: set<Msg>, begun: set<string>,
                            repeated: set<string>) {
    forall key :: key in begun && key !in repeated ==> CleanKey(jobs, server, net, key)
  }

  ghost predicate RecordsEvidenced(w: World, server: Server) {
    forall i :: 0 <= i < |server.records| ==> Evidence(w, server.rawFiles, server.records[i].rawFileId, server.records[i].record)
  }

  ghost predicate CandidatesOk(node: string, server: Server, candidates: set<Candidate>) {
    forall c :: c in candidates ==> CandidateOk(node, server, c)
  }

  /** Only scheduled keys can be begun twice with effect. */
  ghost predicate RepeatedOk(s: Sys) { forall key :: key in s.repeated ==> key in s.begun && !IsOperatorKey(key) }

  ghost predicate Inv(w: World, s: Sys) {
    && JobsOk(w, s.queue) && OneHolder(s.queue.jobs) && |s.queue.jobs| <= s.queue.maxJobs
    && ServerOk(s.server) && RunsOk(s.queue.node, s.server, s.begun) && RecordsEvidenced(w, s.server)
    && ReceiptsFromNet(s.server, s.net) && NetOk(w, s.queue.node, s.server, s.begun, s.net)
    && CandidatesOk(s.queue.node, s.server, s.candidates) && JobsMatch(w, s.queue, s.server, s.begun)
    && KeysClean(s.queue.jobs, s.server, s.net, s.begun, s.repeated) && RepeatedOk(s)
    && WorkerOk(s.queue.jobs, s.server, s.net, s.repeated, s.worker) && ProcessedOk(s.server, s.queue.processed)
  }

  lemma InitInv(w: World, s: Sys)
    requires Init(s)
    ensures Inv(w, s)
  {
    EmptyServerOk(s.server.tasks);
    assert s.server == Server(s.server.tasks, map[], map[], [], map[]);
  }

  // ---- a change to one job row ----

  lemma HoldsFrame(a: map<string, JobRow>, b: map<string, JobRow>, key: string)
    requires key in a && key in b && b == a[key := b[key]] 
    requires b[key].task == a[key].task && SameInputs(a[key].files, b[key].files)
    ensures forall k, taskId, fp :: Holds(b, k, taskId, fp) <==> Holds(a, k, taskId, fp)
  {
    forall k, taskId, fp ensures Holds(b, k, taskId, fp) <==> Holds(a, k, taskId, fp) {
      if Holds(a, k, taskId, fp) {
        var i :| 0 <= i < |a[k].files| && a[k].files[i].fingerprint == fp;
        assert b[k].files[i].fingerprint == fp;
      }
      if Holds(b, k, taskId, fp) {
        var i :| 0 <= i < |b[k].files| && b[k].files[i].fingerprint == fp;
        assert a[k].files[i].fingerprint == fp;
      }
    }
  }

  lemma OneHolderFrame(a: map<string, JobRow>, b: map<string, JobRow>, key: string)
    requires OneHolder(a) && key in a && key in b && b == a[key := b[key]] 
    requires b[key].task == a[key].task && SameInputs(a[key].files, b[key].files)
    ensures OneHolder(b)
  {
    HoldsFrame(a, b, key);
  }

  lemma JobsOkUpdate(w: World, queue: Queue, key: string, job: JobRow)
    requires JobsOk(w, queue) && JobOk(w.workDir, queue.node, key, job)
    ensures JobsOk(w, queue.(jobs := queue.jobs[key := job]))
  {
  }

  lemma JobsMatchUpdate(w: World, queue: Queue, server: Server, begun: set<string>, key: string, job: JobRow)
    requires JobsMatch(w, queue, server, begun) && JobMatches(w, queue.node, server, begun, key, job)
    ensures JobsMatch(w, queue.(jobs := queue.jobs[key := job]), server, begun)
  {
  }

  lemma KeysCleanUpdate(jobs: map<string, JobRow>, server: Server, net: set<Msg>, begun: set<string>,
                        repeated: set<string>,
                        key: string, job: JobRow)
    requires KeysClean(jobs, server, net, begun, repeated)
    requires key in begun && key !in repeated ==> LiveClean(server, net, key, job)
    ensures KeysClean(jobs[key := job], server, net, begun, repeated)
  {
    forall k | k in begun && k !in repeated ensures CleanKey(jobs[key := job], server, net, k) {
      assert CleanKey(jobs, server, net, k);
    }
  }

  lemma QueueStepKeeps(w: World, s: Sys, t: Sys)
    requires Inv(w, s) && t == s.(queue := s.queue.(jobs := t.queue.jobs), worker := t.worker)
    requires JobsOk(w, t.queue) && JobsMatch(w, t.queue, s.server, s.begun)
    requires KeysClean(t.queue.jobs, s.server, s.net, s.begun, s.repeated)
    requires OneHolder(t.queue.jobs) && |t.queue.jobs| <= |s.queue.jobs|
    requires WorkerOk(t.queue.jobs, s.server, s.net, s.repeated, t.worker)
    ensures Inv(w, t)
  {
    hide JobsOk, JobsMatch, KeysClean, OneHolder, WorkerOk, ServerOk, RunsOk, RecordsEvidenced, ReceiptsFromNet,
      NetOk, CandidatesOk, ProcessedOk;
  }

  /** Everything that concerns one job row. */
  ghost predicate RowOk(w: World, s: Sys, key: string, job: JobRow) {
    && JobOk(w.workDir, s.queue.node, key, job) && JobMatches(w, s.queue.node, s.server, s.begun, key, job)
    && (key !in s.repeated ==> LiveClean(s.server, s.net, key, job))
  }

  lemma RowsOk(w: World, s: Sys, key: string)
    requires Inv(w, s) && key in s.queue.jobs
    ensures RowOk(w, s, key, s.queue.jobs[key])
  {
    hide JobOk, JobMatches, LiveClean, OneHolder, WorkerOk, ServerOk, RunsOk, RecordsEvidenced, ReceiptsFromNet,
      NetOk, CandidatesOk, ProcessedOk;
    assert JobMatches(w, s.queue.node, s.server, s.begun, key, s.queue.jobs[key]);
    if key !in s.repeated {
      assert key in s.begun by { BegunJob(w, s, key); }
      assert CleanKey(s.queue.jobs, s.server, s.net, key);
    }
  }

  lemma BegunJob(w: World, s: Sys, key: string)
    requires JobsMatch(w, s.queue, s.server, s.begun) && key in s.queue.jobs
    ensures key in s.begun
  {
    assert JobMatches(w, s.queue.node, s.server, s.begun, key, s.queue.jobs[key]);
  }

  lemma SameSize(jobs: map<string, JobRow>, key: string, job: JobRow)
    requires key in jobs
    ensures |jobs[key := job]| == |jobs|
  {
    assert jobs[key := job].Keys == jobs.Keys;
  }

  /** A step that rewrites one job row has to re-establish what concerns that row, and the worker. */
  lemma JobStepKeeps(w: World, s: Sys, t: Sys, key: string, job: JobRow)
    requires Inv(w, s) && key in s.queue.jobs
    requires t == s.(queue := s.queue.(jobs := s.queue.jobs[key := job]), worker := t.worker)
    requires RowOk(w, s, key, job) && OneHolder(t.queue.jobs)
    requires WorkerOk(t.queue.jobs, s.server, s.net, s.repeated, t.worker)
    ensures Inv(w, t)
  {
    hide JobOk, JobMatches, LiveClean, OneHolder, WorkerOk, ServerOk, RunsOk, RecordsEvidenced, ReceiptsFromNet,
      NetOk, CandidatesOk, ProcessedOk, JobsOk, JobsMatch, KeysClean;
    JobsOkUpdate(w, s.queue, key, job);
    JobsMatchUpdate(w, s.queue, s.server, s.begun, key, job);
    KeysCleanUpdate(s.queue.jobs, s.server, s.net, s.begun, s.repeated, key, job);
    SameSize(s.queue.jobs, key, job);
    QueueStepKeeps(w, s, t);
  }

  // ---- detours through side states ----

  lemma SameWorkMatches(w: World, node: string, server: Server, begun: set<string>, key: string, a: JobRow, b: JobRow)
    requires JobMatches(w, node, server, begun, key, a) && SameWork(a, b)
    ensures JobMatches(w, node, server, begun, key, b)
  {
    assert PersistedFailures(b) == PersistedFailures(a);
  }

  lemma SameWorkClean(server: Server, net: set<Msg>, key: string, a: JobRow, b: JobRow)
    requires LiveClean(server, net, key, a) && SameWork(a, b) && EffectiveStage(b) == EffectiveStage(a)
    ensures LiveClean(server, net, key, b)
  {
    if !EffectiveStage(a).StartPending? {
      forall msg | msg in net && msg.key == key ensures Persisted(b, msg) {
        assert Persisted(a, msg);
      }
    }
  }

  lemma SameWorkRow(w: World, s: Sys, key: string, a: JobRow, b: JobRow)
    requires RowOk(w, s, key, a) && SameWork(a, b) && StageOk(b) && EffectiveStage(b) == EffectiveStage(a)
    ensures RowOk(w, s, key, b)
  {
    hide JobOk, JobMatches, LiveClean, SameWork;
    SideStateKeepsJob(w.workDir, s.queue.node, key, a, b);
    SameWorkMatches(w, s.queue.node, s.server, s.begun, key, a, b);
    if key !in s.repeated {
      SameWorkClean(s.server, s.net, key, a, b);
    }
  }

  /** Attention, waiting, resuming and retrying leave the invariant alone. */
  lemma SideStepKeeps(w: World, s: Sys, t: Sys, key: string, job: JobRow)
    requires Inv(w, s) && key in s.queue.jobs
    requires t == s.(queue := s.queue.(jobs := s.queue.jobs[key := job]), worker := Idle)
    requires SameWork(s.queue.jobs[key], job) && StageOk(job)
    requires EffectiveStage(job) == EffectiveStage(s.queue.jobs[key])
    ensures Inv(w, t)
  {
    hide RowOk, JobsOk, JobsMatch, KeysClean, ServerOk, RunsOk, RecordsEvidenced, ReceiptsFromNet, NetOk,
      CandidatesOk, ProcessedOk, StageOk;
    RowsOk(w, s, key);
    SameWorkRow(w, s, key, s.queue.jobs[key], job);
    OneHolderFrame(s.queue.jobs, t.queue.jobs, key);
    JobStepKeeps(w, s, t, key, job);
  }
}
