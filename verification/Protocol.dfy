/**
 The reliability protocol as a state machine: one Agent with its durable queue, a network that may lose, repeat and
 delay every request, and the control plane. Each step is one SQLite transaction, one PostgreSQL transaction, one
 message, or a crash, so the Agent may die between any two of them.
 */
module Protocol {
  import opened Messages
  import opened Calendar
  import opened QueueModel
  import opened Planning
  import opened Reporting
  import opened ControlPlane
  import opened JobInvariant

  /** What does not change during a run: where archives live, what parsing an archive gives, what a QC rule says. */
  datatype World = World(workDir: string, parse: string -> ParseOutcome, check: (QcRule, ParsedRecord) -> QcResult)

  datatype Msg = StartMsg(key: string, start: StartRequest)
               | ManifestMsg(key: string, manifest: ManifestRequest)
               | ReportMsg(key: string, report: ReportRequest)

  /** The worker's memory, lost in a crash. Pass is the loop over the files of a collecting job, with the manifest
      entries and the failure list it has accumulated; Call waits for the answer to one request. */
  datatype Worker = Idle
                  | Pass(key: string, next: nat, entries: seq<ManifestEntry>, failures: seq<FailedFile>)
                  | Call(key: string, msg: Msg, reply: Option<Reply>)

  /** A pending manual or retry run as the Agent polled it. */
  datatype Candidate = Candidate(key: string, task: TaskConfig, trigger: Trigger, retryFiles: seq<RetryFile>)

  /** net holds every request ever sent: a request may be handled late, often or never.
      begun and repeated record which execution keys were ever begun, and begun anew after their job had gone. */
  datatype Sys = Sys(queue: Queue, server: Server, net: set<Msg>, worker: Worker, candidates: set<Candidate>,
                     begun: set<string>, repeated: set<string>)

  /** What the database draws, and whether the QC rules are usable, while it handles one request. */
  datatype Draw = Draw(newId: string, rawIds: seq<string>, recordIds: seq<string>, qcIds: seq<string>,
                       alertIds: seq<string>, rulesUsable: bool)

  ghost predicate Init(s: Sys) {
    && s.queue.jobs == map[] && s.queue.processed == []
    && s.server.runs == map[] && s.server.rawFiles == map[] && s.server.records == [] && s.server.receipts == map[]
    && s.net == {} && s.worker == Idle && s.candidates == {} && s.begun == {} && s.repeated == {}
  }

  // ---- beginning a job ----

  ghost predicate BeginScheduled(s: Sys, t: Sys, task: TaskConfig, slot: string, startedAt: string) {
    var key := ScheduledExecutionKey(task.node, task.id, slot);
    var request := StartRequest(task.node, task.id, key, slot, startedAt, Scheduled);
    && s.worker.Idle? && IsRfc3339Utc(slot)
    && match QueueModel.BeginJob(s.queue, task, request, [])
       case Begun(q) =>
         t == s.(queue := q, begun := s.begun + {key}, repeated := if key in s.begun then s.repeated + {key} else s.repeated)
       case AlreadyQueued => t == s
       case BeginError => t == s
  }

  ghost predicate BeginManual(s: Sys, t: Sys, c: Candidate, startedAt: string) {
    var request := StartRequest(c.task.node, c.task.id, c.key, "", startedAt, c.trigger);
    && s.worker.Idle? && c in s.candidates && c.key !in s.queue.jobs
    && match QueueModel.BeginJob(s.queue, c.task, request, c.retryFiles)
       case Begun(q) => t == s.(queue := q, begun := s.begun + {c.key})
       case AlreadyQueued => t == s
       case BeginError => t == s
  }

  /** The Agent is told of a pending manual run of its node; the answer may be stale by the time it is used. */
  ghost predicate Poll(s: Sys, t: Sys, id: string, task: TaskConfig) {
    && id in s.server.runs && PendingManual(s.server.runs[id]) && s.server.runs[id].node == s.queue.node
    && task.id == s.server.runs[id].taskId && task.node == s.queue.node
    && var run := s.server.runs[id];
       t == s.(candidates := s.candidates + {Candidate(run.executionKey, task, run.trigger,
                                                       if run.retryFiles.Some? then run.retryFiles.value else [])})
  }

  // ---- collecting ----

  predicate NeedsPlan(s: Sys, key: string) {
    && s.worker.Idle? && key in s.queue.jobs && s.queue.jobs[key].stage.Collecting?
    && s.queue.jobs[key].files == [] && s.queue.jobs[key].failures.None?
  }

  ghost predicate SavesDraft(s: Sys, t: Sys, key: string, draft: Option<Draft>) {
    && draft.Some? && QueueModel.SaveFilePlan(s.queue, key, draft.value.plan, draft.value.failures).Some?
    && t == s.(queue := QueueModel.SaveFilePlan(s.queue, key, draft.value.plan, draft.value.failures).value)
  }

  ghost predicate PlanDirectory(w: World, s: Sys, t: Sys, key: string, limit: nat, items: seq<Listing>) {
    && NeedsPlan(s, key) && s.queue.jobs[key].retryFiles == [] && Distinct(ItemPaths(items))
    && SavesDraft(s, t, key, DirectoryDraft(s.queue, SiteOf(w.workDir, s.queue.jobs[key]), limit, items, |items|))
  }

  ghost predicate PlanTargets(w: World, s: Sys, t: Sys, key: string, checks: seq<TargetCheck>) {
    && NeedsPlan(s, key) && s.queue.jobs[key].retryFiles != [] && |checks| == |s.queue.jobs[key].retryFiles|
    && var job := s.queue.jobs[key];
       SavesDraft(s, t, key, TargetDraft(s.queue, SiteOf(w.workDir, job), job.retryFiles, checks, |checks|))
  }

  /** The pass starts from the saved list, after completing it with failures that were marked but not listed. */
  ghost predicate PassStart(s: Sys, t: Sys, key: string) {
    && s.worker.Idle? && key in s.queue.jobs && s.queue.jobs[key].stage.Collecting? && s.queue.jobs[key].failures.Some?
    && var job := s.queue.jobs[key];
       var amended := Amended(job, |job.files|);
       var queue := if amended == PersistedFailures(job) then s.queue
                    else s.queue.(jobs := s.queue.jobs[key := job.(failures := Some(amended))]);
       t == s.(queue := queue, worker := Pass(key, 0, [], amended))
  }

  predicate AtFile(s: Sys) {
    && s.worker.Pass? && s.worker.key in s.queue.jobs && s.worker.next < |s.queue.jobs[s.worker.key].files|
  }

  /** A file that failed before is not tried again. */
  predicate PassSkip(s: Sys, t: Sys) {
    && AtFile(s) && s.queue.jobs[s.worker.key].files[s.worker.next].errorDetail != ""
    && t == s.(worker := s.worker.(next := s.worker.next + 1))
  }

  predicate PassArchived(s: Sys, t: Sys) {
    && AtFile(s)
    && var file := s.queue.jobs[s.worker.key].files[s.worker.next];
       && file.errorDetail == "" && QueueModel.MarkFileArchived(s.queue, s.worker.key, file.ordinal).Some?
       && t == s.(queue := QueueModel.MarkFileArchived(s.queue, s.worker.key, file.ordinal).value,
                  worker := s.worker.(next := s.worker.next + 1, entries := s.worker.entries + [EntryOf(file)]))
  }

  predicate PassFailed(s: Sys, t: Sys, message: string) {
    && AtFile(s) && message != ""
    && var job := s.queue.jobs[s.worker.key];
       var file := job.files[s.worker.next];
       var failures := s.worker.failures + [ArchiveFailure(job, s.worker.next, message)];
       && file.errorDetail == "" && QueueModel.MarkFileFailed(s.queue, s.worker.key, file.ordinal, message, failures).Some?
       && t == s.(queue := QueueModel.MarkFileFailed(s.queue, s.worker.key, file.ordinal, message, failures).value,
                  worker := s.worker.(next := s.worker.next + 1, failures := failures))
  }

  /** An archive that contradicts its evidence sends the whole job to a person. */
  predicate PassConflict(s: Sys, t: Sys) {
    && AtFile(s) && QueueModel.MarkRequiresAttention(s.queue, s.worker.key, "archive_conflict").Some?
    && t == s.(queue := QueueModel.MarkRequiresAttention(s.queue, s.worker.key, "archive_conflict").value, worker := Idle)
  }

  predicate PassDone(s: Sys) {
    && s.worker.Pass? && s.worker.key in s.queue.jobs && s.worker.next == |s.queue.jobs[s.worker.key].files|
  }

  ghost predicate SaveManifest(s: Sys, t: Sys) {
    && PassDone(s) && s.worker.entries != []
    && var request := ManifestFor(s.queue.jobs[s.worker.key], s.worker.entries);
       && QueueModel.SaveManifest(s.queue, s.worker.key, request).Some?
       && t == s.(queue := QueueModel.SaveManifest(s.queue, s.worker.key, request).value, worker := Idle)
  }

  // ---- reporting ----

  /** Parsing as it goes today: an archive that cannot be read now fails, whatever it holds. */
  function Reading(w: World, unreadable: map<string, string>): string -> ParseOutcome {
    path => if path in unreadable then ParseFailed(unreadable[path]) else w.parse(path)
  }

  ghost predicate SavesReport(s: Sys, t: Sys, key: string, report: ReportRequest, clean: seq<bool>) {
    && QueueModel.SaveReport(s.queue, key, report, clean).Some?
    && t == s.(queue := QueueModel.SaveReport(s.queue, key, report, clean).value, worker := Idle)
  }

  /** The report is built after the manifest was acknowledged, or straight after a pass that archived nothing. */
  predicate ReadyToReport(s: Sys, key: string) {
    && key in s.queue.jobs
    && if s.worker.Idle? then s.queue.jobs[key].stage.ReportBuilding?
       else PassDone(s) && s.worker.key == key && s.worker.entries == [] && s.queue.jobs[key].stage.Collecting?
  }

  ghost predicate SaveReport(w: World, s: Sys, t: Sys, key: string, unreadable: map<string, string>,
                             finishedAt: string) {
    && ReadyToReport(s, key)
    && var job := s.queue.jobs[key];
       var tally := JobTally(job, Reading(w, unreadable), w.check);
       SavesReport(s, t, key, ReportOf(job, tally, finishedAt), tally.clean)
  }

  /** Whatever goes wrong while collecting, short of a queue error, becomes a failed report of the whole run. */
  ghost predicate FailCollection(s: Sys, t: Sys, key: string, error: string, finishedAt: string) {
    && key in s.queue.jobs && s.queue.jobs[key].stage.Collecting?
    && (s.worker.Idle? || (s.worker.Pass? && s.worker.key == key))
    && SavesReport(s, t, key, CollectionFailureReport(s.queue.jobs[key], error, finishedAt), NoneClean(s.queue.jobs[key]))
  }

  // ---- delivery ----

  function MsgOf(key: string, job: JobRow): Option<Msg> {
    match job.stage
    case StartPending => Some(StartMsg(key, job.start.request))
    case ManifestPending => if job.manifest.Some? then Some(ManifestMsg(key, job.manifest.value.request)) else None
    case ReportPending => if job.report.Some? then Some(ReportMsg(key, job.report.value.request)) else None
    case _ => None
  }

  ghost predicate Resume(s: Sys, t: Sys, key: string) {
    && s.worker.Idle? && key in s.queue.jobs && s.queue.jobs[key].stage.RetryWait?
    && QueueModel.ResumeDelivery(s.queue, key).Some?
    && t == s.(queue := QueueModel.ResumeDelivery(s.queue, key).value)
  }

  ghost predicate Send(s: Sys, t: Sys, key: string) {
    && s.worker.Idle? && key in s.queue.jobs && MsgOf(key, s.queue.jobs[key]).Some?
    && var msg := MsgOf(key, s.queue.jobs[key]).value;
       t == s.(net := s.net + {msg}, worker := Call(key, msg, None))
  }

  ghost predicate FreshDraw(s: Server, msg: Msg, d: Draw) {
    match msg
    case StartMsg(_, _) => d.newId !in s.runs && d.newId != ""
    case ManifestMsg(_, m) => |d.rawIds| == |m.files| && FreshRawFileIds(s, d.rawIds)
    case ReportMsg(_, r) => |d.recordIds| == |r.records|
  }

  ghost function Handled(s: Server, msg: Msg, d: Draw): (Server, Reply)
    requires FreshDraw(s, msg, d)
  {
    match msg
    case StartMsg(_, request) => ControlPlane.Start(s, request, d.newId)
    case ManifestMsg(_, m) => ControlPlane.AcceptManifest(s, m, d.rawIds)
    case ReportMsg(_, r) => ControlPlane.AcceptReport(s, r, d.recordIds, d.qcIds, d.alertIds, d.rulesUsable)
  }

  /** The control plane handles any request that was ever sent; the answer may reach the worker or be lost. */
  ghost predicate Handle(s: Sys, t: Sys, msg: Msg, d: Draw, answered: bool) {
    && msg in s.net && FreshDraw(s.server, msg, d)
    && var (server, reply) := Handled(s.server, msg, d);
       var hears := answered && s.worker.Call? && s.worker.msg == msg && s.worker.reply.None?;
       t == s.(server := server, worker := if hears then s.worker.(reply := Some(reply)) else s.worker)
  }

  /** The call timed out, was refused or could not be understood; the failure is recorded and the job waits. */
  predicate CallFails(s: Sys, t: Sys, retryable: bool, errorKind: string) {
    && s.worker.Call? && s.worker.key in s.queue.jobs
    && var kind := KindOf(s.queue.jobs[s.worker.key].stage);
       t == s.(queue := QueueModel.RecordDeliveryFailure(s.queue, s.worker.key, kind, retryable, errorKind), worker := Idle)
  }

  predicate AnsweredBy(s: Sys, key: string, reply: Reply) {
    s.worker.Call? && s.worker.key == key && s.worker.reply == Some(reply)
  }

  predicate Discard(s: Sys, t: Sys, key: string, answer: StartAnswer) {
    && AnsweredBy(s, key, Started(answer)) && Terminal(answer.status)
    && QueueModel.DiscardStartPending(s.queue, key).Some?
    && t == s.(queue := QueueModel.DiscardStartPending(s.queue, key).value, worker := Idle)
  }

  predicate AcceptStart(s: Sys, t: Sys, key: string, answer: StartAnswer) {
    && AnsweredBy(s, key, Started(answer)) && answer.status.Running?
    && QueueModel.AcceptStart(s.queue, key, answer.runId).Some?
    && t == s.(queue := QueueModel.AcceptStart(s.queue, key, answer.runId).value, worker := Idle)
  }

  ghost predicate BindManifest(s: Sys, t: Sys, key: string, ids: seq<string>, replayed: bool) {
    && AnsweredBy(s, key, ManifestAccepted(ids, replayed))
    && QueueModel.AcceptManifest(s.queue, key, ids).Some?
    && t == s.(queue := QueueModel.AcceptManifest(s.queue, key, ids).value, worker := Idle)
  }

  ghost predicate Complete(s: Sys, t: Sys, key: string, response: Response, replayed: bool, now: int) {
    && AnsweredBy(s, key, ReportAccepted(response, replayed))
    && QueueModel.CompleteJob(s.queue, key, now).Some?
    && t == s.(queue := QueueModel.CompleteJob(s.queue, key, now).value, worker := Idle)
  }

  // ---- side states, operators and crashes ----

  /** A request over the body limit is not worth sending again. */
  predicate Oversized(s: Sys, t: Sys, key: string) {
    && s.worker.Idle? && key in s.queue.jobs && DeliveryStage(EffectiveStage(s.queue.jobs[key]))
    && QueueModel.MarkRequiresAttention(s.queue, key, "payload_too_large").Some?
    && t == s.(queue := QueueModel.MarkRequiresAttention(s.queue, key, "payload_too_large").value)
  }

  /** The maintenance tool runs while the Agent does not. */
  predicate RetryAttention(s: Sys, t: Sys, key: string) {
    && s.worker.Idle? && QueueModel.RetryAttentionJob(s.queue, key).Resumption?
    && t == s.(queue := QueueModel.RetryAttentionJob(s.queue, key).queue)
  }

  ghost predicate RequestManual(s: Sys, t: Sys, taskId: string, token: string, executable: bool, newId: string) {
    && newId !in s.server.runs && newId != ""
    && t == s.(server := ControlPlane.RequestManualRun(s.server, taskId, token, executable, newId).0)
  }

  ghost predicate RequestRetry(s: Sys, t: Sys, runId: string, token: string, executable: bool, newId: string) {
    && newId !in s.server.runs && newId != ""
    && t == s.(server := ControlPlane.RequestRetryRun(s.server, runId, token, executable, newId).0)
  }

  predicate SetEnabled(s: Sys, t: Sys, taskId: string, enabled: bool, executable: bool) {
    t == s.(server := ControlPlane.SetTaskEnabled(s.server, taskId, enabled, executable))
  }

  predicate Crash(s: Sys, t: Sys) { t == s.(worker := Idle) }

  // ---- runs ----

  datatype Step = BeginScheduledStep(task: TaskConfig, slot: string, startedAt: string)
                | BeginManualStep(candidate: Candidate, startedAt: string)
                | PollStep(id: string, task: TaskConfig)
                | PlanDirectoryStep(key: string, limit: nat, items: seq<Listing>)
                | PlanTargetsStep(key: string, checks: seq<TargetCheck>)
                | PassStartStep(key: string)
                | PassSkipStep
                | PassArchivedStep
                | PassFailedStep(message: string)
                | PassConflictStep
                | SaveManifestStep
                | SaveReportStep(key: string, unreadable: map<string, string>, finishedAt: string)
                | FailCollectionStep(key: string, error: string, finishedAt: string)
                | ResumeStep(key: string)
                | SendStep(key: string)
                | HandleStep(msg: Msg, draw: Draw, answered: bool)
                | CallFailsStep(retryable: bool, errorKind: string)
                | DiscardStep(key: string, answer: StartAnswer)
                | AcceptStartStep(key: string, answer: StartAnswer)
                | BindManifestStep(key: string, ids: seq<string>, replayed: bool)
                | CompleteStep(key: string, response: Response, replayed: bool, now: int)
                | OversizedStep(key: string)
                | RetryAttentionStep(key: string)
                | RequestManualStep(taskId: string, token: string, executable: bool, newId: string)
                | RequestRetryStep(runId: string, token: string, executable: bool, newId: string)
                | SetEnabledStep(taskId: string, enabled: bool, executable: bool)
                | CrashStep

  ghost predicate Takes(w: World, s: Sys, step: Step, t: Sys) {
    match step
    case BeginScheduledStep(task, slot, startedAt) => BeginScheduled(s, t, task, slot, startedAt)
    case BeginManualStep(c, startedAt) => BeginManual(s, t, c, startedAt)
    case PollStep(id, task) => Poll(s, t, id, task)
    case PlanDirectoryStep(key, limit, items) => PlanDirectory(w, s, t, key, limit, items)
    case PlanTargetsStep(key, checks) => PlanTargets(w, s, t, key, checks)
    case PassStartStep(key) => PassStart(s, t, key)
    case PassSkipStep => PassSkip(s, t)
    case PassArchivedStep => PassArchived(s, t)
    case PassFailedStep(message) => PassFailed(s, t, message)
    case PassConflictStep => PassConflict(s, t)
    case SaveManifestStep => SaveManifest(s, t)
    case SaveReportStep(key, unreadable, finishedAt) => SaveReport(w, s, t, key, unreadable, finishedAt)
    case FailCollectionStep(key, error, finishedAt) => FailCollection(s, t, key, error, finishedAt)
    case ResumeStep(key) => Resume(s, t, key)
    case SendStep(key) => Send(s, t, key)
    case HandleStep(msg, draw, answered) => Handle(s, t, msg, draw, answered)
    case CallFailsStep(retryable, errorKind) => CallFails(s, t, retryable, errorKind)
    case DiscardStep(key, answer) => Discard(s, t, key, answer)
    case AcceptStartStep(key, answer) => AcceptStart(s, t, key, answer)
    case BindManifestStep(key, ids, replayed) => BindManifest(s, t, key, ids, replayed)
    case CompleteStep(key, response, replayed, now) => Complete(s, t, key, response, replayed, now)
    case OversizedStep(key) => Oversized(s, t, key)
    case RetryAttentionStep(key) => RetryAttention(s, t, key)
    case RequestManualStep(taskId, token, executable, newId) => RequestManual(s, t, taskId, token, executable, newId)
    case RequestRetryStep(runId, token, executable, newId) => RequestRetry(s, t, runId, token, executable, newId)
    case SetEnabledStep(taskId, enabled, executable) => SetEnabled(s, t, taskId, enabled, executable)
    case CrashStep => Crash(s, t)
  }

  ghost predicate Next(w: World, s: Sys, t: Sys) { exists step :: Takes(w, s, step, t) }

  ghost predicate Behaviour(w: World, trace: seq<Sys>) {
    && trace != [] && Init(trace[0])
    && forall i :: 0 <= i < |trace| - 1 ==> Next(w, trace[i], trace[i + 1])
  }
}
