/** Every transaction of the control plane keeps the joint invariant, whichever sent request it handles and however
    late. */
module ServerSteps {
  import opened Messages
  import opened Fingerprint
  import opened QueueModel
  import opened ControlPlane
  import opened ServerInvariant
  import opened JobInvariant
  import opened Protocol
  import opened ProtocolInvariant
  import opened AgentSteps
  import opened DeliverySteps
  import opened BeginSteps
  import opened ServerGrowth

  // ---- transactions that only add or settle runs ----

  /** Runs are added or leave the pending state; nothing else changes. */
  ghost predicate RunsOnly(a: Server, b: Server) {
    && OnlyRunsChange(a, b)
    && forall id :: id in a.runs ==> id in b.runs && (b.runs[id] == a.runs[id] || a.runs[id].status.Pending?)
  }

  lemma RunsOnlyKeeps(w: World, s: Sys, t: Sys)
    requires Inv(w, s) && t == s.(server := t.server, worker := t.worker)
    requires ServerOk(t.server) && RunsOnly(s.server, t.server) && NewRunsOk(s, t.server)
    requires WorkerOk(s.queue.jobs, t.server, s.net, s.repeated, t.worker)
    ensures Inv(w, t)
  {
    hide JobsOk, JobsMatch, KeysClean, ServerOk, RunsOk, RecordsEvidenced, ReceiptsFromNet, NetOk, CandidatesOk,
      ProcessedOk, OneHolder, WorkerOk, NewRunsOk, RunningStays, RepeatedOk;
    RunsOnlyStays(s, t.server);
    EvidenceGrows(w, s.server, t.server);
    SameReceipts(s.server, t.server, s.net);
    ServerStepKeeps(w, s, t);
  }

  lemma SameReceipts(a: Server, b: Server, net: set<Msg>)
    requires ReceiptsFromNet(a, net) && b.receipts == a.receipts
    ensures ReceiptsFromNet(b, net)
  {
  }

  lemma RunsOnlyStays(s: Sys, b: Server)
    requires RunsOnly(s.server, b)
    ensures RunningStays(s, b)
  {
  }

  lemma EvidenceGrows(w: World, a: Server, b: Server)
    requires RecordsEvidenced(w, a) && Grows(a, b) && b.records == a.records
    ensures RecordsEvidenced(w, b)
  {
    forall i | 0 <= i < |b.records| ensures Evidence(w, b.rawFiles, b.records[i].rawFileId, b.records[i].record) {
      assert Evidence(w, a.rawFiles, a.records[i].rawFileId, a.records[i].record);
    }
  }

  lemma WorkerSurvives(w: World, s: Sys, b: Server)
    requires Inv(w, s) && Grows(s.server, b) && RunningStays(s, b)
    ensures WorkerOk(s.queue.jobs, b, s.net, s.repeated, s.worker)
  {
    hide Inv, Grows, RunningStays;
    WorkerParts(w, s);
    WorkerOkGrows(s, b);
  }

  // ---- operators ----

  lemma SetEnabledKeeps(w: World, s: Sys, t: Sys, taskId: string, enabled: bool, executable: bool)
    requires Inv(w, s) && SetEnabled(s, t, taskId, enabled, executable)
    ensures Inv(w, t)
  {
    hide Inv, ServerOk, RunsOk, NetOk, ReceiptsFromNet, CandidatesOk, ProcessedOk, RunningStays;
    ServerParts(w, s);
    SetTaskEnabledKeepsServer(s.server, taskId, enabled, executable);
    DisableSettles(s, taskId, enabled, executable);
    RunsOnlyStays(s, t.server);
    WorkerSurvives(w, s, t.server);
    RunsOnlyKeeps(w, s, t);
  }

  lemma DisableSettles(s: Sys, taskId: string, enabled: bool, executable: bool)
    requires Grows(s.server, SetTaskEnabled(s.server, taskId, enabled, executable))
    ensures RunsOnly(s.server, SetTaskEnabled(s.server, taskId, enabled, executable))
    ensures NewRunsOk(s, SetTaskEnabled(s.server, taskId, enabled, executable))
  {
  }

  lemma OperatorJobHasRun(w: World, s: Sys, key: string)
    requires JobsOk(w, s.queue) && JobsMatch(w, s.queue, s.server, s.begun) && IsOperatorKey(key) && key in s.queue.jobs
    ensures exists id :: RunHasKey(s.server, id, key)
  {
    hide FilesOk, RequestsOk, ReferencesOk, RawFilesBound, ProgressOk, StageOk, FilesBound, ReportGood, RunHasKey,
      IsOperatorKey;
    assert JobOk(w.workDir, s.queue.node, key, s.queue.jobs[key]);
    assert JobMatches(w, s.queue.node, s.server, s.begun, key, s.queue.jobs[key]);
  }

  lemma NoJobWithoutRun(w: World, s: Sys, key: string)
    requires JobsOk(w, s.queue) && JobsMatch(w, s.queue, s.server, s.begun)
    requires IsOperatorKey(key) && forall id :: !RunHasKey(s.server, id, key)
    ensures key !in s.queue.jobs
  {
    hide JobsOk, JobsMatch, RunHasKey, IsOperatorKey;
    if key in s.queue.jobs {
      OperatorJobHasRun(w, s, key);
    }
  }

  lemma QueueParts(w: World, s: Sys)
    requires Inv(w, s)
    ensures JobsOk(w, s.queue) && JobsMatch(w, s.queue, s.server, s.begun)
    ensures KeysClean(s.queue.jobs, s.server, s.net, s.begun, s.repeated)
  {
    hide JobsOk, JobsMatch, KeysClean, ServerOk, RunsOk, RecordsEvidenced, ReceiptsFromNet, NetOk, CandidatesOk,
      ProcessedOk, OneHolder, WorkerOk;
  }

  lemma AcceptedRunOk(w: World, s: Sys, trigger: Trigger, taskId: string, retryOf: string, token: string,
                      targets: seq<RetryFile>, executable: bool, newId: string)
    requires JobsOk(w, s.queue) && JobsMatch(w, s.queue, s.server, s.begun) && OperatorStarted(trigger)
    requires TargetsReferenced(targets) && newId !in s.server.runs
    requires Grows(s.server, AcceptManual(s.server, trigger, taskId, retryOf, token, targets, executable, newId).0)
    ensures var b := AcceptManual(s.server, trigger, taskId, retryOf, token, targets, executable, newId).0;
            RunsOnly(s.server, b) && NewRunsOk(s, b)
  {
    hide JobsOk, JobsMatch, IsOperatorToken, TargetsReferenced, IsPendingManualOf;
    var b := AcceptManual(s.server, trigger, taskId, retryOf, token, targets, executable, newId).0;
    if b != s.server {
      assert IsOperatorKey(OperatorKey(token));
      NoJobWithoutRun(w, s, OperatorKey(token));
    }
  }

  lemma RequestManualKeeps(w: World, s: Sys, t: Sys, taskId: string, token: string, executable: bool, newId: string)
    requires Inv(w, s) && RequestManual(s, t, taskId, token, executable, newId)
    ensures Inv(w, t)
  {
    hide Inv, ServerOk, RunsOk, NetOk, ReceiptsFromNet, CandidatesOk, ProcessedOk, RunningStays, JobsOk, JobsMatch,
      KeysClean, AcceptManual, NewRunsOk;
    ServerParts(w, s);
    QueueParts(w, s);
    AcceptManualKeepsServer(s.server, Manual, taskId, "", token, [], executable, newId);
    AcceptedRunOk(w, s, Manual, taskId, "", token, [], executable, newId);
    RunsOnlyStays(s, t.server);
    WorkerSurvives(w, s, t.server);
    RunsOnlyKeeps(w, s, t);
  }

  lemma ResolvedReferenced(s: Server, runId: string)
    requires runId in s.runs && s.runs[runId].failedFiles.Some?
    requires ResolveRetryFiles(s, s.runs[runId], s.runs[runId].failedFiles.value, |s.runs[runId].failedFiles.value|).Some?
    ensures TargetsReferenced(ResolveRetryFiles(s, s.runs[runId], s.runs[runId].failedFiles.value,
                                                |s.runs[runId].failedFiles.value|).value)
  {
    hide ResolveRetryFiles;
    var failed := s.runs[runId].failedFiles.value;
    ResolvedTargets(s, s.runs[runId], failed, |failed|);
    var targets := ResolveRetryFiles(s, s.runs[runId], failed, |failed|).value;
    forall i | 0 <= i < |targets| ensures targets[i].inputType.ArchiveInput? <==> targets[i].archiveRef != "" {
      assert TargetOf(s, s.runs[runId], targets[i], failed[i]);
    }
  }

  lemma RetryRunOk(w: World, s: Sys, runId: string, token: string, executable: bool, newId: string)
    requires JobsOk(w, s.queue) && JobsMatch(w, s.queue, s.server, s.begun) && newId !in s.server.runs && newId != ""
    requires Grows(s.server, ControlPlane.RequestRetryRun(s.server, runId, token, executable, newId).0)
    ensures var b := ControlPlane.RequestRetryRun(s.server, runId, token, executable, newId).0;
            RunsOnly(s.server, b) && NewRunsOk(s, b)
  {
    hide JobsOk, JobsMatch, IsOperatorToken, AcceptManual, ResolveRetryFiles, RunsOnly, NewRunsOk, TargetsReferenced;
    var b := ControlPlane.RequestRetryRun(s.server, runId, token, executable, newId).0;
    if b == s.server {
      UnchangedRunsOnly(s);
    } else {
      ResolvedReferenced(s.server, runId);
      var failed := s.server.runs[runId].failedFiles.value;
      AcceptedRunOk(w, s, Retry, s.server.runs[runId].taskId, runId, token,
                    ResolveRetryFiles(s.server, s.server.runs[runId], failed, |failed|).value, executable, newId);
    }
  }

  lemma UnchangedRunsOnly(s: Sys)
    ensures RunsOnly(s.server, s.server) && NewRunsOk(s, s.server)
  {
    GrowsReflexive(s.server);
  }

  lemma RequestRetryKeeps(w: World, s: Sys, t: Sys, runId: string, token: string, executable: bool, newId: string)
    requires Inv(w, s) && RequestRetry(s, t, runId, token, executable, newId)
    ensures Inv(w, t)
  {
    hide Inv, ServerOk, RunsOk, NetOk, ReceiptsFromNet, CandidatesOk, ProcessedOk, RunningStays, JobsOk, JobsMatch,
      KeysClean, NewRunsOk, ControlPlane.RequestRetryRun;
    ServerParts(w, s);
    QueueParts(w, s);
    RequestRetryKeepsServer(s.server, runId, token, executable, newId);
    RetryRunOk(w, s, runId, token, executable, newId);
    RunsOnlyStays(s, t.server);
    WorkerSurvives(w, s, t.server);
    RunsOnlyKeeps(w, s, t);
  }

  // ---- start requests ----

  lemma StartedRunFits(w: World, s: Sys, req: StartRequest)
    requires JobsOk(w, s.queue) && JobsMatch(w, s.queue, s.server, s.begun)
    requires MsgOk(w, s.queue.node, s.server, s.begun, StartMsg(req.executionKey, req)) && req.trigger.Scheduled?
    requires req.executionKey in s.queue.jobs
    ensures var job := s.queue.jobs[req.executionKey];
            && job.start.request.trigger.Scheduled? && job.retryFiles == [] && job.task.id == req.taskId
            && job.start.request.scheduledFor == req.scheduledFor
  {
    hide FilesOk, RequestsOk, ReferencesOk, RawFilesBound, ProgressOk, StageOk, FilesBound, ReportGood,
      Calendar.IsRfc3339Utc, IsOperatorKey;
    var key := req.executionKey;
    var job := s.queue.jobs[key];
    assert JobOk(w.workDir, s.queue.node, key, job) && JobMatches(w, s.queue.node, s.server, s.begun, key, job);
    ScheduledKeyInjective(s.queue.node, job.task.id, job.start.request.scheduledFor, req.taskId, req.scheduledFor);
  }

  /** A scheduled start changes nothing, or adds the run of its request under a key that was unused. */
  lemma ScheduledStartAdds(s: Server, req: StartRequest, newId: string)
    ensures var b := StartScheduled(s, req, newId).0;
            || b == s
            || (b == s.(runs := s.runs[newId := NewRun(req.taskId, req.node, Scheduled, req.executionKey, req.scheduledFor,
                                                       Running, "", None, req.startedAt)])
                && FindByExecutionKey(s, req.executionKey).None?)
  {
    hide Calendar.IsRfc3339Utc;
  }

  lemma ScheduledStartRuns(w: World, s: Sys, req: StartRequest, newId: string)
    requires JobsOk(w, s.queue) && JobsMatch(w, s.queue, s.server, s.begun) && req.trigger.Scheduled?
    requires MsgOk(w, s.queue.node, s.server, s.begun, StartMsg(req.executionKey, req)) && newId !in s.server.runs
    requires Grows(s.server, StartScheduled(s.server, req, newId).0)
    ensures RunsOnly(s.server, StartScheduled(s.server, req, newId).0)
    ensures NewRunsOk(s, StartScheduled(s.server, req, newId).0)
  {
    hide JobsOk, JobsMatch, Calendar.IsRfc3339Utc, IsOperatorKey, ScheduledKeyOk, TargetsReferenced, StartScheduled;
    ScheduledStartAdds(s.server, req, newId);
    if req.executionKey in s.queue.jobs {
      StartedRunFits(w, s, req);
    }
  }

  lemma ManualStartRuns(s: Sys, req: StartRequest)
    requires Grows(s.server, StartManual(s.server, req).0)
    ensures RunsOnly(s.server, StartManual(s.server, req).0) && NewRunsOk(s, StartManual(s.server, req).0)
  {
    hide Calendar.IsRfc3339Utc;
  }

  lemma StartRuns(w: World, s: Sys, req: StartRequest, newId: string)
    requires JobsOk(w, s.queue) && JobsMatch(w, s.queue, s.server, s.begun)
    requires MsgOk(w, s.queue.node, s.server, s.begun, StartMsg(req.executionKey, req)) && newId !in s.server.runs
    requires Grows(s.server, ControlPlane.Start(s.server, req, newId).0)
    ensures var b := ControlPlane.Start(s.server, req, newId).0; RunsOnly(s.server, b) && NewRunsOk(s, b)
  {
    hide JobsOk, JobsMatch, MsgOk, StartScheduled, StartManual, RunsOnly, NewRunsOk, Grows;
    if req.node == "" || req.taskId == "" {
      UnchangedRunsOnly(s);
    } else if OperatorStarted(req.trigger) {
      ManualStartRuns(s, req);
    } else {
      ScheduledStartRuns(w, s, req, newId);
    }
  }

  /** What a start is answered: the run of the key, with the state it now has. */
  lemma StartAnswered(s: Server, req: StartRequest, newId: string, answer: StartAnswer)
    requires ServerOk(s) && newId !in s.runs && newId != "" && ControlPlane.Start(s, req, newId).1 == Started(answer)
    requires req.trigger.Scheduled? ==> forall id :: RunHasKey(s, id, req.executionKey) ==> s.runs[id].trigger.Scheduled?
    ensures var b := ControlPlane.Start(s, req, newId).0;
            && RunHasKey(b, answer.runId, req.executionKey) && answer.runId != ""
            && (Terminal(answer.status) ==> Terminal(b.runs[answer.runId].status))
            && (answer.status.Running? ==> !b.runs[answer.runId].status.Pending?)
            && (answer.status.Running? && !req.trigger.Scheduled? ==> b.runs[answer.runId].status.Running?)
            && (answer.runId in s.runs ==> b.runs[answer.runId] == s.runs[answer.runId] || s.runs[answer.runId].status.Pending?)
            && (answer.runId !in s.runs ==> b.runs[answer.runId].status.Running?)
  {
    hide ReceiptOk, OneReportPerRun, KeysUnique, OnePendingPerTask, RawFilesOk, RecordsOk, HasReport,
      Calendar.IsRfc3339Utc;
    if answer.runId in s.runs {
      assert RunOk(s, answer.runId);
    }
  }

  lemma ScheduledKeyRuns(s: Sys, req: StartRequest, w: World)
    requires RunsOk(s.queue.node, s.server, s.begun)
    requires MsgOk(w, s.queue.node, s.server, s.begun, StartMsg(req.executionKey, req))
    ensures req.trigger.Scheduled? ==> forall id :: RunHasKey(s.server, id, req.executionKey) ==> s.server.runs[id].trigger.Scheduled?
  {
    hide Calendar.IsRfc3339Utc, IsOperatorKey;
    forall id | RunHasKey(s.server, id, req.executionKey) && req.trigger.Scheduled? ensures s.server.runs[id].trigger.Scheduled? {
      assert RunKeyOk(s.queue.node, s.begun, s.server.runs[id]);
    }
  }

  lemma NotFinished(s: Server, key: string, id: string)
    requires KeysUnique(s) && (RunHasKey(s, id, key) ==> !Terminal(s.runs[id].status))
    requires id !in s.runs ==> forall other :: !RunHasKey(s, other, key)
    requires id in s.runs ==> RunHasKey(s, id, key)
    ensures !Finished(s, key)
  {
    forall other | RunHasKey(s, other, key) ensures !Terminal(s.runs[other].status) {
      assert other == id;
    }
  }

  /** For a key begun once: when the start is answered running, nothing was ever reported under it. */
  lemma RunningAnswerIsQuiet(w: World, s: Sys, key: string, job: JobRow, b: Server, runId: string)
    requires KeysUnique(s.server) && StartClean(s.server, s.net, key, job.start.request.trigger.Scheduled?)
    requires RunHasKey(b, runId, key)
    requires runId in s.server.runs ==>
               RunHasKey(s.server, runId, key) && (b.runs[runId] == s.server.runs[runId] || s.server.runs[runId].status.Pending?)
    requires runId !in s.server.runs ==> b.runs[runId].status.Running? && forall id :: !RunHasKey(s.server, id, key)
    requires !job.start.request.trigger.Scheduled? ==> b.runs[runId].status.Running?
    ensures b.runs[runId].status.Running? && Quiet(s.net, key)
  {
    hide KeysUnique, Finished, Quiet;
    if !job.start.request.trigger.Scheduled? {
      NotFinished(s.server, key, runId);
    }
  }

  lemma StartReply(w: World, s: Sys, req: StartRequest, newId: string, answer: StartAnswer)
    requires Inv(w, s) && s.worker.Call? && s.worker.msg == StartMsg(req.executionKey, req) && s.worker.msg in s.net
    requires newId !in s.server.runs && newId != "" && ControlPlane.Start(s.server, req, newId).1 == Started(answer)
    requires Grows(s.server, ControlPlane.Start(s.server, req, newId).0)
    requires RunsOnly(s.server, ControlPlane.Start(s.server, req, newId).0)
    requires NewRunsOk(s, ControlPlane.Start(s.server, req, newId).0)
    ensures StartReplyOk(ControlPlane.Start(s.server, req, newId).0, s.net, s.repeated, req.executionKey, answer)
  {
    hide Inv, ServerOk, RunsOk, ReceiptsFromNet, CandidatesOk, ProcessedOk, JobsOk, JobsMatch, ControlPlane.Start,
      StartClean, Quiet, RunKeyOk, MsgOk, OneRequest, ReportsSettled, RowOk, KeysUnique;
    var key := req.executionKey;
    ServerParts(w, s);
    QueueParts(w, s);
    WorkerParts(w, s);
    ScheduledKeyRuns(s, req, w);
    StartAnswered(s.server, req, newId, answer);
    if answer.status.Running? && key !in s.repeated {
      var b := ControlPlane.Start(s.server, req, newId).0;
      BegunJob(w, s, key);
      assert CleanKey(s.queue.jobs, s.server, s.net, key);
      KeysUniquePart(s.server);
      if answer.runId !in s.server.runs {
        assert NewRunOk(s, b.runs[answer.runId]);
      }
      RunningAnswerIsQuiet(w, s, key, s.queue.jobs[key], b, answer.runId);
    }
  }

  lemma KeysUniquePart(s: Server)
    requires ServerOk(s)
    ensures KeysUnique(s)
  {
    hide RunOk, ReceiptOk, OneReportPerRun, KeysUnique, OnePendingPerTask, RawFilesOk, RecordsOk;
  }

  lemma StartWorkerOk(w: World, s: Sys, t: Sys, req: StartRequest, d: Draw, answered: bool)
    requires Inv(w, s) && Handle(s, t, StartMsg(req.executionKey, req), d, answered)
    requires Grows(s.server, t.server) && RunsOnly(s.server, t.server) && NewRunsOk(s, t.server)
    ensures WorkerOk(s.queue.jobs, t.server, s.net, s.repeated, t.worker)
  {
    hide Inv, Grows, RunsOnly, NewRunsOk, RunningStays, ControlPlane.Start, StartReplyOk, PassOk;
    RunsOnlyStays(s, t.server);
    WorkerSurvives(w, s, t.server);
    if t.worker != s.worker {
      StartRepliesKind(s.server, req, d.newId);
      if t.worker.reply.value.Started? {
        StartReply(w, s, req, d.newId, t.worker.reply.value.answer);
      }
    }
  }

  lemma StartRepliesKind(s: Server, req: StartRequest, newId: string)
    ensures var reply := ControlPlane.Start(s, req, newId).1; reply.Started? || reply.Refused?
  {
  }

  lemma HandleStartKeeps(w: World, s: Sys, t: Sys, key: string, req: StartRequest, d: Draw, answered: bool)
    requires Inv(w, s) && Handle(s, t, StartMsg(key, req), d, answered)
    ensures Inv(w, t)
  {
    hide Inv, ServerOk, RunsOk, ReceiptsFromNet, CandidatesOk, ProcessedOk, JobsOk, JobsMatch, KeysClean,
      ControlPlane.Start, NewRunsOk, RunsOnly, Grows, WorkerOk, IsOperatorKey, ScheduledKeyOk;
    ServerParts(w, s);
    QueueParts(w, s);
    assert MsgOk(w, s.queue.node, s.server, s.begun, StartMsg(key, req));
    StartKeepsServer(s.server, req, d.newId);
    StartRuns(w, s, req, d.newId);
    StartWorkerOk(w, s, t, req, d, answered);
    RunsOnlyKeeps(w, s, t);
  }

  // ---- manifests ----

  lemma SameEntriesRecorded(rawFiles: map<string, RawFileRow>, a: ManifestRequest, b: ManifestRequest, ids: seq<string>)
    requires Recorded(rawFiles, a, ids) && NormalManifest(a) == NormalManifest(b)
    ensures Recorded(rawFiles, b, ids)
  {
    assert |MapAll(a.files, NormalEntry)| == |MapAll(b.files, NormalEntry)|;
    forall i | 0 <= i < |ids| ensures RawFileOf(a, a.files[i]) == RawFileOf(b, b.files[i]) {
      assert NormalEntry(a.files[i]) == MapAll(a.files, NormalEntry)[i] == MapAll(b.files, NormalEntry)[i] == NormalEntry(b.files[i]);
    }
  }

  /** A replayed manifest is answered with ids that were recorded for exactly its files, in its order. */
  lemma ManifestReplay(s: Server, m: ManifestRequest, response: Response)
    requires ServerOk(s) && ClaimReceipt(s, ManifestReceiptId(m), m.runId, ManifestFingerprint(m)) == Replay(response)
    ensures Recorded(s.rawFiles, m, response.rawFileIds)
  {
    hide RunOk, OneReportPerRun, KeysUnique, OnePendingPerTask, RawFilesOk, RecordsOk, NormalManifest, Recorded,
      ManifestFingerprint;
    var id := ManifestReceiptId(m);
    assert ReceiptOk(s, id);
    var first :| ManifestAnswer(s, id, first);
    ManifestFingerprintInjective(first, m);
    SameEntriesRecorded(s.rawFiles, first, m, response.rawFileIds);
  }

  lemma ManifestReply(s: Server, m: ManifestRequest, ids: seq<string>)
    requires ServerOk(s) && |ids| == |m.files| && FreshRawFileIds(s, ids)
    ensures var (b, reply) := ControlPlane.AcceptManifest(s, m, ids);
            reply.Refused? || (reply.ManifestAccepted? && Recorded(b.rawFiles, m, reply.rawFileIds))
  {
    hide ServerOk, Recorded, ManifestFingerprint, ClaimReceipt;
    var (b, reply) := ControlPlane.AcceptManifest(s, m, ids);
    if reply.ManifestAccepted? {
      if reply.replayed {
        ManifestReplay(s, m, ClaimReceipt(s, ManifestReceiptId(m), m.runId, ManifestFingerprint(m)).response);
      } else {
        NewManifestRecorded(s, m, ids);
      }
    }
  }

  lemma NewManifestRecorded(s: Server, m: ManifestRequest, ids: seq<string>)
    requires |ids| == |m.files| && FreshRawFileIds(s, ids)
    ensures Recorded(AddRawFiles(s.rawFiles, m, ids, |ids|), m, ids)
  {
    AddedRawFiles(s, m, ids, |ids|);
  }

  lemma ManifestReceipts(s: Sys, b: Server, msg: Msg, ids: seq<string>)
    requires ReceiptsFromNet(s.server, s.net) && msg in s.net && msg.ManifestMsg?
    requires ManifestApplied(s.server, b, msg.manifest, ids)
    ensures ReceiptsFromNet(b, s.net)
  {
    hide ManifestFingerprint, ReportFingerprint;
    forall id | id in b.receipts ensures exists m :: m in s.net && ReceiptFor(id, b.receipts[id], m) {
      if id == ManifestReceiptId(msg.manifest) {
        assert ReceiptFor(id, b.receipts[id], msg);
      }
    }
  }

  lemma SameRunsStay(s: Sys, b: Server)
    requires b.runs == s.server.runs
    ensures NewRunsOk(s, b) && RunningStays(s, b)
  {
  }

  lemma ManifestServer(w: World, s: Sys, msg: Msg, ids: seq<string>)
    requires Inv(w, s) && msg in s.net && msg.ManifestMsg? && |ids| == |msg.manifest.files|
    requires FreshRawFileIds(s.server, ids)
    ensures var b := ControlPlane.AcceptManifest(s.server, msg.manifest, ids).0;
            && ServerOk(b) && Grows(s.server, b) && NewRunsOk(s, b) && RunningStays(s, b) && RecordsEvidenced(w, b)
            && ReceiptsFromNet(b, s.net)
  {
    hide Inv, ServerOk, RunsOk, ReceiptsFromNet, CandidatesOk, ProcessedOk, RecordsEvidenced,
      ControlPlane.AcceptManifest, NewRunsOk, RunningStays, Grows, FreshRawFileIds, NetOk;
    ServerParts(w, s);
    EvidencePart(w, s);
    var b := ControlPlane.AcceptManifest(s.server, msg.manifest, ids).0;
    AcceptManifestKeepsServer(s.server, msg.manifest, ids);
    ManifestEffect(s.server, msg.manifest, ids);
    SameRunsStay(s, b);
    EvidenceGrows(w, s.server, b);
    if b != s.server {
      ManifestReceipts(s, b, msg, ids);
    }
  }

  lemma EvidencePart(w: World, s: Sys)
    requires Inv(w, s)
    ensures RecordsEvidenced(w, s.server)
  {
    hide JobsOk, JobsMatch, KeysClean, ServerOk, RunsOk, RecordsEvidenced, ReceiptsFromNet, NetOk, CandidatesOk,
      ProcessedOk, OneHolder, WorkerOk;
  }

  lemma HandleManifestKeeps(w: World, s: Sys, t: Sys, msg: Msg, d: Draw, answered: bool)
    requires Inv(w, s) && msg.ManifestMsg? && Handle(s, t, msg, d, answered)
    ensures Inv(w, t)
  {
    hide Inv, ServerOk, RunsOk, ReceiptsFromNet, CandidatesOk, ProcessedOk, RecordsEvidenced,
      ControlPlane.AcceptManifest, NewRunsOk, RunningStays, Grows, NetOk, Recorded, PassOk;
    ManifestServer(w, s, msg, d.rawIds);
    WorkerSurvives(w, s, t.server);
    ServerParts(w, s);
    ManifestReply(s.server, msg.manifest, d.rawIds);
    ServerStepKeeps(w, s, t);
  }

  // ---- reports ----

  lemma ReportReply(s: Sys, r: ReportRequest, d: Draw)
    requires ReceiptsFromNet(s.server, s.net) && |d.recordIds| == |r.records|
    ensures var (b, reply) := ControlPlane.AcceptReport(s.server, r, d.recordIds, d.qcIds, d.alertIds, d.rulesUsable);
            reply.Refused? || (reply.ReportAccepted? && ReportCommitted(b, r, reply.response))
  {
    hide NewRecords, ReportRefusal, ReceiptsFromNet, ClaimReceipt, Ownership, ReportFingerprint, FinishedRun;
    var claim := ClaimReceipt(s.server, ReportReceiptId(r), r.runId, ReportFingerprint(r));
    if claim.Replay? {
      ReportReplay(s, r, claim.response);
    }
  }

  lemma ReportReplay(s: Sys, r: ReportRequest, response: Response)
    requires ReceiptsFromNet(s.server, s.net)
    requires ClaimReceipt(s.server, ReportReceiptId(r), r.runId, ReportFingerprint(r)) == Replay(response)
    ensures ReportCommitted(s.server, r, response)
  {
    hide ReportFingerprint, ReceiptsFromNet;
    ReceiptOfSameReport(s, r);
  }

  lemma ReceiptOfSameReport(s: Sys, r: ReportRequest)
    requires ReceiptsFromNet(s.server, s.net) && ReportReceiptId(r) in s.server.receipts
    requires s.server.receipts[ReportReceiptId(r)].fingerprint == ReportFingerprint(r)
    ensures s.server.receipts[ReportReceiptId(r)].runId == r.runId
  {
    hide ReportFingerprint, ManifestFingerprint;
    var msg :| msg in s.net && ReceiptFor(ReportReceiptId(r), s.server.receipts[ReportReceiptId(r)], msg);
    ReportFingerprintInjective(msg.report, r);
  }

  lemma ReportReceipts(s: Sys, b: Server, msg: Msg, d: Draw)
    requires ReceiptsFromNet(s.server, s.net) && msg in s.net && msg.ReportMsg?
    requires ReportApplied(s.server, b, msg.report, d.recordIds, d.qcIds, d.alertIds)
    ensures ReceiptsFromNet(b, s.net)
  {
    hide ManifestFingerprint, ReportFingerprint, NewRecords, FailedFilesValid;
    forall id | id in b.receipts ensures exists m :: m in s.net && ReceiptFor(id, b.receipts[id], m) {
      if id == ReportReceiptId(msg.report) {
        assert ReceiptFor(id, b.receipts[id], msg);
      }
    }
  }

  lemma ReportRuns(w: World, s: Sys, b: Server, msg: Msg, d: Draw)
    requires msg in s.net && msg.ReportMsg? && MsgOk(w, s.queue.node, s.server, s.begun, msg)
    requires ReportApplied(s.server, b, msg.report, d.recordIds, d.qcIds, d.alertIds)
    ensures NewRunsOk(s, b) && RunningStays(s, b)
  {
    hide ReportFingerprint, NewRecords, FailedFilesValid, ReportFits;
    assert ReportReceiptOf(b, ReportReceiptId(msg.report), msg.report.runId);
    assert ReportUnderWay(s.net, msg.key);
  }

  lemma AppliedRecords(s: Sys, b: Server, r: ReportRequest, d: Draw)
    requires ReportApplied(s.server, b, r, d.recordIds, d.qcIds, d.alertIds)
    ensures |d.recordIds| == |r.records| && b.rawFiles == s.server.rawFiles
    ensures b.records == s.server.records + NewRecords(r, d.recordIds, |d.recordIds|)
  {
    hide NewRecords, ReportFingerprint, FailedFilesValid, RecordStorable, FinishedRun;
  }

  lemma NewRecordsEvidenced(w: World, rawFiles: map<string, RawFileRow>, r: ReportRequest, ids: seq<string>, i: nat)
    requires i < |ids| == |r.records| && Evidence(w, rawFiles, r.records[i].rawFileId, r.records[i].record)
    ensures var added := NewRecords(r, ids, |ids|)[i]; Evidence(w, rawFiles, added.rawFileId, added.record)
  {
    hide NewRecords, Evidence;
    NewRecordsBelong(r, ids, |ids|);
    assert NewRecords(r, ids, |ids|)[i] == RecordOf(r, r.records[i], ids[i]);
  }

  lemma ReportEvidence(w: World, s: Sys, b: Server, msg: Msg, d: Draw)
    requires RecordsEvidenced(w, s.server) && msg.ReportMsg? && ReportFits(w, s.server, msg.report)
    requires ReportApplied(s.server, b, msg.report, d.recordIds, d.qcIds, d.alertIds)
    ensures RecordsEvidenced(w, b)
  {
    hide ReportApplied, FailedFilesValid, NewRecords, RecordStorable, Evidence;
    var r := msg.report;
    AppliedRecords(s, b, r, d);
    forall i | 0 <= i < |b.records| ensures Evidence(w, b.rawFiles, b.records[i].rawFileId, b.records[i].record) {
      if i >= |s.server.records| {
        NewRecordsEvidenced(w, s.server.rawFiles, r, d.recordIds, i - |s.server.records|);
      }
    }
  }

  lemma ReportServer(w: World, s: Sys, msg: Msg, d: Draw)
    requires Inv(w, s) && msg in s.net && msg.ReportMsg? && |d.recordIds| == |msg.report.records|
    ensures var b := ControlPlane.AcceptReport(s.server, msg.report, d.recordIds, d.qcIds, d.alertIds, d.rulesUsable).0;
            && ServerOk(b) && Grows(s.server, b) && NewRunsOk(s, b) && RunningStays(s, b) && RecordsEvidenced(w, b)
            && ReceiptsFromNet(b, s.net)
  {
    hide Inv, ServerOk, RunsOk, ReceiptsFromNet, CandidatesOk, ProcessedOk, RecordsEvidenced,
      ControlPlane.AcceptReport, NewRunsOk, RunningStays, Grows, ReportApplied, ReportFits;
    ServerParts(w, s);
    EvidencePart(w, s);
    assert MsgOk(w, s.queue.node, s.server, s.begun, msg);
    var b := ControlPlane.AcceptReport(s.server, msg.report, d.recordIds, d.qcIds, d.alertIds, d.rulesUsable).0;
    AcceptReportKeepsServer(s.server, msg.report, d.recordIds, d.qcIds, d.alertIds, d.rulesUsable);
    ReportEffect(s.server, msg.report, d.recordIds, d.qcIds, d.alertIds, d.rulesUsable);
    if b == s.server {
      SameRunsStay(s, b);
    } else {
      ReportReceipts(s, b, msg, d);
      ReportRuns(w, s, b, msg, d);
      ReportEvidence(w, s, b, msg, d);
    }
  }

  lemma HandleReportKeeps(w: World, s: Sys, t: Sys, msg: Msg, d: Draw, answered: bool)
    requires Inv(w, s) && msg.ReportMsg? && Handle(s, t, msg, d, answered)
    ensures Inv(w, t)
  {
    hide Inv, ServerOk, RunsOk, ReceiptsFromNet, CandidatesOk, ProcessedOk, RecordsEvidenced,
      ControlPlane.AcceptReport, NewRunsOk, RunningStays, Grows, NetOk, ReportCommitted, PassOk;
    ReportServer(w, s, msg, d);
    WorkerSurvives(w, s, t.server);
    ServerParts(w, s);
    ReportReply(s, msg.report, d);
    ServerStepKeeps(w, s, t);
  }
}
