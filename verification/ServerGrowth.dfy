/** What a transaction of the control plane has to satisfy for the joint invariant to survive it. */
module ServerGrowth {
  import opened Messages
  import opened QueueModel
  import opened ControlPlane
  import opened ServerInvariant
  import opened JobInvariant
  import opened Protocol
  import opened ProtocolInvariant

  /** A run that appears has a key of its own, and fits the job that waits under that key. */
  ghost predicate NewRunOk(s: Sys, run: RunRow) {
    && RunKeyOk(s.queue.node, s.begun, run) && !Terminal(run.status) && (run.trigger.Scheduled? ==> run.status.Running?)
    && (forall id :: !RunHasKey(s.server, id, run.executionKey))
    && (run.executionKey in s.queue.jobs ==>
          var job := s.queue.jobs[run.executionKey];
          RunFits(run, s.queue.node, job.task.id, job.start.request.trigger, job.start.request.scheduledFor, job.retryFiles))
  }

  ghost predicate NewRunsOk(s: Sys, b: Server) {
    forall id :: id in b.runs && id !in s.server.runs ==> NewRunOk(s, b.runs[id])
  }

  ghost predicate ReportUnderWay(net: set<Msg>, key: string) {
    exists msg :: msg in net && msg.key == key && msg.ReportMsg?
  }

  /** A running run stops running only by a report that was sent for it. */
  ghost predicate RunningStays(s: Sys, b: Server) {
    forall id :: id in s.server.runs && id in b.runs && s.server.runs[id].status.Running? ==>
      b.runs[id].status.Running? || (HasReport(b, id) && ReportUnderWay(s.net, s.server.runs[id].executionKey))
  }

  // ---- what growth keeps ----

  lemma KeyGrows(a: Server, b: Server, id: string, key: string)
    requires Grows(a, b) && RunHasKey(a, id, key)
    ensures RunHasKey(b, id, key) && RunAdvances(a.runs[id], b.runs[id])
  {
  }

  lemma HasReportGrows(a: Server, b: Server, runId: string)
    requires Grows(a, b) && HasReport(a, runId)
    ensures HasReport(b, runId)
  {
    var id :| ReportReceiptOf(a, id, runId);
    assert ReportReceiptOf(b, id, runId);
  }

  lemma FinishedGrows(a: Server, b: Server, key: string)
    requires Grows(a, b) && Finished(a, key)
    ensures Finished(b, key)
  {
    var id :| RunHasKey(a, id, key) && Terminal(a.runs[id].status);
    assert RunHasKey(b, id, key);
  }

  lemma RunsOkGrows(s: Sys, b: Server)
    requires RunsOk(s.queue.node, s.server, s.begun) && Grows(s.server, b) && NewRunsOk(s, b)
    ensures RunsOk(s.queue.node, b, s.begun)
  {
    hide TargetsReferenced, ScheduledKeyOk, IsOperatorKey;
    forall id | id in b.runs ensures RunKeyOk(s.queue.node, s.begun, b.runs[id]) {
      if id in s.server.runs {
        assert RunKeyOk(s.queue.node, s.begun, s.server.runs[id]);
      }
    }
  }

  lemma ListStaysValid(a: map<string, RawFileRow>, b: map<string, RawFileRow>, runId: string,
                       targets: Option<seq<RetryFile>>,
                       status: RunStatus, failures: seq<FailedFile>)
    requires FailedFilesValid(a, runId, targets, status, failures) && forall id :: id in a ==> id in b && b[id] == a[id]
    ensures FailedFilesValid(b, runId, targets, status, failures)
  {
    hide UniquePaths;
    forall i | 0 <= i < |failures| ensures FailedFileAllowed(b, runId, targets, failures[i]) {
      assert FailedFileAllowed(a, runId, targets, failures[i]);
    }
  }

  lemma ReportFitsGrows(w: World, a: Server, b: Server, r: ReportRequest)
    requires ReportFits(w, a, r) && Grows(a, b)
    ensures ReportFits(w, b, r)
  {
    hide FailedFilesValid;
    ListStaysValid(a.rawFiles, b.rawFiles, r.runId, a.runs[r.runId].retryFiles, r.status, r.failedFiles.value);
    assert RunAdvances(a.runs[r.runId], b.runs[r.runId]);
    forall i | 0 <= i < |r.records|
      ensures RecordStorable(b.rawFiles, r.runId, r.records[i])
      ensures Evidence(w, b.rawFiles, r.records[i].rawFileId, r.records[i].record)
    {
      assert RecordStorable(a.rawFiles, r.runId, r.records[i]) && Evidence(w, a.rawFiles, r.records[i].rawFileId, r.records[i].record);
    }
  }

  lemma NetOkGrows(w: World, s: Sys, b: Server)
    requires NetOk(w, s.queue.node, s.server, s.begun, s.net) && Grows(s.server, b)
    ensures NetOk(w, s.queue.node, b, s.begun, s.net)
  {
    hide ReportFits, ScheduledKeyOk, IsOperatorKey, ManifestKey, ReportKey;
    forall msg | msg in s.net ensures MsgOk(w, s.queue.node, b, s.begun, msg) {
      assert MsgOk(w, s.queue.node, s.server, s.begun, msg);
      if msg.ReportMsg? {
        ReportFitsGrows(w, s.server, b, msg.report);
        KeyGrows(s.server, b, msg.report.runId, msg.key);
      } else if msg.ManifestMsg? {
        KeyGrows(s.server, b, msg.manifest.runId, msg.key);
      }
    }
  }

  lemma CandidatesOkGrows(s: Sys, b: Server)
    requires CandidatesOk(s.queue.node, s.server, s.candidates) && Grows(s.server, b)
    ensures CandidatesOk(s.queue.node, b, s.candidates)
  {
    hide TargetsReferenced, TargetsDistinct, IsOperatorKey;
    forall c | c in s.candidates ensures CandidateOk(s.queue.node, b, c) {
      assert CandidateOk(s.queue.node, s.server, c);
      var id :| RunHasKey(s.server, id, c.key) && RunFits(s.server.runs[id], s.queue.node, c.task.id, c.trigger, "", c.retryFiles);
      KeyGrows(s.server, b, id, c.key);
    }
  }

  lemma JobRunOkGrows(s: Sys, b: Server, key: string)
    requires key in s.queue.jobs && JobRunOk(s.queue.node, s.server, s.begun, key, s.queue.jobs[key])
    requires Grows(s.server, b) && NewRunsOk(s, b)
    ensures JobRunOk(s.queue.node, b, s.begun, key, s.queue.jobs[key])
  {
    hide TargetsReferenced, SlotOk, RunKeyOk;
    var job := s.queue.jobs[key];
    forall id | RunHasKey(b, id, key)
      ensures RunFits(b.runs[id], s.queue.node, job.task.id, job.start.request.trigger, job.start.request.scheduledFor, job.retryFiles)
    {
      if id in s.server.runs {
        assert RunAdvances(s.server.runs[id], b.runs[id]) && RunHasKey(s.server, id, key);
      } else {
        assert NewRunOk(s, b.runs[id]);
      }
    }
    if !job.start.request.trigger.Scheduled? {
      var id :| RunHasKey(s.server, id, key);
      KeyGrows(s.server, b, id, key);
    }
    if job.runId != "" {
      KeyGrows(s.server, b, job.runId, key);
    }
  }

  lemma JobsMatchGrows(w: World, s: Sys, b: Server)
    requires JobsMatch(w, s.queue, s.server, s.begun) && Grows(s.server, b) && NewRunsOk(s, b)
    ensures JobsMatch(w, s.queue, b, s.begun)
  {
    hide JobRunOk, NewRunsOk, ReportFits, ReportTrue, Grows;
    forall key | key in s.queue.jobs ensures JobMatches(w, s.queue.node, b, s.begun, key, s.queue.jobs[key]) {
      assert JobMatches(w, s.queue.node, s.server, s.begun, key, s.queue.jobs[key]);
      JobRunOkGrows(s, b, key);
      RawFilesGrow(s.server, b, s.queue.jobs[key].runId, s.queue.jobs[key].files);
      if s.queue.jobs[key].report.Some? {
        ReportFitsGrows(w, s.server, b, s.queue.jobs[key].report.value.request);
      }
    }
  }

  lemma RawFilesGrow(a: Server, b: Server, runId: string, files: seq<FileRow>)
    requires Grows(a, b) && FilesBound(a.rawFiles, runId, files)
    ensures FilesBound(b.rawFiles, runId, files)
  {
  }

  lemma ProcessedGrows(s: Sys, b: Server)
    requires ProcessedOk(s.server, s.queue.processed) && Grows(s.server, b)
    ensures ProcessedOk(b, s.queue.processed)
  {
    hide Reported, Grows;
    forall i | 0 <= i < |s.queue.processed| ensures Reported(b, s.queue.processed[i].executionKey) {
      ReportedGrows(s.server, b, s.queue.processed[i].executionKey);
    }
  }

  lemma ReportedGrows(a: Server, b: Server, key: string)
    requires Reported(a, key) && Grows(a, b)
    ensures Reported(b, key)
  {
    hide HasReport, Grows;
    var id :| RunHasKey(a, id, key) && HasReport(a, id);
    KeyGrows(a, b, id, key);
    HasReportGrows(a, b, id);
  }

  // ---- keys that were begun once ----

  lemma WorkCleanGrows(s: Sys, b: Server, key: string, job: JobRow)
    requires WorkClean(s.server, s.net, key, job) && RunHasKey(s.server, job.runId, key)
    requires Grows(s.server, b) && RunningStays(s, b)
    ensures WorkClean(b, s.net, key, job)
  {
    hide HasReport;
    if s.server.runs[job.runId].status.Running? {
      if !b.runs[job.runId].status.Running? {
        assert ReportUnderWay(s.net, key);
        var msg :| msg in s.net && msg.key == key && msg.ReportMsg?;
        assert Persisted(job, msg);
      }
    } else {
      HasReportGrows(s.server, b, job.runId);
    }
  }

  lemma StartCleanGrows(s: Sys, b: Server, key: string, job: JobRow)
    requires StartClean(s.server, s.net, key, job.start.request.trigger.Scheduled?)
    requires key in s.queue.jobs && s.queue.jobs[key] == job
    requires Grows(s.server, b) && RunningStays(s, b) && NewRunsOk(s, b)
    ensures StartClean(b, s.net, key, job.start.request.trigger.Scheduled?)
  {
    hide HasReport, Finished, RunKeyOk;
    if job.start.request.trigger.Scheduled? {
      assert !ReportUnderWay(s.net, key);
      forall id | RunHasKey(b, id, key) ensures b.runs[id].status.Running? {
        if id in s.server.runs {
          assert RunAdvances(s.server.runs[id], b.runs[id]) && RunHasKey(s.server, id, key);
        } else {
          assert NewRunOk(s, b.runs[id]);
        }
      }
    } else if !Quiet(s.net, key) {
      FinishedGrows(s.server, b, key);
    }
  }

  lemma SettledGrows(s: Sys, b: Server, key: string)
    requires ReportsSettled(s.server, s.net, key) && Grows(s.server, b) && RunningStays(s, b)
    requires forall msg :: msg in s.net && msg.ReportMsg? ==> msg.report.runId in s.server.runs
    ensures ReportsSettled(b, s.net, key)
  {
    hide HasReport;
    forall msg | msg in s.net && msg.key == key && msg.ReportMsg?
      ensures b.runs[msg.report.runId].status.Running? || HasReport(b, msg.report.runId)
    {
      if HasReport(s.server, msg.report.runId) {
        HasReportGrows(s.server, b, msg.report.runId);
      }
    }
  }

  lemma CleanKeyGrows(w: World, s: Sys, b: Server, key: string)
    requires CleanKey(s.queue.jobs, s.server, s.net, key) && Grows(s.server, b) && RunningStays(s, b) && NewRunsOk(s, b)
    requires forall msg :: msg in s.net && msg.ReportMsg? ==> msg.report.runId in s.server.runs
    requires key in s.queue.jobs && s.queue.jobs[key].runId != "" ==> RunHasKey(s.server, s.queue.jobs[key].runId, key)
    requires key in s.queue.jobs && !EffectiveStage(s.queue.jobs[key]).StartPending? ==> s.queue.jobs[key].runId != ""
    ensures CleanKey(s.queue.jobs, b, s.net, key)
  {
    hide OneRequest, ReportsSettled, StartClean, WorkClean, Finished, Grows, RunningStays, NewRunsOk;
    SettledGrows(s, b, key);
    if key !in s.queue.jobs {
      FinishedGrows(s.server, b, key);
    } else if EffectiveStage(s.queue.jobs[key]).StartPending? {
      StartCleanGrows(s, b, key, s.queue.jobs[key]);
    } else {
      WorkCleanGrows(s, b, key, s.queue.jobs[key]);
    }
  }

  lemma JobHasRun(w: World, s: Sys, key: string, job: JobRow)
    requires JobOk(w.workDir, s.queue.node, key, job) && JobMatches(w, s.queue.node, s.server, s.begun, key, job)
    ensures job.runId != "" ==> RunHasKey(s.server, job.runId, key)
    ensures !EffectiveStage(job).StartPending? ==> job.runId != ""
  {
    hide IdentityOk, RequestsOk, FilesOk, RawFilesBound, ReferencesOk, FilesBound, ReportGood;
  }

  lemma ReportMsgsHaveRuns(w: World, s: Sys)
    requires NetOk(w, s.queue.node, s.server, s.begun, s.net)
    ensures forall msg :: msg in s.net && msg.ReportMsg? ==> msg.report.runId in s.server.runs
  {
    hide ReportFits;
    forall msg | msg in s.net && msg.ReportMsg? ensures msg.report.runId in s.server.runs {
      assert MsgOk(w, s.queue.node, s.server, s.begun, msg);
    }
  }

  lemma KeysCleanGrows(w: World, s: Sys, b: Server)
    requires JobsOk(w, s.queue) && JobsMatch(w, s.queue, s.server, s.begun)
    requires NetOk(w, s.queue.node, s.server, s.begun, s.net)
    requires KeysClean(s.queue.jobs, s.server, s.net, s.begun, s.repeated)
    requires Grows(s.server, b) && RunningStays(s, b) && NewRunsOk(s, b)
    ensures KeysClean(s.queue.jobs, b, s.net, s.begun, s.repeated)
  {
    hide JobOk, JobMatches, CleanKey, Grows, RunningStays, NewRunsOk, NetOk;
    ReportMsgsHaveRuns(w, s);
    forall key | key in s.begun && key !in s.repeated ensures CleanKey(s.queue.jobs, b, s.net, key) {
      if key in s.queue.jobs {
        JobHasRun(w, s, key, s.queue.jobs[key]);
      }
      CleanKeyGrows(w, s, b, key);
    }
  }

  // ---- answers already received ----

  lemma StartReplyGrows(s: Sys, b: Server, key: string, answer: StartAnswer)
    requires StartReplyOk(s.server, s.net, s.repeated, key, answer) && Grows(s.server, b) && RunningStays(s, b)
    ensures StartReplyOk(b, s.net, s.repeated, key, answer)
  {
    hide HasReport;
    KeyGrows(s.server, b, answer.runId, key);
    if answer.status.Running? && key !in s.repeated {
      assert !ReportUnderWay(s.net, key);
    }
  }

  lemma ReplyOkGrows(s: Sys, b: Server, msg: Msg, reply: Reply)
    requires ReplyOk(s.server, s.net, s.repeated, msg, reply) && Grows(s.server, b) && RunningStays(s, b)
    ensures ReplyOk(b, s.net, s.repeated, msg, reply)
  {
    hide RunningStays, StartReplyOk;
    if msg.StartMsg? && reply.Started? {
      StartReplyGrows(s, b, msg.key, reply.answer);
    }
  }

  lemma WorkerOkGrows(s: Sys, b: Server)
    requires WorkerOk(s.queue.jobs, s.server, s.net, s.repeated, s.worker) && Grows(s.server, b) && RunningStays(s, b)
    ensures WorkerOk(s.queue.jobs, b, s.net, s.repeated, s.worker)
  {
    hide RunningStays, ReplyOk, Grows, PassOk;
    if s.worker.Call? && s.worker.reply.Some? {
      ReplyOkGrows(s, b, s.worker.msg, s.worker.reply.value);
    }
  }

  // ---- the whole step ----

  /** A database transaction keeps the joint invariant when its runs, receipts and records come from what was sent. */
  lemma ServerStepKeeps(w: World, s: Sys, t: Sys)
    requires Inv(w, s) && t == s.(server := t.server, worker := t.worker)
    requires ServerOk(t.server) && Grows(s.server, t.server) && NewRunsOk(s, t.server) && RunningStays(s, t.server)
    requires RecordsEvidenced(w, t.server) && ReceiptsFromNet(t.server, s.net)
    requires WorkerOk(s.queue.jobs, t.server, s.net, s.repeated, t.worker)
    ensures Inv(w, t)
  {
    hide JobsOk, JobsMatch, KeysClean, ServerOk, RunsOk, RecordsEvidenced, ReceiptsFromNet, NetOk, CandidatesOk,
      ProcessedOk, OneHolder, WorkerOk, Grows, NewRunsOk, RunningStays, RepeatedOk;
    RunsOkGrows(s, t.server);
    NetOkGrows(w, s, t.server);
    CandidatesOkGrows(s, t.server);
    JobsMatchGrows(w, s, t.server);
    ProcessedGrows(s, t.server);
    KeysCleanGrows(w, s, t.server);
    RepeatedSame(s, t);
  }

  lemma RepeatedSame(s: Sys, t: Sys)
    requires RepeatedOk(s) && t.repeated == s.repeated && t.begun == s.begun
    ensures RepeatedOk(t)
  {
  }
}
