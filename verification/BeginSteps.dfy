/** Sending a request, beginning a job and polling a candidate keep the joint invariant. */
module BeginSteps {
  import opened Messages
  import opened Calendar
  import opened QueueModel
  import opened ControlPlane
  import opened ServerInvariant
  import opened JobInvariant
  import opened Protocol
  import opened ProtocolInvariant
  import opened AgentSteps
  import opened DeliverySteps

  // ---- sending ----

  /** The pending request of a job is always one the control plane will find in order. */
  lemma PendingMsgOk(w: World, s: Sys, key: string, job: JobRow)
    requires RowOk(w, s, key, job) && MsgOf(key, job).Some?
    ensures MsgOk(w, s.queue.node, s.server, s.begun, MsgOf(key, job).value)
    ensures Persisted(job, MsgOf(key, job).value) && MsgOf(key, job).value.key == key
  {
    hide FilesOk, ReferencesOk, LiveClean, FilesBound, ReportFits, ReportTrue, RawFilesBound;
    if job.runId != "" {
      assert RunHasKey(s.server, job.runId, key);
    }
  }

  lemma SendKeepsKey(jobs: map<string, JobRow>, server: Server, net: set<Msg>, msg: Msg, key: string)
    requires CleanKey(jobs, server, net, key) && msg.key in jobs && MsgOf(msg.key, jobs[msg.key]) == Some(msg)
    requires Persisted(jobs[msg.key], msg) && StageOk(jobs[msg.key])
    requires msg.ReportMsg? ==> msg.report.runId == jobs[msg.key].runId
    ensures CleanKey(jobs, server, net + {msg}, key)
  {
    if msg.key != key {
      assert forall m :: m in net + {msg} && m.key == key ==> m in net;
      hide HasReport, Finished;
    } else if !msg.StartMsg? {
      assert WorkClean(server, net, key, jobs[key]);
      hide HasReport;
    }
  }

  lemma SendKeepsKeys(w: World, s: Sys, msg: Msg)
    requires Inv(w, s) && msg.key in s.queue.jobs && MsgOf(msg.key, s.queue.jobs[msg.key]) == Some(msg)
    requires Persisted(s.queue.jobs[msg.key], msg) && StageOk(s.queue.jobs[msg.key])
    requires msg.ReportMsg? ==> msg.report.runId == s.queue.jobs[msg.key].runId
    ensures KeysClean(s.queue.jobs, s.server, s.net + {msg}, s.begun, s.repeated)
  {
    hide JobsOk, JobsMatch, ServerOk, RunsOk, RecordsEvidenced, ReceiptsFromNet, NetOk, CandidatesOk, ProcessedOk,
      OneHolder, WorkerOk, CleanKey, StageOk, Persisted, MsgOf;
    forall key | key in s.begun && key !in s.repeated ensures CleanKey(s.queue.jobs, s.server, s.net + {msg}, key) {
      SendKeepsKey(s.queue.jobs, s.server, s.net, msg, key);
    }
  }

  lemma NetGrows(w: World, s: Sys, msg: Msg)
    requires NetOk(w, s.queue.node, s.server, s.begun, s.net) && ReceiptsFromNet(s.server, s.net)
    requires MsgOk(w, s.queue.node, s.server, s.begun, msg)
    ensures NetOk(w, s.queue.node, s.server, s.begun, s.net + {msg}) && ReceiptsFromNet(s.server, s.net + {msg})
  {
    hide MsgOk;
    forall id | id in s.server.receipts
      ensures exists m :: m in s.net + {msg} && ReceiptFor(id, s.server.receipts[id], m)
    {
      var m :| m in s.net && ReceiptFor(id, s.server.receipts[id], m);
      assert m in s.net + {msg};
    }
  }

  lemma SendKeeps(w: World, s: Sys, t: Sys, key: string)
    requires Inv(w, s) && Send(s, t, key)
    ensures Inv(w, t)
  {
    hide JobsOk, JobsMatch, ServerOk, RunsOk, RecordsEvidenced, ReceiptsFromNet, NetOk, CandidatesOk, ProcessedOk,
      OneHolder, KeysClean, RowOk, MsgOk, Persisted, StageOk, MsgOf, FilesOk, ProgressOk, JobOk, JobMatches;
    var job := s.queue.jobs[key];
    var msg := MsgOf(key, job).value;
    RowsOk(w, s, key);
    RowParts(w, s, key, job);
    PendingMsgOk(w, s, key, job);
    NetGrows(w, s, msg);
    ReportMsgRun(w, s, key, job);
    SendKeepsKeys(w, s, msg);
  }

  lemma ReportMsgRun(w: World, s: Sys, key: string, job: JobRow)
    requires RowOk(w, s, key, job) && MsgOf(key, job).Some?
    ensures MsgOf(key, job).value.ReportMsg? ==> MsgOf(key, job).value.report.runId == job.runId
  {
    hide FilesOk, ReferencesOk, LiveClean, JobMatches, RawFilesBound;
  }

  // ---- beginning ----

  /** The slot is a timestamp of fixed length at the end of the key text, so the key determines task and slot. */
  lemma ScheduledKeyInjective(node: string, taskA: string, slotA: string, taskB: string, slotB: string)
    requires IsRfc3339Utc(slotA) && IsRfc3339Utc(slotB)
    requires ScheduledExecutionKey(node, taskA, slotA) == ScheduledExecutionKey(node, taskB, slotB)
    ensures taskA == taskB && slotA == slotB
  {
    var head := "#" + ("scheduled\n" + node + "\n");
    var keyA, keyB := ScheduledExecutionKey(node, taskA, slotA), ScheduledExecutionKey(node, taskB, slotB);
    assert |slotA| == 20 && |slotB| == 20;
    assert keyA == head + taskA + "\n" + slotA && keyB == head + taskB + "\n" + slotB;
    assert keyA[|keyA| - 20..] == slotA && keyB[|keyB| - 20..] == slotB;
    assert keyA[|head|..|keyA| - 21] == taskA && keyB[|head|..|keyB| - 21] == taskB;
  }

  /** Any run under the key of a slot was started for that slot of that task. */
  lemma ScheduledRunFits(w: World, s: Sys, task: TaskConfig, slot: string, id: string)
    requires ServerOk(s.server) && RunsOk(s.queue.node, s.server, s.begun) && IsRfc3339Utc(slot)
    requires RunHasKey(s.server, id, ScheduledExecutionKey(s.queue.node, task.id, slot))
    ensures RunFits(s.server.runs[id], s.queue.node, task.id, Scheduled, slot, [])
    ensures ScheduledExecutionKey(s.queue.node, task.id, slot) in s.begun
  {
    hide IsRfc3339Utc;
    var run := s.server.runs[id];
    assert RunKeyOk(s.queue.node, s.begun, run) && RunOk(s.server, id);
    ScheduledKeyIsNotOperatorKey(s.queue.node, task.id, slot);
    ScheduledKeyInjective(s.queue.node, task.id, slot, run.taskId, run.scheduledFor);
  }

  lemma CandidateRunFits(s: Sys, c: Candidate, id: string)
    requires ServerOk(s.server) && CandidateOk(s.queue.node, s.server, c) && RunHasKey(s.server, id, c.key)
    ensures RunFits(s.server.runs[id], s.queue.node, c.task.id, c.trigger, "", c.retryFiles)
  {
  }

  /** The clauses about beginning a job under a key that is not in the queue. */
  ghost predicate Beginnable(w: World, s: Sys, begun: set<string>, key: string, job: JobRow) {
    && JobOk(w.workDir, s.queue.node, key, job) && JobMatches(w, s.queue.node, s.server, begun, key, job)
    && job.files == []
  }

  lemma HoldersBegin(jobs: map<string, JobRow>, key: string, job: JobRow)
    requires OneHolder(jobs) && key !in jobs && job.files == []
    ensures OneHolder(jobs[key := job])
  {
    var after := jobs[key := job];
    forall k, l, taskId, fp | Holds(after, k, taskId, fp) && Holds(after, l, taskId, fp) ensures k == l {
      assert Holds(jobs, k, taskId, fp) && Holds(jobs, l, taskId, fp);
    }
  }

  lemma BegunGrows(w: World, s: Sys, begun: set<string>)
    requires NetOk(w, s.queue.node, s.server, s.begun, s.net) && RunsOk(s.queue.node, s.server, s.begun)
    requires s.begun <= begun
    requires JobsMatch(w, s.queue, s.server, s.begun)
    ensures NetOk(w, s.queue.node, s.server, begun, s.net) && RunsOk(s.queue.node, s.server, begun)
    ensures JobsMatch(w, s.queue, s.server, begun)
  {
    hide ReportFits, FilesBound, ReportGood, RunFits, SlotOk, ScheduledKeyOk;
    forall msg | msg in s.net ensures MsgOk(w, s.queue.node, s.server, begun, msg) {
      assert MsgOk(w, s.queue.node, s.server, s.begun, msg);
    }
    forall id | id in s.server.runs ensures RunKeyOk(s.queue.node, begun, s.server.runs[id]) {
      assert RunKeyOk(s.queue.node, s.begun, s.server.runs[id]);
    }
    forall k | k in s.queue.jobs ensures JobMatches(w, s.queue.node, s.server, begun, k, s.queue.jobs[k]) {
      assert JobMatches(w, s.queue.node, s.server, s.begun, k, s.queue.jobs[k]);
    }
  }

  lemma KeysCleanBegin(s: Sys, begun: set<string>, repeated: set<string>, key: string, job: JobRow)
    requires KeysClean(s.queue.jobs, s.server, s.net, s.begun, s.repeated) && begun == s.begun + {key}
    requires s.repeated <= repeated
    requires key !in repeated ==> CleanKey(s.queue.jobs[key := job], s.server, s.net, key)
    ensures KeysClean(s.queue.jobs[key := job], s.server, s.net, begun, repeated)
  {
    hide OneRequest, ReportsSettled, LiveClean, Finished;
    forall k | k in begun && k !in repeated ensures CleanKey(s.queue.jobs[key := job], s.server, s.net, k) {
      if k != key {
        assert CleanKey(s.queue.jobs, s.server, s.net, k);
      }
    }
  }

  lemma BegunKeeps(w: World, s: Sys, t: Sys, key: string, job: JobRow)
    requires Inv(w, s) && key !in s.queue.jobs && s.worker.Idle? && |s.queue.jobs| < s.queue.maxJobs
    requires t == s.(queue := s.queue.(jobs := s.queue.jobs[key := job]), begun := s.begun + {key}, repeated := t.repeated)
    requires s.repeated <= t.repeated && RepeatedOk(t) && Beginnable(w, s, t.begun, key, job)
    requires key !in t.repeated ==> CleanKey(t.queue.jobs, s.server, s.net, key)
    ensures Inv(w, t)
  {
    hide JobsOk, JobsMatch, KeysClean, ServerOk, RunsOk, RecordsEvidenced, ReceiptsFromNet, NetOk, CandidatesOk,
      ProcessedOk, OneHolder, CleanKey, JobOk, JobMatches, RepeatedOk;
    BegunGrows(w, s, t.begun);
    KeysCleanBegin(s, t.begun, t.repeated, key, job);
    JobsOkUpdate(w, s.queue, key, job);
    JobsMatchUpdate(w, s.queue, s.server, t.begun, key, job);
    HoldersBegin(s.queue.jobs, key, job);
  }

  lemma FreshKeyQuiet(w: World, s: Sys, key: string)
    requires NetOk(w, s.queue.node, s.server, s.begun, s.net) && key !in s.begun
    ensures Quiet(s.net, key) && OneRequest(s.net, key) && ReportsSettled(s.server, s.net, key)
  {
    forall msg | msg in s.net ensures msg.key in s.begun {
      assert MsgOk(w, s.queue.node, s.server, s.begun, msg);
    }
  }

  lemma ScheduledBeginnable(w: World, s: Sys, task: TaskConfig, slot: string, request: StartRequest)
    requires ServerOk(s.server) && RunsOk(s.queue.node, s.server, s.begun) && IsRfc3339Utc(slot)
    requires task.node == s.queue.node
    requires request.node == task.node && request.taskId == task.id && request.scheduledFor == slot
    requires request.trigger.Scheduled?
    requires request.executionKey == ScheduledExecutionKey(task.node, task.id, slot)
    ensures Beginnable(w, s, s.begun + {request.executionKey}, request.executionKey, NewJob(task, request, []))
  {
    hide IsRfc3339Utc, ServerOk, RunsOk;
    ScheduledKeyIsNotOperatorKey(task.node, task.id, slot);
    NewJobOk(w.workDir, task, request, []);
    forall id | RunHasKey(s.server, id, request.executionKey)
      ensures RunFits(s.server.runs[id], s.queue.node, task.id, Scheduled, slot, [])
    {
      ScheduledRunFits(w, s, task, slot, id);
    }
  }

  lemma NoRunOfFreshSlot(w: World, s: Sys, task: TaskConfig, slot: string)
    requires ServerOk(s.server) && RunsOk(s.queue.node, s.server, s.begun) && IsRfc3339Utc(slot)
    requires ScheduledExecutionKey(s.queue.node, task.id, slot) !in s.begun
    ensures forall id :: !RunHasKey(s.server, id, ScheduledExecutionKey(s.queue.node, task.id, slot))
  {
    hide IsRfc3339Utc, ServerOk, RunsOk;
    forall id ensures !RunHasKey(s.server, id, ScheduledExecutionKey(s.queue.node, task.id, slot)) {
      if RunHasKey(s.server, id, ScheduledExecutionKey(s.queue.node, task.id, slot)) {
        ScheduledRunFits(w, s, task, slot, id);
        assert false;
      }
    }
  }

  lemma BeginScheduledKeeps(w: World, s: Sys, t: Sys, task: TaskConfig, slot: string, startedAt: string)
    requires Inv(w, s) && BeginScheduled(s, t, task, slot, startedAt)
    ensures Inv(w, t)
  {
    hide Inv, IsRfc3339Utc, ServerOk, RunsOk, NetOk, ReceiptsFromNet, CandidatesOk, ProcessedOk, Beginnable,
      ScheduledExecutionKey, IsOperatorKey, OneRequest, ReportsSettled, Quiet;
    var key := ScheduledExecutionKey(task.node, task.id, slot);
    var request := StartRequest(task.node, task.id, key, slot, startedAt, Scheduled);
    if QueueModel.BeginJob(s.queue, task, request, []).Begun? {
      ServerParts(w, s);
      ScheduledBeginnable(w, s, task, slot, request);
      ScheduledKeyIsNotOperatorKey(task.node, task.id, slot);
      RepeatedPart(w, s);
      if key !in s.begun {
        FreshKeyQuiet(w, s, key);
        NoRunOfFreshSlot(w, s, task, slot);
      }
      BegunKeeps(w, s, t, key, NewJob(task, request, []));
    }
  }

  lemma RepeatedPart(w: World, s: Sys)
    requires Inv(w, s)
    ensures RepeatedOk(s)
  {
    hide JobsOk, JobsMatch, KeysClean, ServerOk, RunsOk, RecordsEvidenced, ReceiptsFromNet, NetOk, CandidatesOk,
      ProcessedOk, OneHolder, WorkerOk, RepeatedOk;
  }

  lemma ManualBeginnable(w: World, s: Sys, c: Candidate, request: StartRequest)
    requires ServerOk(s.server) && CandidateOk(s.queue.node, s.server, c)
    requires request == StartRequest(c.task.node, c.task.id, c.key, "", request.startedAt, c.trigger)
    ensures Beginnable(w, s, s.begun + {c.key}, c.key, NewJob(c.task, request, c.retryFiles))
  {
    hide ServerOk, TargetsReferenced, TargetsDistinct;
    NewJobOk(w.workDir, c.task, request, c.retryFiles);
    forall id | RunHasKey(s.server, id, c.key)
      ensures RunFits(s.server.runs[id], s.queue.node, c.task.id, c.trigger, "", c.retryFiles)
    {
      CandidateRunFits(s, c, id);
    }
  }

  /** A manual key that was begun before and is gone belongs to a run that is over. */
  lemma ManualKeyClean(w: World, s: Sys, c: Candidate, job: JobRow)
    requires Inv(w, s) && c.key !in s.queue.jobs && IsOperatorKey(c.key)
    requires job.stage.StartPending? && !job.start.request.trigger.Scheduled?
    ensures c.key !in s.repeated && CleanKey(s.queue.jobs[c.key := job], s.server, s.net, c.key)
  {
    hide JobsOk, JobsMatch, ServerOk, RunsOk, RecordsEvidenced, ReceiptsFromNet, NetOk, CandidatesOk, ProcessedOk,
      OneHolder, WorkerOk, OneRequest, ReportsSettled, Quiet, Finished, IsOperatorKey;
    if c.key in s.begun {
      assert CleanKey(s.queue.jobs, s.server, s.net, c.key);
    } else {
      FreshKeyQuiet(w, s, c.key);
    }
  }

  lemma BeginManualKeeps(w: World, s: Sys, t: Sys, c: Candidate, startedAt: string)
    requires Inv(w, s) && BeginManual(s, t, c, startedAt)
    ensures Inv(w, t)
  {
    hide Inv, ServerOk, RunsOk, NetOk, ReceiptsFromNet, ProcessedOk, Beginnable, IsOperatorKey, CleanKey;
    var request := StartRequest(c.task.node, c.task.id, c.key, "", startedAt, c.trigger);
    if QueueModel.BeginJob(s.queue, c.task, request, c.retryFiles).Begun? {
      ServerParts(w, s);
      assert CandidateOk(s.queue.node, s.server, c);
      ManualBeginnable(w, s, c, request);
      RepeatedPart(w, s);
      ManualKeyClean(w, s, c, NewJob(c.task, request, c.retryFiles));
      BegunKeeps(w, s, t, c.key, NewJob(c.task, request, c.retryFiles));
    }
  }

  lemma PollKeeps(w: World, s: Sys, t: Sys, id: string, task: TaskConfig)
    requires Inv(w, s) && Poll(s, t, id, task)
    ensures Inv(w, t)
  {
    hide JobsOk, JobsMatch, KeysClean, ServerOk, RunsOk, RecordsEvidenced, ReceiptsFromNet, NetOk, ProcessedOk,
      OneHolder, WorkerOk, CandidateOk;
    PolledCandidateOk(s, id, task);
  }

  lemma PolledCandidateOk(s: Sys, id: string, task: TaskConfig)
    requires ServerOk(s.server) && RunsOk(s.queue.node, s.server, s.begun) && id in s.server.runs
    requires PendingManual(s.server.runs[id])
    requires s.server.runs[id].node == s.queue.node && task.id == s.server.runs[id].taskId && task.node == s.queue.node
    ensures var run := s.server.runs[id];
            CandidateOk(s.queue.node, s.server, Candidate(run.executionKey, task, run.trigger,
                                                          if run.retryFiles.Some? then run.retryFiles.value else []))
  {
    hide ReceiptOk, OneReportPerRun, KeysUnique, OnePendingPerTask, RawFilesOk, RecordsOk, HasReport;
    assert RunOk(s.server, id) && RunKeyOk(s.queue.node, s.begun, s.server.runs[id]);
    assert RunHasKey(s.server, id, s.server.runs[id].executionKey);
  }
}
