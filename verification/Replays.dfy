/** Answers are final: over any run of the system, whatever was answered once is answered the same ever after. */
module Replays {
  import opened Messages
  import opened Calendar
  import opened Fingerprint
  import opened Planning
  import opened Reporting
  import opened ControlPlane
  import opened ServerInvariant
  import opened JobInvariant
  import opened Protocol
  import opened ProtocolInvariant
  import opened DeliverySteps
  import opened ProtocolSafety
  import opened ProtocolTheorems

  // ---- the tables grow ----

  lemma QueueStepServer(w: World, s: Sys, step: Step, t: Sys)
    requires Takes(w, s, step, t)
    requires !step.HandleStep? && !step.SetEnabledStep? && !step.RequestManualStep? && !step.RequestRetryStep?
    ensures t.server == s.server
  {
    hide QueueModel.BeginJob, QueueModel.SaveFilePlan, QueueModel.SaveManifest, QueueModel.SaveReport, QueueModel.AcceptManifest,
      QueueModel.CompleteJob, QueueModel.MarkFileArchived, QueueModel.MarkFileFailed, QueueModel.MarkRequiresAttention,
      QueueModel.RecordDeliveryFailure, QueueModel.DiscardStartPending, QueueModel.AcceptStart, QueueModel.ResumeDelivery,
      QueueModel.RetryAttentionJob, DirectoryDraft, TargetDraft, Amended, JobTally, MsgOf, IsRfc3339Utc, Distinct,
      NeedsPlan, AtFile, PassDone, ReadyToReport, ReportOf, CollectionFailureReport, ManifestFor;
  }

  lemma HandleGrows(w: World, s: Sys, t: Sys, msg: Msg, d: Draw, answered: bool)
    requires Inv(w, s) && Handle(s, t, msg, d, answered)
    ensures t.server == Handled(s.server, msg, d).0 && Grows(s.server, t.server)
  {
    hide Inv, Grows, ControlPlane.Start, ControlPlane.AcceptManifest, ControlPlane.AcceptReport;
    ServerParts(w, s);
    match msg
    case StartMsg(_, req) => StartKeepsServer(s.server, req, d.newId);
    case ManifestMsg(_, m) => AcceptManifestKeepsServer(s.server, m, d.rawIds);
    case ReportMsg(_, r) => AcceptReportKeepsServer(s.server, r, d.recordIds, d.qcIds, d.alertIds, d.rulesUsable);
  }

  lemma EnablingGrows(w: World, s: Sys, t: Sys, taskId: string, enabled: bool, executable: bool)
    requires Inv(w, s) && SetEnabled(s, t, taskId, enabled, executable)
    ensures Grows(s.server, t.server)
  {
    hide Inv, Grows, ServerOk, ControlPlane.SetTaskEnabled;
    ServerParts(w, s);
    SetTaskEnabledKeepsServer(s.server, taskId, enabled, executable);
  }

  lemma ManualRequestGrows(w: World, s: Sys, t: Sys, taskId: string, token: string, executable: bool, newId: string)
    requires Inv(w, s) && RequestManual(s, t, taskId, token, executable, newId)
    ensures Grows(s.server, t.server)
  {
    hide Inv, Grows, ServerOk, ControlPlane.AcceptManual;
    ServerParts(w, s);
    AcceptManualKeepsServer(s.server, Manual, taskId, "", token, [], executable, newId);
  }

  lemma RetryRequestGrows(w: World, s: Sys, t: Sys, runId: string, token: string, executable: bool, newId: string)
    requires Inv(w, s) && RequestRetry(s, t, runId, token, executable, newId)
    ensures Grows(s.server, t.server)
  {
    hide Inv, Grows, ServerOk, ControlPlane.RequestRetryRun;
    ServerParts(w, s);
    RequestRetryKeepsServer(s.server, runId, token, executable, newId);
  }

  lemma StepGrows(w: World, s: Sys, t: Sys)
    requires Inv(w, s) && Next(w, s, t)
    ensures Grows(s.server, t.server)
  {
    hide Inv, Grows, BeginScheduled, BeginManual, Poll, PlanDirectory, PlanTargets, PassStart, PassSkip, PassArchived,
      PassFailed, PassConflict, Protocol.SaveManifest, Protocol.SaveReport, FailCollection, Resume, Send, CallFails,
      Discard, Protocol.AcceptStart, BindManifest, Complete, Oversized, RetryAttention, Crash, Handle, SetEnabled,
      RequestManual, RequestRetry;
    var step :| Takes(w, s, step, t);
    match step
    case HandleStep(msg, d, answered) => HandleGrows(w, s, t, msg, d, answered);
    case SetEnabledStep(taskId, enabled, executable) => EnablingGrows(w, s, t, taskId, enabled, executable);
    case RequestManualStep(taskId, token, executable, newId) =>
      ManualRequestGrows(w, s, t, taskId, token, executable, newId);
    case RequestRetryStep(runId, token, executable, newId) => RetryRequestGrows(w, s, t, runId, token, executable, newId);
    case _ =>
      QueueStepServer(w, s, step, t);
      GrowsReflexive(s.server);
  }

  /** Along every run of the system no row of the control plane is lost, nor any receipt, raw file or record changed. */
  lemma {:induction false} HistoryGrows(w: World, trace: seq<Sys>, i: nat, j: nat)
    requires GoodWorld(w) && Behaviour(w, trace) && i <= j < |trace|
    ensures Grows(trace[i].server, trace[j].server)
    decreases j - i
  {
    hide GoodWorld, Next, Init, Inv, Grows;
    if i == j {
      GrowsReflexive(trace[i].server);
    } else {
      HistoryGrows(w, trace, i, j - 1);
      InvariantHolds(w, trace, j - 1);
      assert Next(w, trace[j - 1], trace[j - 1 + 1]);
      StepGrows(w, trace[j - 1], trace[j]);
      GrowsTransitive(trace[i].server, trace[j - 1].server, trace[j].server);
    }
  }

  // ---- replays against tables that have grown ----

  lemma NodeStays(a: Server, b: Server, runId: string)
    requires Grows(a, b) && runId in a.runs
    ensures runId in b.runs && b.runs[runId].node == a.runs[runId].node
  {
  }

  lemma ManifestReplays(s: Server, later: Server, m: ManifestRequest, ids: seq<string>, laterIds: seq<string>)
    requires |ids| == |m.files| == |laterIds|
    requires var (b, reply) := ControlPlane.AcceptManifest(s, m, ids); reply.ManifestAccepted? && Grows(b, later)
    ensures ControlPlane.AcceptManifest(later, m, laterIds)
         == (later, ManifestAccepted(ControlPlane.AcceptManifest(s, m, ids).1.rawFileIds, true))
  {
    hide ManifestFingerprint, AddRawFiles, RunAdvances;
    var b := ControlPlane.AcceptManifest(s, m, ids).0;
    assert ManifestReceiptId(m) in b.receipts && m.runId in b.runs;
    assert b.runs == s.runs && later.runs[m.runId].node == b.runs[m.runId].node by {
      NodeStays(b, later, m.runId);
    }
  }

  lemma ReportReplays(s: Server, later: Server, r: ReportRequest, d: Draw, e: Draw)
    requires |d.recordIds| == |r.records| == |e.recordIds|
    requires var (b, reply) := ControlPlane.AcceptReport(s, r, d.recordIds, d.qcIds, d.alertIds, d.rulesUsable);
             reply.ReportAccepted? && Grows(b, later)
    ensures var reply := ControlPlane.AcceptReport(s, r, d.recordIds, d.qcIds, d.alertIds, d.rulesUsable).1;
            ControlPlane.AcceptReport(later, r, e.recordIds, e.qcIds, e.alertIds, e.rulesUsable)
            == (later, ReportAccepted(reply.response, true))
  {
    hide ReportFingerprint, NewRecords, RunAdvances, ReportRefusal;
    var b := ControlPlane.AcceptReport(s, r, d.recordIds, d.qcIds, d.alertIds, d.rulesUsable).0;
    assert ReportReceiptId(r) in b.receipts && r.runId in b.runs;
    NodeStays(b, later, r.runId);
  }

  // ---- answers along a run ----

  lemma AfterHandling(w: World, trace: seq<Sys>, i: nat, j: nat, msg: Msg, d: Draw, answered: bool)
    requires GoodWorld(w) && Behaviour(w, trace) && i < j < |trace| && Handle(trace[i], trace[i + 1], msg, d, answered)
    ensures FreshDraw(trace[i].server, msg, d) && Grows(Handled(trace[i].server, msg, d).0, trace[j].server)
  {
    hide GoodWorld, Behaviour, Inv, Grows, Handled;
    InvariantHolds(w, trace, i);
    HandleGrows(w, trace[i], trace[i + 1], msg, d, answered);
    HistoryGrows(w, trace, i + 1, j);
  }

  /** In every run of the system: once a manifest was answered, it is answered with the same raw file ids at every later
      moment, and changes nothing. */
  lemma ManifestAnswerIsFinal(w: World, trace: seq<Sys>, i: nat, j: nat, msg: Msg, d: Draw, answered: bool, e: Draw)
    requires GoodWorld(w) && Behaviour(w, trace) && i < j < |trace| && Handle(trace[i], trace[i + 1], msg, d, answered)
    requires Handled(trace[i].server, msg, d).1.ManifestAccepted? && FreshDraw(trace[j].server, msg, e)
    ensures Handled(trace[j].server, msg, e)
            == (trace[j].server, ManifestAccepted(Handled(trace[i].server, msg, d).1.rawFileIds, true))
  {
    hide GoodWorld, Behaviour, Grows, Handle, ControlPlane.AcceptManifest;
    AfterHandling(w, trace, i, j, msg, d, answered);
    AnswersManifest(trace[i].server, msg, d);
    ManifestReplays(trace[i].server, trace[j].server, msg.manifest, d.rawIds, e.rawIds);
  }

  lemma AnswersManifest(s: Server, msg: Msg, d: Draw)
    requires FreshDraw(s, msg, d) && Handled(s, msg, d).1.ManifestAccepted?
    ensures msg.ManifestMsg?
  {
    hide ManifestFingerprint, ReportFingerprint, AddRawFiles, NewRecords, ReportRefusal, IsRfc3339Utc;
  }

  lemma AnswersReport(s: Server, msg: Msg, d: Draw)
    requires FreshDraw(s, msg, d) && Handled(s, msg, d).1.ReportAccepted?
    ensures msg.ReportMsg?
  {
    hide ManifestFingerprint, ReportFingerprint, AddRawFiles, NewRecords, ReportRefusal, IsRfc3339Utc;
  }

  /** In every run of the system: once a report was answered, it is answered with the same ids of records, QC results and
      alerts at every later moment, whatever became of the QC rules, and changes nothing. */
  lemma ReportAnswerIsFinal(w: World, trace: seq<Sys>, i: nat, j: nat, msg: Msg, d: Draw, answered: bool, e: Draw)
    requires GoodWorld(w) && Behaviour(w, trace) && i < j < |trace| && Handle(trace[i], trace[i + 1], msg, d, answered)
    requires Handled(trace[i].server, msg, d).1.ReportAccepted? && FreshDraw(trace[j].server, msg, e)
    ensures Handled(trace[j].server, msg, e)
            == (trace[j].server, ReportAccepted(Handled(trace[i].server, msg, d).1.response, true))
  {
    hide GoodWorld, Behaviour, Grows, Handle, ControlPlane.AcceptReport;
    AfterHandling(w, trace, i, j, msg, d, answered);
    AnswersReport(trace[i].server, msg, d);
    ReportReplays(trace[i].server, trace[j].server, msg.report, d, e);
  }

  /** In every run of the system: once a start was answered with a run, every later start under the same key, if it is
      answered with a run at all, is answered with that one, and creates none. */
  lemma StartAnswerIsFinal(w: World, trace: seq<Sys>, i: nat, j: nat, msg: Msg, d: Draw, answered: bool, later: StartRequest,
                           e: Draw)
    requires GoodWorld(w) && Behaviour(w, trace) && i < j < |trace| && Handle(trace[i], trace[i + 1], msg, d, answered)
    requires msg.StartMsg? && Handled(trace[i].server, msg, d).1.Started? && later.executionKey == msg.start.executionKey
    requires e.newId !in trace[j].server.runs && ControlPlane.Start(trace[j].server, later, e.newId).1.Started?
    ensures var (after, reply) := ControlPlane.Start(trace[j].server, later, e.newId);
            && reply.answer.runId == Handled(trace[i].server, msg, d).1.answer.runId
            && after.runs.Keys == trace[j].server.runs.Keys
  {
    hide GoodWorld, Behaviour, Grows, Handle, Inv, ServerOk, ControlPlane.Start;
    AfterHandling(w, trace, i, j, msg, d, answered);
    InvariantHolds(w, trace, j);
    ServerParts(w, trace[j]);
    StartFinds(trace[i].server, msg.start, d.newId);
    var id := Handled(trace[i].server, msg, d).1.answer.runId;
    KeyStays(Handled(trace[i].server, msg, d).0, trace[j].server, id, later.executionKey);
    FoundStart(trace[j].server, later, e.newId, id);
  }

  lemma StartFinds(s: Server, req: StartRequest, newId: string)
    requires ControlPlane.Start(s, req, newId).1.Started?
    ensures var (t, reply) := ControlPlane.Start(s, req, newId); RunHasKey(t, reply.answer.runId, req.executionKey)
  {
    hide IsRfc3339Utc;
  }

  lemma KeyStays(a: Server, b: Server, id: string, key: string)
    requires Grows(a, b) && RunHasKey(a, id, key)
    ensures RunHasKey(b, id, key)
  {
  }

  lemma FoundStart(s: Server, req: StartRequest, newId: string, id: string)
    requires ServerOk(s) && RunHasKey(s, id, req.executionKey) && ControlPlane.Start(s, req, newId).1.Started?
    ensures var (t, reply) := ControlPlane.Start(s, req, newId); reply.answer.runId == id && t.runs.Keys == s.runs.Keys
  {
    hide ServerOk, IsRfc3339Utc;
    OneRunPerKey(s, req.executionKey);
  }
}
