/** The joint invariant holds in every state of every run, and what follows from it. */
module ProtocolSafety {
  import opened Protocol
  import opened ProtocolInvariant
  import opened AgentSteps
  import opened PassSteps
  import opened ReportSteps
  import opened DeliverySteps
  import opened BeginSteps
  import opened ServerSteps

  lemma PassConflictKeeps(w: World, s: Sys, t: Sys)
    requires Inv(w, s) && PassConflict(s, t)
    ensures Inv(w, t)
  {
    hide Inv, QueueModel.MarkRequiresAttention;
    AttentionKeeps(w, s, t, s.worker.key, "archive_conflict");
  }

  lemma OversizedKeeps(w: World, s: Sys, t: Sys, key: string)
    requires Inv(w, s) && Oversized(s, t, key)
    ensures Inv(w, t)
  {
    hide Inv, QueueModel.MarkRequiresAttention;
    AttentionKeeps(w, s, t, key, "payload_too_large");
  }

  lemma HandleKeeps(w: World, s: Sys, t: Sys, msg: Msg, d: Draw, answered: bool)
    requires Inv(w, s) && Handle(s, t, msg, d, answered)
    ensures Inv(w, t)
  {
    hide Inv, Handle;
    match msg
    case StartMsg(key, req) => HandleStartKeeps(w, s, t, key, req, d, answered);
    case ManifestMsg(_, _) => HandleManifestKeeps(w, s, t, msg, d, answered);
    case ReportMsg(_, _) => HandleReportKeeps(w, s, t, msg, d, answered);
  }

  lemma QueueStepHolds(w: World, s: Sys, step: Step, t: Sys)
    requires GoodWorld(w) && Inv(w, s) && Takes(w, s, step, t)
    requires !step.HandleStep? && !step.SetEnabledStep? && !step.RequestManualStep? && !step.RequestRetryStep?
    ensures Inv(w, t)
  {
    hide Inv, GoodWorld, BeginScheduled, BeginManual, Poll, PlanDirectory, PlanTargets, PassStart, PassSkip,
      PassArchived, PassFailed, PassConflict, Protocol.SaveManifest, Protocol.SaveReport, FailCollection, Resume,
      Send, CallFails, Discard, Protocol.AcceptStart, BindManifest, Complete, Oversized, RetryAttention, Crash;
    match step
    case BeginScheduledStep(task, slot, startedAt) => BeginScheduledKeeps(w, s, t, task, slot, startedAt);
    case BeginManualStep(c, startedAt) => BeginManualKeeps(w, s, t, c, startedAt);
    case PollStep(id, task) => PollKeeps(w, s, t, id, task);
    case PlanDirectoryStep(key, limit, items) => PlanDirectoryKeeps(w, s, t, key, limit, items);
    case PlanTargetsStep(key, checks) => PlanTargetsKeeps(w, s, t, key, checks);
    case PassStartStep(key) => PassStartKeeps(w, s, t, key);
    case PassSkipStep => PassSkipKeeps(w, s, t);
    case PassArchivedStep => PassArchivedKeeps(w, s, t);
    case PassFailedStep(message) => PassFailedKeeps(w, s, t, message);
    case PassConflictStep => PassConflictKeeps(w, s, t);
    case SaveManifestStep => SaveManifestKeeps(w, s, t);
    case SaveReportStep(key, unreadable, finishedAt) => SaveReportKeeps(w, s, t, key, unreadable, finishedAt);
    case FailCollectionStep(key, error, finishedAt) => FailCollectionKeeps(w, s, t, key, error, finishedAt);
    case ResumeStep(key) => ResumeKeeps(w, s, t, key);
    case SendStep(key) => SendKeeps(w, s, t, key);
    case CallFailsStep(retryable, errorKind) => CallFailsKeeps(w, s, t, retryable, errorKind);
    case DiscardStep(key, answer) => DiscardKeeps(w, s, t, key, answer);
    case AcceptStartStep(key, answer) => AcceptStartKeeps(w, s, t, key, answer);
    case BindManifestStep(key, ids, replayed) => BindManifestKeeps(w, s, t, key, ids, replayed);
    case CompleteStep(key, response, replayed, now) => CompleteKeeps(w, s, t, key, response, replayed, now);
    case OversizedStep(key) => OversizedKeeps(w, s, t, key);
    case RetryAttentionStep(key) => RetryAttentionKeeps(w, s, t, key);
    case CrashStep => CrashKeeps(w, s, t);
  }

  lemma StepHolds(w: World, s: Sys, t: Sys)
    requires GoodWorld(w) && Inv(w, s) && Next(w, s, t)
    ensures Inv(w, t)
  {
    hide Inv, GoodWorld, BeginScheduled, BeginManual, Poll, PlanDirectory, PlanTargets, PassStart, PassSkip,
      PassArchived, PassFailed, PassConflict, Protocol.SaveManifest, Protocol.SaveReport, FailCollection, Resume,
      Send, CallFails, Discard, Protocol.AcceptStart, BindManifest, Complete, Oversized, RetryAttention, Crash,
      Handle, SetEnabled, RequestManual, RequestRetry;
    var step :| Takes(w, s, step, t);
    match step
    case HandleStep(msg, draw, answered) => HandleKeeps(w, s, t, msg, draw, answered);
    case SetEnabledStep(taskId, enabled, executable) => SetEnabledKeeps(w, s, t, taskId, enabled, executable);
    case RequestManualStep(taskId, token, executable, newId) => RequestManualKeeps(w, s, t, taskId, token, executable, newId);
    case RequestRetryStep(runId, token, executable, newId) => RequestRetryKeeps(w, s, t, runId, token, executable, newId);
    case _ => QueueStepHolds(w, s, step, t);
  }

  /** The invariant holds in every state of every run, through any crashes, losses, repetitions and delays. */
  lemma {:induction false} InvariantHolds(w: World, trace: seq<Sys>, i: nat)
    requires GoodWorld(w) && Behaviour(w, trace) && i < |trace|
    ensures Inv(w, trace[i])
  {
    hide Inv, GoodWorld, Next, Init;
    if i == 0 {
      InitInv(w, trace[0]);
    } else {
      InvariantHolds(w, trace, i - 1);
      assert Next(w, trace[i - 1], trace[i - 1 + 1]);
      StepHolds(w, trace[i - 1], trace[i]);
    }
  }
}
