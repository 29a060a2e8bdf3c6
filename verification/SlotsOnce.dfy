/** The scheduler and the protocol together: slots that strictly increase are begun once, so what is promised of keys begun
    once is promised of every key. */
module SlotsOnce {
  import opened Messages
  import opened Calendar
  import opened UtcTimestamps
  import Cron
  import Scheduler
  import SchedulerRuns
  import opened QueueModel
  import opened Planning
  import opened Reporting
  import opened JobInvariant
  import opened Protocol
  import opened ProtocolInvariant
  import opened BeginSteps
  import opened DeliverySteps
  import opened ProtocolSafety

  // ---- runs with their steps ----

  /** A run of the system together with the step taken at each moment. */
  ghost predicate Run(w: World, trace: seq<Sys>, steps: seq<Step>) {
    && |trace| == |steps| + 1 && Init(trace[0])
    && forall i :: 0 <= i < |steps| ==> Takes(w, trace[i], steps[i], trace[i + 1])
  }

  lemma RunBehaves(w: World, trace: seq<Sys>, steps: seq<Step>)
    requires Run(w, trace, steps)
    ensures Behaviour(w, trace)
  {
    hide Takes, Init;
    forall i | 0 <= i < |trace| - 1 ensures Next(w, trace[i], trace[i + 1]) {
      assert Takes(w, trace[i], steps[i], trace[i + 1]);
    }
  }

  /** Every behaviour is such a run. */
  lemma {:induction false} BehaviourRuns(w: World, trace: seq<Sys>) returns (steps: seq<Step>)
    requires Behaviour(w, trace)
    ensures Run(w, trace, steps)
  {
    hide Takes, Init;
    var n := |trace| - 1;
    if n == 0 {
      steps := [];
    } else {
      forall i | 0 <= i < n - 1 ensures Next(w, trace[..n][i], trace[..n][i + 1]) {
        assert Next(w, trace[i], trace[i + 1]);
      }
      var before := BehaviourRuns(w, trace[..n]);
      assert Next(w, trace[n - 1], trace[n - 1 + 1]);
      var step :| Takes(w, trace[n - 1], step, trace[n]);
      steps := before + [step];
      forall i | 0 <= i < n ensures Takes(w, trace[i], steps[i], trace[i + 1]) {
        if i < n - 1 {
          assert Takes(w, trace[..n][i], before[i], trace[..n][i + 1]);
        }
      }
    }
  }

  // ---- slots begun once ----

  predicate SameSlot(a: Step, b: Step) {
    a.BeginScheduledStep? && b.BeginScheduledStep? && a.task.id == b.task.id && a.slot == b.slot
  }

  ghost predicate SlotsDiffer(steps: seq<Step>) { forall i, j :: 0 <= i < j < |steps| ==> !SameSlot(steps[i], steps[j]) }

  /** The step that began a scheduled key. */
  ghost predicate BeganKey(node: string, step: Step, key: string) {
    step.BeginScheduledStep? && IsRfc3339Utc(step.slot) && key == ScheduledExecutionKey(node, step.task.id, step.slot)
  }

  ghost predicate BegunBefore(node: string, begun: set<string>, steps: seq<Step>) {
    forall key :: key in begun && !IsOperatorKey(key) ==> exists k :: 0 <= k < |steps| && BeganKey(node, steps[k], key)
  }

  lemma OtherStepsBeginNothing(w: World, s: Sys, step: Step, t: Sys)
    requires Takes(w, s, step, t) && !step.BeginScheduledStep? && !step.BeginManualStep?
    ensures t.begun == s.begun && t.repeated == s.repeated && t.queue.node == s.queue.node
  {
    hide QueueModel.BeginJob, AddProcessed, TrimProcessed, JobTally, DirectoryDraft, TargetDraft, Amended, Handled, FreshDraw,
      BindRawFiles, ManifestKeyTaken, ReportKeyTaken, PlanAccepted, HasOrdinal, Distinct, ControlPlane.SetTaskEnabled,
      ControlPlane.RequestManualRun, ControlPlane.RequestRetryRun;
  }

  lemma ManualBegins(w: World, s: Sys, t: Sys, c: Candidate, startedAt: string)
    requires Inv(w, s) && BeginManual(s, t, c, startedAt)
    ensures t.repeated == s.repeated && t.queue.node == s.queue.node
    ensures forall key :: key in t.begun && !IsOperatorKey(key) ==> key in s.begun
  {
    hide Inv, IsOperatorKey;
    ServerParts(w, s);
    assert CandidateOk(s.queue.node, s.server, c);
  }

  lemma ScheduledBegins(s: Sys, t: Sys, task: TaskConfig, slot: string, startedAt: string, steps: seq<Step>)
    requires BeginScheduled(s, t, task, slot, startedAt) && BegunBefore(s.queue.node, s.begun, steps)
    requires forall k :: 0 <= k < |steps| ==> !SameSlot(steps[k], BeginScheduledStep(task, slot, startedAt))
    ensures t.repeated == s.repeated && t.queue.node == s.queue.node
    ensures BegunBefore(t.queue.node, t.begun, steps + [BeginScheduledStep(task, slot, startedAt)])
  {
    hide IsRfc3339Utc, ScheduledExecutionKey, IsOperatorKey;
    var step := BeginScheduledStep(task, slot, startedAt);
    var longer := steps + [step];
    var key := ScheduledExecutionKey(task.node, task.id, slot);
    Extended(s.queue.node, s.begun, steps, step);
    if t.begun != s.begun {
      assert BeganKey(s.queue.node, longer[|steps|], key);
    }
    if key in s.begun && task.node == s.queue.node {
      ScheduledKeyIsNotOperatorKey(task.node, task.id, slot);
      var k :| 0 <= k < |steps| && BeganKey(s.queue.node, steps[k], key);
      ScheduledKeyInjective(task.node, task.id, slot, steps[k].task.id, steps[k].slot);
    }
  }

  lemma Extended(node: string, begun: set<string>, steps: seq<Step>, step: Step)
    requires BegunBefore(node, begun, steps)
    ensures BegunBefore(node, begun, steps + [step])
  {
    hide BeganKey, IsOperatorKey;
    forall key | key in begun && !IsOperatorKey(key)
      ensures exists k :: 0 <= k < |steps + [step]| && BeganKey(node, (steps + [step])[k], key)
    {
      var k :| 0 <= k < |steps| && BeganKey(node, steps[k], key);
      assert BeganKey(node, (steps + [step])[k], key);
    }
  }

  /** When no slot of a task is dispatched twice, no key is ever begun twice. */
  lemma {:induction false} NothingIsRepeated(w: World, trace: seq<Sys>, steps: seq<Step>, i: nat)
    requires GoodWorld(w) && Run(w, trace, steps) && SlotsDiffer(steps) && i < |trace|
    ensures trace[i].repeated == {} && BegunBefore(trace[i].queue.node, trace[i].begun, steps[..i])
  {
    hide GoodWorld, Inv, SameSlot, BegunBefore, BeginScheduled, BeginManual;
    if i == 0 {
      NothingBegun(trace[0]);
    } else {
      NothingIsRepeated(w, trace, steps, i - 1);
      RunBehaves(w, trace, steps);
      InvariantHolds(w, trace, i - 1);
      var s, step, t := trace[i - 1], steps[i - 1], trace[i];
      assert Takes(w, s, step, trace[i - 1 + 1]);
      assert steps[..i] == steps[..i - 1] + [step];
      StepRepeatsNothing(w, s, step, t, steps[..i - 1]);
    }
  }

  lemma NothingBegun(s: Sys)
    requires Init(s)
    ensures BegunBefore(s.queue.node, s.begun, [])
  {
  }

  lemma StepRepeatsNothing(w: World, s: Sys, step: Step, t: Sys, steps: seq<Step>)
    requires Inv(w, s) && Takes(w, s, step, t) && s.repeated == {} && BegunBefore(s.queue.node, s.begun, steps)
    requires forall k :: 0 <= k < |steps| ==> !SameSlot(steps[k], step)
    ensures t.repeated == {} && BegunBefore(t.queue.node, t.begun, steps + [step])
  {
    hide Inv, SameSlot, BegunBefore, BeginScheduled, BeginManual, Poll, PlanDirectory, PlanTargets, PassStart, PassSkip,
      PassArchived, PassFailed, PassConflict, Protocol.SaveManifest, Protocol.SaveReport, FailCollection, Resume, Send, CallFails,
      Discard, Protocol.AcceptStart, BindManifest, Complete, Oversized, RetryAttention, Crash, Handle, SetEnabled, RequestManual,
      RequestRetry, IsOperatorKey;
    match step
    case BeginScheduledStep(task, slot, startedAt) => ScheduledBegins(s, t, task, slot, startedAt, steps);
    case BeginManualStep(c, startedAt) =>
      ManualBegins(w, s, t, c, startedAt);
      FewerBegun(s.queue.node, s.begun, t.begun, steps);
      Extended(s.queue.node, t.begun, steps, step);
    case _ =>
      OtherStepsBeginNothing(w, s, step, t);
      Extended(s.queue.node, s.begun, steps, step);
  }

  lemma FewerBegun(node: string, a: set<string>, b: set<string>, steps: seq<Step>)
    requires BegunBefore(node, a, steps) && forall key :: key in b && !IsOperatorKey(key) ==> key in a
    ensures BegunBefore(node, b, steps)
  {
    hide BeganKey, IsOperatorKey;
  }

  // ---- the scheduler's slots ----

  predicate SameTask(a: Step, b: Step) { a.BeginScheduledStep? && b.BeginScheduledStep? && a.task.id == b.task.id }

  /** Every scheduled job that is begun was dispatched by the scheduler: the decision at this place of its task's history,
      and no decision twice. */
  ghost predicate Dispatches(steps: seq<Step>, histories: map<string, seq<Scheduler.Decision>>, at: seq<nat>) {
    && |at| == |steps|
    && (forall i :: 0 <= i < |steps| && steps[i].BeginScheduledStep? ==>
          && steps[i].task.id in histories && at[i] < |histories[steps[i].task.id]|
          && var slot := histories[steps[i].task.id][at[i]].slot;
             ClockReading(slot) && steps[i].slot == FormatClock(slot))
    && (forall i, j :: 0 <= i < j < |steps| && SameTask(steps[i], steps[j]) ==> at[i] != at[j])
  }

  ghost predicate HistoriesOk(histories: map<string, seq<Scheduler.Decision>>) {
    forall id :: id in histories ==> Scheduler.HistoryOk(histories[id])
  }

  /** Two decisions of one history have different timestamps. */
  lemma DecisionsDiffer(history: seq<Scheduler.Decision>, m: nat, n: nat)
    requires Scheduler.HistoryOk(history) && m < |history| && n < |history| && m != n
    requires ClockReading(history[m].slot) && ClockReading(history[n].slot)
    ensures FormatClock(history[m].slot) != FormatClock(history[n].slot)
  {
    hide FormatClock, ClockReading, Scheduler.UtcMinute, Cron.Matches, Cron.WellFormed;
    var a, b := history[m].slot, history[n].slot;
    assert Scheduler.IsSlotOf(history[m].schedule, a) && Scheduler.IsSlotOf(history[n].schedule, b);
    if m < n {
      assert a < b;
    } else {
      assert b < a;
    }
    MinutesPrintDifferently(a, b);
  }

  lemma WholeMinutes(time: int)
    requires time % Cron.MINUTE == 0
    ensures time == time / NANOSECONDS * NANOSECONDS
  {
    assert time == Cron.MINUTE * (time / Cron.MINUTE);
    assert time == NANOSECONDS * (60 * (time / Cron.MINUTE));
  }

  /** The scheduler never dispatches a slot of a task twice. */
  lemma DispatchedSlotsDiffer(steps: seq<Step>, histories: map<string, seq<Scheduler.Decision>>, at: seq<nat>)
    requires HistoriesOk(histories) && Dispatches(steps, histories, at)
    ensures SlotsDiffer(steps)
  {
    hide Scheduler.HistoryOk, FormatClock, ClockReading;
    forall i, j | 0 <= i < j < |steps| ensures !SameSlot(steps[i], steps[j]) {
      if SameSlot(steps[i], steps[j]) {
        DecisionsDiffer(histories[steps[i].task.id], at[i], at[j]);
      }
    }
  }

  /** So in every run of the system whose scheduled jobs come from the scheduler, no key is begun twice, and every promise
      for keys begun once holds for all keys. */
  lemma SchedulerRepeatsNothing(w: World, trace: seq<Sys>, steps: seq<Step>,
                                histories: map<string, seq<Scheduler.Decision>>, at: seq<nat>, i: nat)
    requires GoodWorld(w) && Run(w, trace, steps) && i < |trace|
    requires HistoriesOk(histories) && Dispatches(steps, histories, at)
    ensures trace[i].repeated == {}
  {
    hide GoodWorld, Run, Dispatches, HistoriesOk, SlotsDiffer, BegunBefore;
    DispatchedSlotsDiffer(steps, histories, at);
    NothingIsRepeated(w, trace, steps, i);
  }

  // ---- whole runs of the scheduler ----

  /** Every scheduled job that is begun is one of the executions dispatched, and none of them is begun twice. */
  ghost predicate BeginsFrom(steps: seq<Step>, log: seq<Scheduler.Execution>, at: seq<nat>) {
    && |at| == |steps|
    && (forall i :: 0 <= i < |steps| && steps[i].BeginScheduledStep? ==>
          && at[i] < |log| && log[at[i]].task.id == steps[i].task.id && ClockReading(log[at[i]].scheduledFor)
          && steps[i].slot == FormatClock(log[at[i]].scheduledFor))
    && (forall i, j :: 0 <= i < j < |steps| && SameTask(steps[i], steps[j]) ==> at[i] != at[j])
  }

  /** Different whole minutes print differently. */
  lemma MinutesPrintDifferently(a: int, b: int)
    requires ClockReading(a) && ClockReading(b) && a % Cron.MINUTE == 0 && b % Cron.MINUTE == 0 && a != b
    ensures FormatClock(a) != FormatClock(b)
  {
    hide Format, FourDigitYear, Seconds, IsRfc3339Utc;
    WholeMinutes(a);
    WholeMinutes(b);
    ClockYears(a);
    ClockYears(b);
    FormatRoundTrip(a / NANOSECONDS);
    FormatRoundTrip(b / NANOSECONDS);
  }

  lemma RisingSlotsDiffer(steps: seq<Step>, log: seq<Scheduler.Execution>, at: seq<nat>)
    requires SchedulerRuns.Rising(log) && SchedulerRuns.WholeMinutes(log) && BeginsFrom(steps, log, at)
    ensures SlotsDiffer(steps)
  {
    hide FormatClock, ClockReading;
    forall i, j | 0 <= i < j < |steps| ensures !SameSlot(steps[i], steps[j]) {
      if SameSlot(steps[i], steps[j]) {
        var m, n := at[i], at[j];
        assert log[m].scheduledFor != log[n].scheduledFor by {
          assert m < n ==> log[m].scheduledFor < log[n].scheduledFor;
          assert n < m ==> log[n].scheduledFor < log[m].scheduledFor;
        }
        assert log[m] in log && log[n] in log;
        MinutesPrintDifferently(log[m].scheduledFor, log[n].scheduledFor);
      }
    }
  }

  /** In every run of the system whose scheduled jobs are dispatched by some run of the scheduler, configurations and restarts
      included, that never brings a task back before a slot it forgot: no key is begun twice, so every promise for keys begun
      once holds for all keys. */
  lemma WholeRunRepeatsNothing(w: World, trace: seq<Sys>, steps: seq<Step>, calls: seq<SchedulerRuns.Call>,
                               states: seq<seq<Scheduler.Entry>>, dues: seq<seq<Scheduler.Execution>>, at: seq<nat>, i: nat)
    requires GoodWorld(w) && Run(w, trace, steps) && i < |trace|
    requires SchedulerRuns.Played(calls, states, dues) && SchedulerRuns.Resumes(calls, states, dues)
    requires BeginsFrom(steps, SchedulerRuns.Log(dues), at)
    ensures trace[i].repeated == {}
  {
    hide GoodWorld, Run, BeginsFrom, SlotsDiffer, BegunBefore, SchedulerRuns.Played, SchedulerRuns.Resumes,
      SchedulerRuns.Rising, SchedulerRuns.WholeMinutes, SchedulerRuns.Log;
    SchedulerRuns.DispatchedSlotsRise(calls, states, dues);
    RisingSlotsDiffer(steps, SchedulerRuns.Log(dues), at);
    NothingIsRepeated(w, trace, steps, i);
  }
}
