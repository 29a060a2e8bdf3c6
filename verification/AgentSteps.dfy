/** The steps of the Agent on its own queue keep the joint invariant. */
module AgentSteps {
  import opened Messages
  import opened QueueModel
  import opened Planning
  import opened ControlPlane
  import opened ServerInvariant
  import opened JobInvariant
  import opened Protocol
  import opened ProtocolInvariant

  lemma RowParts(w: World, s: Sys, key: string, job: JobRow)
    requires RowOk(w, s, key, job)
    ensures JobOk(w.workDir, s.queue.node, key, job) && StageOk(job) && ProgressOk(job) && FilesOk(w.workDir, job)
    ensures JobMatches(w, s.queue.node, s.server, s.begun, key, job)
  {
    hide IdentityOk, StageOk, ProgressOk, RequestsOk, FilesOk, RawFilesBound, ReferencesOk, JobMatches, LiveClean;
  }

  // ---- side states and crashes ----

  lemma CrashKeeps(w: World, s: Sys, t: Sys)
    requires Inv(w, s) && Crash(s, t)
    ensures Inv(w, t)
  {
    hide JobsOk, JobsMatch, KeysClean, ServerOk, RunsOk, RecordsEvidenced, ReceiptsFromNet, NetOk, CandidatesOk,
      ProcessedOk, OneHolder;
  }

  lemma ResumeKeeps(w: World, s: Sys, t: Sys, key: string)
    requires Inv(w, s) && Resume(s, t, key)
    ensures Inv(w, t)
  {
    hide Inv, RowOk, StageOk, ProgressOk, JobOk, FilesOk, JobMatches;
    RowsOk(w, s, key);
    RowParts(w, s, key, s.queue.jobs[key]);
    ResumeKeepsStage(s.queue.jobs[key]);
    SideStepKeeps(w, s, t, key, Resumed(s.queue.jobs[key]));
  }

  lemma CallFailsKeeps(w: World, s: Sys, t: Sys, retryable: bool, errorKind: string)
    requires Inv(w, s) && CallFails(s, t, retryable, errorKind)
    ensures Inv(w, t)
  {
    hide Inv, RowOk, StageOk, ProgressOk, JobOk, FilesOk, JobMatches;
    var key := s.worker.key;
    var job := s.queue.jobs[key];
    WorkerParts(w, s);
    RowsOk(w, s, key);
    RowParts(w, s, key, job);
    FailureKeepsStage(job, retryable, errorKind);
    SideStepKeeps(w, s, t, key, FailedDelivery(job, KindOf(job.stage), retryable, errorKind));
  }

  lemma WorkerParts(w: World, s: Sys)
    requires Inv(w, s)
    ensures WorkerOk(s.queue.jobs, s.server, s.net, s.repeated, s.worker)
  {
    hide JobsOk, JobsMatch, KeysClean, ServerOk, RunsOk, RecordsEvidenced, ReceiptsFromNet, NetOk, CandidatesOk,
      ProcessedOk, OneHolder, WorkerOk;
  }

  lemma AttentionKeeps(w: World, s: Sys, t: Sys, key: string, errorKind: string)
    requires Inv(w, s) && key in s.queue.jobs && MarkRequiresAttention(s.queue, key, errorKind).Some?
    requires t == s.(queue := MarkRequiresAttention(s.queue, key, errorKind).value, worker := Idle)
    ensures Inv(w, t)
  {
    hide Inv, RowOk, StageOk, ProgressOk, JobOk, FilesOk, JobMatches;
    RowsOk(w, s, key);
    RowParts(w, s, key, s.queue.jobs[key]);
    AttentionKeepsStage(s.queue, key, errorKind);
    SideStepKeeps(w, s, t, key, WithAttention(s.queue.jobs[key], errorKind));
  }

  lemma RetryAttentionKeeps(w: World, s: Sys, t: Sys, key: string)
    requires Inv(w, s) && RetryAttention(s, t, key)
    ensures Inv(w, t)
  {
    hide Inv, RowOk, ProgressOk, JobOk, FilesOk, JobMatches;
    RowsOk(w, s, key);
    var job := s.queue.jobs[key];
    RowParts(w, s, key, job);
    RetryRestoresStage(s.queue, key);
    SideStepKeeps(w, s, t, key, job.(stage := EffectiveStage(job), retryStage := None));
  }

  // ---- planning ----

  lemma PlannedHolders(w: World, s: Sys, key: string, d: Draft)
    requires OneHolder(s.queue.jobs) && key in s.queue.jobs && s.queue.jobs[key].files == []
    requires forall i :: 0 <= i < |d.plan| ==> !InFlight(s.queue, s.queue.jobs[key].task.id, d.plan[i].fingerprint)
    ensures OneHolder(s.queue.jobs[key := Planned(s.queue.jobs[key], d)])
  {
    var jobs := s.queue.jobs;
    var after := jobs[key := Planned(jobs[key], d)];
    forall a, b, taskId, fp | Holds(after, a, taskId, fp) && Holds(after, b, taskId, fp) ensures a == b {
      assert a != key ==> Holds(jobs, a, taskId, fp) && InFlight(s.queue, taskId, fp);
      assert b != key ==> Holds(jobs, b, taskId, fp) && InFlight(s.queue, taskId, fp);
    }
  }

  lemma PlannedMatches(w: World, s: Sys, key: string, job: JobRow, d: Draft)
    requires JobMatches(w, s.queue.node, s.server, s.begun, key, job) && job.files == [] && job.report.None?
    requires WellFormedDraft(s.queue, SiteOf(w.workDir, job), d)
    ensures JobMatches(w, s.queue.node, s.server, s.begun, key, Planned(job, d))
  {
    assert Planned(job, d).files == d.plan;
    hide JobRunOk, InFlight;
    RunOkSame(s.queue.node, s.server, s.begun, key, job, Planned(job, d));
    forall i | 0 <= i < |d.plan| ensures d.plan[i].rawFileId == "" && !d.plan[i].parsedClean {
      assert FreshRow(SiteOf(w.workDir, job), d.plan[i], i);
    }
  }

  lemma RunOkSame(node: string, server: Server, begun: set<string>, key: string, a: JobRow, b: JobRow)
    requires JobRunOk(node, server, begun, key, a)
    requires b.task == a.task && b.runId == a.runId && b.retryFiles == a.retryFiles
    requires b.start.request == a.start.request
    ensures JobRunOk(node, server, begun, key, b)
  {
  }

  /** Once the job has a run, only its requests matter to what is under way, not its files. */
  lemma WorkingClean(server: Server, net: set<Msg>, key: string, a: JobRow, b: JobRow)
    requires LiveClean(server, net, key, a) && b.runId == a.runId && !EffectiveStage(a).StartPending?
    requires !EffectiveStage(b).StartPending?
    requires b.manifest == a.manifest && b.report == a.report
    ensures LiveClean(server, net, key, b)
  {
    forall msg | msg in net && msg.key == key ensures Persisted(b, msg) {
      assert Persisted(a, msg);
    }
  }

  lemma DraftKeeps(w: World, s: Sys, t: Sys, key: string, d: Draft)
    requires Inv(w, s) && NeedsPlan(s, key) && SavesDraft(s, t, key, Some(d))
    requires DraftFits(s.queue, w.workDir, s.queue.jobs[key], d)
    ensures Inv(w, t)
  {
    var job := s.queue.jobs[key];
    HolderPart(w, s);
    hide Inv, StageOk, JobOk, FilesOk, JobMatches, LiveClean, OneHolder, InFlight, PlanAccepted, FreshRow, PathsFrom;
    RowsOk(w, s, key);
    RowParts(w, s, key, job);
    PlannedJobOk(s.queue, w.workDir, s.queue.node, key, job, d);
    PlannedMatches(w, s, key, job, d);
    PlannedHolders(w, s, key, d);
    if key !in s.repeated {
      WorkingClean(s.server, s.net, key, job, Planned(job, d));
    }
    JobStepKeeps(w, s, t, key, Planned(job, d));
  }

  lemma HolderPart(w: World, s: Sys)
    requires Inv(w, s)
    ensures OneHolder(s.queue.jobs)
  {
    hide JobsOk, JobsMatch, KeysClean, ServerOk, RunsOk, RecordsEvidenced, ReceiptsFromNet, NetOk, CandidatesOk,
      ProcessedOk, OneHolder, WorkerOk;
  }

  lemma PlanDirectoryKeeps(w: World, s: Sys, t: Sys, key: string, limit: nat, items: seq<Listing>)
    requires Inv(w, s) && PlanDirectory(w, s, t, key, limit, items)
    ensures Inv(w, t)
  {
    hide Inv, DraftFits, DirectoryDraft, Distinct;
    DirectoryDraftFits(s.queue, w.workDir, s.queue.jobs[key], limit, items);
    DraftKeeps(w, s, t, key, DirectoryDraft(s.queue, SiteOf(w.workDir, s.queue.jobs[key]), limit, items, |items|).value);
  }

  lemma PlanTargetsKeeps(w: World, s: Sys, t: Sys, key: string, checks: seq<TargetCheck>)
    requires Inv(w, s) && PlanTargets(w, s, t, key, checks)
    ensures Inv(w, t)
  {
    hide Inv, DraftFits, TargetDraft, JobMatches, StageOk, ProgressOk, FilesOk;
    var job := s.queue.jobs[key];
    RowsOk(w, s, key);
    RowParts(w, s, key, job);
    TargetDraftFits(s.queue, w.workDir, job, checks);
    DraftKeeps(w, s, t, key, TargetDraft(s.queue, SiteOf(w.workDir, job), job.retryFiles, checks, |checks|).value);
  }
}
