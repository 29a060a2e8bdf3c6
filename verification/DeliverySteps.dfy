/** Acting on the answer to a start, a manifest or a report, and removing a job, keep the joint invariant. */
module DeliverySteps {
  import opened Messages
  import opened QueueModel
  import opened ControlPlane
  import opened ServerInvariant
  import opened JobInvariant
  import opened Protocol
  import opened ProtocolInvariant
  import opened AgentSteps

  // ---- answers ----

  lemma StartedRow(w: World, s: Sys, key: string, job: JobRow, answer: StartAnswer)
    requires RowOk(w, s, key, job) && job.stage.StartPending? && answer.status.Running?
    requires StartReplyOk(s.server, s.net, s.repeated, key, answer)
    ensures RowOk(w, s, key, job.(runId := answer.runId, stage := Collecting))
  {
    StartedJobOk(w.workDir, s.queue.node, key, job, answer.runId);
  }

  lemma AcceptStartKeeps(w: World, s: Sys, t: Sys, key: string, answer: StartAnswer)
    requires Inv(w, s) && Protocol.AcceptStart(s, t, key, answer)
    ensures Inv(w, t)
  {
    hide Inv, RowOk, StartReplyOk, OneHolder, Recorded, ReportCommitted;
    WorkerParts(w, s);
    HolderPart(w, s);
    RowsOk(w, s, key);
    StartedRow(w, s, key, s.queue.jobs[key], answer);
    OneHolderFrame(s.queue.jobs, t.queue.jobs, key);
    JobStepKeeps(w, s, t, key, s.queue.jobs[key].(runId := answer.runId, stage := Collecting));
  }

  lemma {:induction false} EntryAt(files: seq<FileRow>, i: nat, n: nat)
    requires i < n <= |files| && files[i].errorDetail == ""
    ensures |EntriesOf(files, i)| < |EntriesOf(files, n)|
    ensures EntriesOf(files, n)[|EntriesOf(files, i)|] == EntryOf(files[i])
  {
    if i < n - 1 {
      EntryAt(files, i, n - 1);
    }
  }

  /** Every id lands on the file whose archive path was sent at its position, whichever files failed in between. */
  lemma BoundByPath(rawFiles: map<string, RawFileRow>, job: JobRow, m: ManifestRequest, ids: seq<string>,
                    bound: seq<FileRow>)
    requires Recorded(rawFiles, m, ids) && m.files == EntriesOf(job.files, |job.files|) && m.runId == job.runId
    requires BoundUpTo(job.files, bound, ids, |ids|) && forall i :: 0 <= i < |job.files| ==> job.files[i].rawFileId == ""
    ensures FilesBound(rawFiles, job.runId, bound)
  {
    forall i | 0 <= i < |bound| && bound[i].rawFileId != ""
      ensures bound[i].rawFileId in rawFiles && rawFiles[bound[i].rawFileId].runId == job.runId
      ensures rawFiles[bound[i].rawFileId].storagePath == bound[i].archivePath
    {
      var p := |EntriesOf(job.files, i)|;
      assert job.files[i].errorDetail == "" && bound[i] == job.files[i].(rawFileId := ids[p]);
      EntryAt(job.files, i, |job.files|);
      assert rawFiles[ids[p]] == RawFileOf(m, m.files[p]);
    }
  }

  /** The answer of the control plane always binds: the queue never refuses it. */
  lemma ManifestBinds(w: World, s: Sys, key: string, ids: seq<string>)
    requires key in s.queue.jobs && RowOk(w, s, key, s.queue.jobs[key]) && s.queue.jobs[key].stage.ManifestPending?
    requires |ids| == |s.queue.jobs[key].manifest.value.request.files|
    ensures var job := s.queue.jobs[key];
            var r := QueueModel.AcceptManifest(s.queue, key, ids);
            && r.Some? && key in r.value.jobs && BoundUpTo(job.files, r.value.jobs[key].files, ids, |ids|)
            && r.value == s.queue.(jobs := s.queue.jobs[key := Bound(job, r.value.jobs[key].files)])
  {
    hide FilesOk, JobMatches, LiveClean, IdentityOk, ReferencesOk, BoundUpTo, BindRawFiles, PathsDistinct;
    var job := s.queue.jobs[key];
    PlannedPathsAreDistinct(w.workDir, job);
    BindingFollowsEntries(job.files, job.manifest.value.request.files, ids, |ids|);
    assert |ids| == |job.manifest.value.request.files|;
  }

  lemma BoundRow(w: World, s: Sys, key: string, job: JobRow, ids: seq<string>, bound: seq<FileRow>)
    requires RowOk(w, s, key, job) && job.stage.ManifestPending? && job.manifest.Some?
    requires Recorded(s.server.rawFiles, job.manifest.value.request, ids) && BoundUpTo(job.files, bound, ids, |ids|)
    ensures RowOk(w, s, key, Bound(job, bound)) && SameInputs(job.files, bound)
  {
    hide FilesOk, LiveClean, IdentityOk, ReferencesOk, BoundUpTo, Recorded, ReportGood, FilesBound;
    assert |ids| == |job.manifest.value.request.files| && forall i :: 0 <= i < |ids| ==> ids[i] != "" by {
      RecordedIds(s.server.rawFiles, job.manifest.value.request, ids);
    }
    BoundJobOk(w.workDir, s.queue.node, key, job, ids, bound);
    BoundByPath(s.server.rawFiles, job, job.manifest.value.request, ids, bound);
    BoundIdentity(job.files, bound, ids, |ids|);
    RunOkSame(s.queue.node, s.server, s.begun, key, job, Bound(job, bound));
    BoundReportGood(w, s.server, job, ids, bound);
    if key !in s.repeated {
      WorkingClean(s.server, s.net, key, job, Bound(job, bound));
    }
  }

  lemma RecordedIds(rawFiles: map<string, RawFileRow>, m: ManifestRequest, ids: seq<string>)
    requires Recorded(rawFiles, m, ids)
    ensures |ids| == |m.files| && forall i :: 0 <= i < |ids| ==> ids[i] != ""
  {
  }

  lemma BoundReportGood(w: World, server: Server, job: JobRow, ids: seq<string>, bound: seq<FileRow>)
    requires ReportGood(w, server, job) && job.report.None? && BoundUpTo(job.files, bound, ids, |ids|)
    ensures ReportGood(w, server, Bound(job, bound))
  {
    forall i | 0 <= i < |bound| ensures !bound[i].parsedClean {
      assert bound[i].parsedClean == job.files[i].parsedClean;
    }
  }

  lemma BindManifestKeeps(w: World, s: Sys, t: Sys, key: string, ids: seq<string>, replayed: bool)
    requires Inv(w, s) && BindManifest(s, t, key, ids, replayed)
    ensures Inv(w, t)
  {
    hide Inv, RowOk, OneHolder, SameInputs, QueueModel.AcceptManifest, BoundUpTo, Recorded, StartReplyOk,
      ReportCommitted;
    WorkerParts(w, s);
    HolderPart(w, s);
    RowsOk(w, s, key);
    var job := s.queue.jobs[key];
    RecordedIds(s.server.rawFiles, job.manifest.value.request, ids);
    ManifestBinds(w, s, key, ids);
    BoundRow(w, s, key, job, ids, t.queue.jobs[key].files);
    OneHolderFrame(s.queue.jobs, t.queue.jobs, key);
    JobStepKeeps(w, s, t, key, Bound(job, t.queue.jobs[key].files));
  }

  // ---- a job leaves the queue ----

  lemma HoldersShrink(a: map<string, JobRow>, key: string)
    requires OneHolder(a)
    ensures OneHolder(a - {key})
  {
    forall k, l, taskId, fp | Holds(a - {key}, k, taskId, fp) && Holds(a - {key}, l, taskId, fp) ensures k == l {
      assert Holds(a, k, taskId, fp) && Holds(a, l, taskId, fp);
    }
  }

  lemma KeysCleanShrink(jobs: map<string, JobRow>, server: Server, net: set<Msg>, begun: set<string>,
                        repeated: set<string>, key: string)
    requires KeysClean(jobs, server, net, begun, repeated) && Finished(server, key)
    ensures KeysClean(jobs - {key}, server, net, begun, repeated)
  {
    hide OneRequest, ReportsSettled, LiveClean, Finished;
    forall k | k in begun && k !in repeated ensures CleanKey(jobs - {key}, server, net, k) {
      assert CleanKey(jobs, server, net, k);
    }
  }

  lemma JobsShrink(w: World, queue: Queue, server: Server, begun: set<string>, key: string,
                   processed: seq<ProcessedRow>)
    requires JobsOk(w, queue) && JobsMatch(w, queue, server, begun)
    ensures JobsOk(w, queue.(jobs := queue.jobs - {key}, processed := processed))
    ensures JobsMatch(w, queue.(jobs := queue.jobs - {key}, processed := processed), server, begun)
  {
    hide JobOk, JobMatches;
    var q := queue.(jobs := queue.jobs - {key}, processed := processed);
    forall k | k in q.jobs ensures JobOk(w.workDir, q.node, k, q.jobs[k]) && JobMatches(w, q.node, server, begun, k, q.jobs[k]) {
      assert k in queue.jobs && queue.jobs[k] == q.jobs[k];
    }
  }

  lemma FewerJobs(jobs: map<string, JobRow>, key: string)
    requires key in jobs
    ensures |jobs - {key}| == |jobs| - 1
  {
    assert (jobs - {key}).Keys == jobs.Keys - {key};
  }

  lemma RemoveKeeps(w: World, s: Sys, t: Sys, key: string)
    requires Inv(w, s) && key in s.queue.jobs
    requires t == s.(queue := s.queue.(jobs := s.queue.jobs - {key}, processed := t.queue.processed), worker := Idle)
    requires Finished(s.server, key) && ProcessedOk(s.server, t.queue.processed)
    ensures Inv(w, t)
  {
    hide JobsOk, JobsMatch, KeysClean, ServerOk, RunsOk, RecordsEvidenced, ReceiptsFromNet, NetOk, CandidatesOk,
      ProcessedOk, OneHolder, Finished;
    HoldersShrink(s.queue.jobs, key);
    KeysCleanShrink(s.queue.jobs, s.server, s.net, s.begun, s.repeated, key);
    JobsShrink(w, s.queue, s.server, s.begun, key, t.queue.processed);
    FewerJobs(s.queue.jobs, key);
  }

  lemma ServerParts(w: World, s: Sys)
    requires Inv(w, s)
    ensures ServerOk(s.server) && RunsOk(s.queue.node, s.server, s.begun)
    ensures NetOk(w, s.queue.node, s.server, s.begun, s.net)
    ensures ReceiptsFromNet(s.server, s.net) && CandidatesOk(s.queue.node, s.server, s.candidates)
    ensures ProcessedOk(s.server, s.queue.processed)
  {
    hide JobsOk, JobsMatch, KeysClean, ServerOk, RunsOk, RecordsEvidenced, ReceiptsFromNet, NetOk, CandidatesOk,
      ProcessedOk, OneHolder, WorkerOk;
  }

  /** A discarded job never had a plan, and its run was already over. */
  lemma DiscardKeeps(w: World, s: Sys, t: Sys, key: string, answer: StartAnswer)
    requires Inv(w, s) && Discard(s, t, key, answer)
    ensures Inv(w, t) && Finished(s.server, key) && s.queue.jobs[key].files == []
    ensures s.queue.jobs[key].stage.StartPending?
  {
    hide Inv, ProcessedOk, ServerOk, RunsOk, NetOk, ReceiptsFromNet, CandidatesOk, Recorded, ReportCommitted;
    WorkerParts(w, s);
    ServerParts(w, s);
    assert RunHasKey(s.server, answer.runId, key);
    RemoveKeeps(w, s, t, key);
  }

  lemma {:induction false} AddedRows(processed: seq<ProcessedRow>, taskId: string, key: string, now: int,
                                     files: seq<FileRow>)
    ensures var r := AddProcessed(processed, taskId, key, now, files);
            forall p :: p in r ==> p in processed || (p.executionKey == key && p.taskId == taskId
                                     && exists i :: 0 <= i < |files| && files[i].fingerprint == p.fingerprint && files[i].parsedClean)
  {
    if files != [] {
      AddedRows(processed, taskId, key, now, files[..|files| - 1]);
      var before := AddProcessed(processed, taskId, key, now, files[..|files| - 1]);
      forall p | p in AddProcessed(processed, taskId, key, now, files) && p !in processed
        ensures p.executionKey == key && p.taskId == taskId
                && exists i :: 0 <= i < |files| && files[i].fingerprint == p.fingerprint && files[i].parsedClean
      {
        if p in before {
          var i :| 0 <= i < |files| - 1 && files[..|files| - 1][i].fingerprint == p.fingerprint && files[..|files| - 1][i].parsedClean;
          assert files[i].fingerprint == p.fingerprint;
        } else {
          assert p.fingerprint == files[|files| - 1].fingerprint;
        }
      }
    }
  }

  lemma {:induction false} TrimmedRows(processed: seq<ProcessedRow>, taskId: string, capacity: nat, n: nat)
    requires n <= |processed|
    ensures forall p :: p in TrimProcessed(processed, taskId, capacity, n) ==> p in processed
  {
    if n > 0 {
      TrimmedRows(processed, taskId, capacity, n - 1);
    }
  }

  lemma ProcessedAfter(server: Server, queue: Queue, key: string, now: int, runId: string)
    requires ProcessedOk(server, queue.processed) && RunHasKey(server, runId, key) && HasReport(server, runId)
    requires CompleteJob(queue, key, now).Some?
    ensures ProcessedOk(server, CompleteJob(queue, key, now).value.processed)
  {
    hide HasReport;
    var job := queue.jobs[key];
    var added := AddProcessed(queue.processed, job.task.id, key, now, job.files);
    AddedRows(queue.processed, job.task.id, key, now, job.files);
    TrimmedRows(added, job.task.id, queue.processedCapacity, |added|);
    var after := CompleteJob(queue, key, now).value.processed;
    assert Reported(server, key);
    forall i | 0 <= i < |after| ensures Reported(server, after[i].executionKey) {
      assert after[i] in added;
    }
  }

  /** The report of the job's run is committed when the control plane has answered it. */
  lemma AnsweredMeansReported(s: Server, r: ReportRequest, response: Response)
    requires ServerOk(s) && ReportCommitted(s, r, response)
    ensures HasReport(s, r.runId) && r.runId in s.runs && Terminal(s.runs[r.runId].status)
  {
    assert ReportReceiptOf(s, ReportReceiptId(r), r.runId);
    assert ReceiptOk(s, ReportReceiptId(r));
    assert RunOk(s, r.runId);
  }

  lemma CompleteKeeps(w: World, s: Sys, t: Sys, key: string, response: Response, replayed: bool, now: int)
    requires Inv(w, s) && Complete(s, t, key, response, replayed, now)
    ensures Inv(w, t)
    ensures s.queue.jobs[key].report.Some?
    ensures ReportCommitted(s.server, s.queue.jobs[key].report.value.request, response)
  {
    hide Inv, ProcessedOk, ServerOk, RunsOk, NetOk, ReceiptsFromNet, CandidatesOk, Recorded, StartReplyOk,
      ReportCommitted, RowOk, HasReport, AddProcessed, TrimProcessed;
    WorkerParts(w, s);
    ServerParts(w, s);
    RowsOk(w, s, key);
    var r := s.queue.jobs[key].report.value.request;
    ReportRun(w, s, key, s.queue.jobs[key]);
    AnsweredMeansReported(s.server, r, response);
    ProcessedAfter(s.server, s.queue, key, now, r.runId);
    RemoveKeeps(w, s, t, key);
  }

  lemma ReportRun(w: World, s: Sys, key: string, job: JobRow)
    requires RowOk(w, s, key, job) && job.report.Some? && job.stage.ReportPending?
    ensures RunHasKey(s.server, job.report.value.request.runId, key)
  {
    hide FilesOk, ReferencesOk, LiveClean, FilesBound, ReportGood;
  }
}
