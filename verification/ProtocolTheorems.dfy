/** What the protocol promises, for every run: exactly-once effect, no conflicts, evidence, and nothing lost. */
module ProtocolTheorems {
  import opened Messages
  import opened Fingerprint
  import opened QueueModel
  import opened Reporting
  import opened ControlPlane
  import opened ServerInvariant
  import opened JobInvariant
  import opened Protocol
  import opened ProtocolInvariant
  import opened AgentSteps
  import opened BeginSteps
  import opened DeliverySteps
  import opened ServerSteps
  import opened ProtocolSafety

  ghost predicate Reachable(w: World, s: Sys) {
    GoodWorld(w) && exists trace, i: nat :: i < |trace| && Behaviour(w, trace) && trace[i] == s
  }

  lemma ReachableInv(w: World, s: Sys)
    requires Reachable(w, s)
    ensures Inv(w, s)
  {
    hide Inv, GoodWorld, Behaviour;
    var trace, i: nat :| i < |trace| && Behaviour(w, trace) && trace[i] == s;
    InvariantHolds(w, trace, i);
  }

  // ---- at most one effect per run ----

  /** What is promised of keys begun once is promised of every manual and retry key. */
  lemma OperatorKeysCountAsBegunOnce(w: World, s: Sys, key: string)
    requires Reachable(w, s) && IsOperatorKey(key)
    ensures key !in s.repeated
  {
    hide Reachable, Inv;
    ReachableInv(w, s);
    RepeatedPart(w, s);
  }

  lemma ReceiptMsg(w: World, s: Sys, id: ReceiptId) returns (msg: Msg)
    requires NetOk(w, s.queue.node, s.server, s.begun, s.net) && ReceiptsFromNet(s.server, s.net)
    requires id in s.server.receipts
    ensures msg in s.net && ReceiptFor(id, s.server.receipts[id], msg) && MsgOk(w, s.queue.node, s.server, s.begun, msg)
  {
    hide ReceiptFor, MsgOk;
    msg :| msg in s.net && ReceiptFor(id, s.server.receipts[id], msg);
  }

  function DerivedReceiptId(node: string, kind: RequestKind, runId: string): ReceiptId {
    ReceiptId(node, kind, if kind.ManifestKind? then ManifestKey(node, runId) else ReportKey(node, runId))
  }

  lemma ReceiptKeyFromNet(w: World, s: Sys, id: ReceiptId)
    requires NetOk(w, s.queue.node, s.server, s.begun, s.net) && ReceiptsFromNet(s.server, s.net)
    requires id in s.server.receipts
    ensures id == DerivedReceiptId(s.queue.node, id.kind, s.server.receipts[id].runId)
  {
    hide NetOk, ReceiptsFromNet, ReportFits, ManifestFingerprint, ReportFingerprint, ManifestKey, ReportKey;
    var msg := ReceiptMsg(w, s, id);
  }

  /** The idempotency key of every receipt is the one derived from its run. */
  lemma ReceiptKeyDerived(w: World, s: Sys, id: ReceiptId)
    requires Reachable(w, s) && id in s.server.receipts
    ensures id == DerivedReceiptId(s.queue.node, id.kind, s.server.receipts[id].runId)
  {
    hide Reachable, Inv, ServerOk, RunsOk, NetOk, ReceiptsFromNet, CandidatesOk, ProcessedOk, DerivedReceiptId;
    ReachableInv(w, s);
    ServerParts(w, s);
    ReceiptKeyFromNet(w, s, id);
  }

  /** Two receipts of one kind for one run. */
  ghost predicate Rivals(s: Server, x: ReceiptId, y: ReceiptId) {
    x in s.receipts && y in s.receipts && x.kind == y.kind && s.receipts[x].runId == s.receipts[y].runId
  }

  /** For every execution key: at most one run; and for every run: at most one manifest receipt and at most one report
      receipt, each of them completed. No premise about the scheduler is needed for this. */
  lemma AtMostOneEffect(w: World, s: Sys, key: string)
    requires Reachable(w, s)
    ensures forall a, b :: RunHasKey(s.server, a, key) && RunHasKey(s.server, b, key) ==> a == b
    ensures forall x, y :: Rivals(s.server, x, y) ==> x == y
    ensures forall x :: x in s.server.receipts ==> s.server.receipts[x].response.Some?
  {
    hide Reachable, Inv, ServerOk, RunsOk, NetOk, ReceiptsFromNet, CandidatesOk, ProcessedOk, KeysUnique, ManifestKey,
      ReportKey;
    ReachableInv(w, s);
    ServerParts(w, s);
    OneRunPerKey(s.server, key);
    forall x, y | Rivals(s.server, x, y) ensures x == y {
      ReceiptKeyFromNet(w, s, x);
      ReceiptKeyFromNet(w, s, y);
    }
    forall x | x in s.server.receipts ensures s.server.receipts[x].response.Some? {
      ReceiptComplete(s.server, x);
    }
  }

  lemma OneRunPerKey(s: Server, key: string)
    requires ServerOk(s)
    ensures forall a, b :: RunHasKey(s, a, key) && RunHasKey(s, b, key) ==> a == b
  {
    hide RunOk, ReceiptOk, OneReportPerRun, OnePendingPerTask, RawFilesOk, RecordsOk;
  }

  lemma ReceiptComplete(s: Server, id: ReceiptId)
    requires ServerOk(s) && id in s.receipts
    ensures s.receipts[id].response.Some?
  {
    hide RunOk, OneReportPerRun, KeysUnique, OnePendingPerTask, RawFilesOk, RecordsOk, Recorded, RecordsOf,
      NewRecords, Outcome;
    assert ReceiptOk(s, id);
    if id.kind.ManifestKind? {
      var m :| ManifestAnswer(s, id, m);
    } else {
      var r :| ReportAnswer(s, id, r);
    }
  }

  // ---- the one report ----

  lemma SameReportSameRows(a: ReportRequest, b: ReportRequest, ids: seq<string>, n: nat)
    requires NormalReport(a) == NormalReport(b) && n <= |a.records| == |ids|
    ensures |a.records| == |b.records| && NewRecords(a, ids, n) == NewRecords(b, ids, n)
    decreases n
  {
    assert |MapAll(a.records, NormalRecord)| == |MapAll(b.records, NormalRecord)|;
    if n > 0 {
      SameReportSameRows(a, b, ids, n - 1);
      assert NormalRecord(a.records[n - 1]) == MapAll(a.records, NormalRecord)[n - 1]
          == MapAll(b.records, NormalRecord)[n - 1] == NormalRecord(b.records[n - 1]);
    }
  }

  /** What a committed report leaves in the tables. */
  ghost predicate Stored(s: Server, r: ReportRequest) {
    && ReportReceiptId(r) in s.receipts && r.runId in s.runs && Outcome(s.runs[r.runId], r)
    && var receipt := s.receipts[ReportReceiptId(r)];
       && receipt.runId == r.runId && receipt.fingerprint == ReportFingerprint(r) && receipt.response.Some?
       && |receipt.response.value.recordIds| == |r.records|
       && RecordsOf(s.records, r.runId) == NewRecords(r, receipt.response.value.recordIds, |r.records|)
  }

  lemma ReceiptStores(s: Server, r: ReportRequest)
    requires ServerOk(s) && ReportReceiptId(r) in s.receipts
    requires s.receipts[ReportReceiptId(r)].fingerprint == ReportFingerprint(r)
    ensures Stored(s, r)
  {
    hide RunOk, OneReportPerRun, KeysUnique, OnePendingPerTask, RawFilesOk, RecordsOk, ReportFingerprint, RecordsOf,
      NewRecords;
    var id := ReportReceiptId(r);
    assert ReceiptOk(s, id);
    var first :| ReportAnswer(s, id, first);
    ReportFingerprintInjective(first, r);
    assert |MapAll(first.records, NormalRecord)| == |MapAll(r.records, NormalRecord)|;
    SameReportSameRows(first, r, s.receipts[id].response.value.recordIds, |r.records|);
  }

  lemma ReportOfRun(w: World, s: Sys, runId: string, key: string) returns (r: ReportRequest)
    requires NetOk(w, s.queue.node, s.server, s.begun, s.net) && ReceiptsFromNet(s.server, s.net)
    requires HasReport(s.server, runId) && RunHasKey(s.server, runId, key)
    ensures ReportMsg(key, r) in s.net && r.runId == runId && ReportReceiptId(r) in s.server.receipts
    ensures s.server.receipts[ReportReceiptId(r)].fingerprint == ReportFingerprint(r)
  {
    hide NetOk, ReceiptsFromNet, ReportFits, ManifestFingerprint, ReportFingerprint, ManifestKey, ReportKey;
    var id :| ReportReceiptOf(s.server, id, runId);
    var msg := ReceiptMsg(w, s, id);
    r := msg.report;
  }

  /** Exactly-once effect: once the run of a key that was begun once has a report, the records stored for the run, its
      outcome and its receipt are those of one report, and that report is the only one the Agent ever sent for it. */
  lemma ExactlyOneReport(w: World, s: Sys, key: string, runId: string) returns (r: ReportRequest)
    requires Reachable(w, s) && key !in s.repeated && RunHasKey(s.server, runId, key) && HasReport(s.server, runId)
    ensures ReportMsg(key, r) in s.net && r.runId == runId && Stored(s.server, r)
    ensures forall msg :: msg in s.net && msg.key == key && msg.ReportMsg? ==> msg.report == r
    ensures key in s.queue.jobs && s.queue.jobs[key].report.Some? ==> s.queue.jobs[key].report.value.request == r
  {
    hide Reachable, Inv, ServerOk, RunsOk, NetOk, ReceiptsFromNet, CandidatesOk, ProcessedOk, JobsOk, JobsMatch,
      Stored, HasReport, RunHasKey;
    ReachableInv(w, s);
    ServerParts(w, s);
    QueueParts(w, s);
    r := ReportOfRun(w, s, runId, key);
    ReceiptStores(s.server, r);
    MsgBegun(w, s, ReportMsg(key, r));
    assert CleanKey(s.queue.jobs, s.server, s.net, key);
    OnlyReport(s, key, r);
    if key in s.queue.jobs && s.queue.jobs[key].report.Some? {
      LiveReport(w, s, key, r);
    }
  }

  lemma MsgBegun(w: World, s: Sys, msg: Msg)
    requires NetOk(w, s.queue.node, s.server, s.begun, s.net) && msg in s.net
    ensures msg.key in s.begun && MsgOk(w, s.queue.node, s.server, s.begun, msg)
  {
    hide ReportFits;
    assert MsgOk(w, s.queue.node, s.server, s.begun, msg);
  }

  lemma OnlyReport(s: Sys, key: string, r: ReportRequest)
    requires CleanKey(s.queue.jobs, s.server, s.net, key) && ReportMsg(key, r) in s.net
    ensures forall msg :: msg in s.net && msg.key == key && msg.ReportMsg? ==> msg.report == r
  {
    hide ReportsSettled, LiveClean, Finished;
    forall msg | msg in s.net && msg.key == key && msg.ReportMsg? ensures msg.report == r {
      assert msg == ReportMsg(key, r);
    }
  }

  lemma LiveReport(w: World, s: Sys, key: string, r: ReportRequest)
    requires JobsOk(w, s.queue) && key in s.queue.jobs && s.queue.jobs[key].report.Some?
    requires CleanKey(s.queue.jobs, s.server, s.net, key) && ReportMsg(key, r) in s.net
    ensures s.queue.jobs[key].report.value.request == r
  {
    hide OneRequest, ReportsSettled, Finished, IdentityOk, RequestsOk, FilesOk, RawFilesBound, ReferencesOk;
    assert JobOk(w.workDir, s.queue.node, key, s.queue.jobs[key]);
    assert Persisted(s.queue.jobs[key], ReportMsg(key, r));
  }

  // ---- conflicts are unreachable ----

  /** The refusals that would mean the two sides disagree about what was sent. */
  predicate Disagreement(reason: Refusal) {
    || reason.KeyReused? || reason.NotAccepted? || reason.IdempotencyConflict? || reason.TaskRunConflict? || reason.RunFinished?
    || reason.IncompleteReceipt? || reason.BadFailedFiles? || reason.BadRecords?
  }

  lemma OwnershipHolds(w: World, s: Sys, msg: Msg)
    requires MsgOk(w, s.queue.node, s.server, s.begun, msg) && !msg.StartMsg? && RunHasKey(s.server, "", msg.key) == false
    requires s.queue.node != ""
    ensures msg.ManifestMsg? ==> msg.manifest.key != "" && Ownership(s.server, msg.manifest.runId, msg.manifest.node).None?
    ensures msg.ReportMsg? ==> msg.report.key != "" && Ownership(s.server, msg.report.runId, msg.report.node).None?
  {
    hide ReportFits;
  }

  lemma NoEmptyRun(s: Server, key: string)
    requires ServerOk(s)
    ensures !RunHasKey(s, "", key)
  {
    hide ReceiptOk, OneReportPerRun, KeysUnique, OnePendingPerTask, RawFilesOk, RecordsOk;
    forall id | id in s.runs ensures id != "" {
      assert RunOk(s, id);
    }
  }

  /** Whatever receipt is found under the key of a manifest was claimed by the same manifest. */
  lemma ManifestClaim(w: World, s: Sys, key: string, m: ManifestRequest)
    requires NetOk(w, s.queue.node, s.server, s.begun, s.net) && ReceiptsFromNet(s.server, s.net) && ServerOk(s.server)
    requires ManifestMsg(key, m) in s.net && OneRequest(s.net, key)
    ensures var c := ClaimReceipt(s.server, ManifestReceiptId(m), m.runId, ManifestFingerprint(m));
            if ManifestReceiptId(m) in s.server.receipts then c.Replay? else c.Acquired?
  {
    hide NetOk, ReceiptsFromNet, ServerOk, ReportFits, ManifestFingerprint, ReportFingerprint, ManifestKey, ReportKey;
    var id := ManifestReceiptId(m);
    MsgBegun(w, s, ManifestMsg(key, m));
    if id in s.server.receipts {
      var msg := ReceiptMsg(w, s, id);
      DerivedKeysIdentifyRun(s.queue.node, msg.manifest.runId, m.runId);
      assert msg.manifest.runId == m.runId && msg.key == key;
      ReceiptComplete(s.server, id);
    }
  }

  lemma ReportClaim(w: World, s: Sys, key: string, r: ReportRequest)
    requires NetOk(w, s.queue.node, s.server, s.begun, s.net) && ReceiptsFromNet(s.server, s.net) && ServerOk(s.server)
    requires ReportMsg(key, r) in s.net && OneRequest(s.net, key)
    ensures var c := ClaimReceipt(s.server, ReportReceiptId(r), r.runId, ReportFingerprint(r));
            if ReportReceiptId(r) in s.server.receipts then c.Replay? else c.Acquired?
    ensures ReportReceiptId(r) !in s.server.receipts ==> !HasReport(s.server, r.runId)
  {
    hide NetOk, ReceiptsFromNet, ServerOk, ReportFits, ManifestFingerprint, ReportFingerprint, ManifestKey, ReportKey;
    var id := ReportReceiptId(r);
    MsgBegun(w, s, ReportMsg(key, r));
    if id in s.server.receipts {
      var msg := ReceiptMsg(w, s, id);
      DerivedKeysIdentifyRun(s.queue.node, msg.report.runId, r.runId);
      assert msg.report.runId == r.runId && msg.key == key;
      ReceiptComplete(s.server, id);
    }
    forall other | ReportReceiptOf(s.server, other, r.runId) ensures other == id {
      var msg := ReceiptMsg(w, s, other);
      assert msg.key == key;
    }
  }

  predicate EntriesValid(m: ManifestRequest) { forall i :: 0 <= i < |m.files| ==> EntryValid(m.files[i]) }

  /** A manifest of a key begun once is always answered with ids, but for one case: it was not answered before and one of
      its entries has no name or no path; then it is invalid. */
  lemma ManifestNeverConflicts(w: World, s: Sys, key: string, m: ManifestRequest, d: Draw)
    requires Reachable(w, s) && s.queue.node != "" && ManifestMsg(key, m) in s.net && key !in s.repeated
    requires FreshDraw(s.server, ManifestMsg(key, m), d)
    ensures var reply := Handled(s.server, ManifestMsg(key, m), d).1;
            if ManifestReceiptId(m) in s.server.receipts || EntriesValid(m) then reply.ManifestAccepted?
            else reply == Refused(Invalid)
  {
    hide Reachable, Inv, ServerOk, RunsOk, NetOk, ReceiptsFromNet, CandidatesOk, ProcessedOk, JobsOk, JobsMatch,
      ClaimReceipt, Ownership, MsgOk, OneRequest, ManifestFingerprint, AddRawFiles;
    ReachableInv(w, s);
    ServerParts(w, s);
    QueueParts(w, s);
    MsgBegun(w, s, ManifestMsg(key, m));
    NoEmptyRun(s.server, key);
    OwnershipHolds(w, s, ManifestMsg(key, m));
    CleanOne(s, key);
    ManifestClaim(w, s, key, m);
  }

  lemma CleanOne(s: Sys, key: string)
    requires KeysClean(s.queue.jobs, s.server, s.net, s.begun, s.repeated) && key in s.begun && key !in s.repeated
    ensures OneRequest(s.net, key) && ReportsSettled(s.server, s.net, key)
  {
    hide LiveClean, Finished, OneRequest, ReportsSettled;
    assert CleanKey(s.queue.jobs, s.server, s.net, key);
  }

  predicate AllIdsPresent(r: ReportRequest) { forall i :: 0 <= i < |r.records| ==> IdsPresent(r.records[i]) }

  lemma ReportPassesChecks(w: World, s: Sys, r: ReportRequest, rulesUsable: bool)
    requires r.runId in s.server.runs && ReportFits(w, s.server, r) && !Terminal(s.server.runs[r.runId].status)
    ensures ReportRefusal(s.server, r, rulesUsable)
            == if !AllIdsPresent(r) then Some(Invalid) else if !rulesUsable then Some(RuleUnavailable) else None
  {
    hide FailedFilesValid, Evidence, RecordStorable;
  }

  lemma SettledReport(s: Sys, key: string, r: ReportRequest)
    requires ReportsSettled(s.server, s.net, key) && ReportMsg(key, r) in s.net && r.runId in s.server.runs
    requires !HasReport(s.server, r.runId)
    ensures s.server.runs[r.runId].status.Running?
  {
    hide HasReport;
    assert ReportMsg(key, r).ReportMsg?;
  }

  /** A report of a key begun once is always accepted or replayed, but for two cases, both when it was not answered before:
      a record of it names no raw file or no rule, so that it is invalid, or a QC rule is missing or unusable today. */
  lemma ReportNeverConflicts(w: World, s: Sys, key: string, r: ReportRequest, d: Draw)
    requires Reachable(w, s) && s.queue.node != "" && ReportMsg(key, r) in s.net && key !in s.repeated
    requires FreshDraw(s.server, ReportMsg(key, r), d)
    ensures var reply := Handled(s.server, ReportMsg(key, r), d).1;
            if ReportReceiptId(r) in s.server.receipts then reply.ReportAccepted?
            else if !AllIdsPresent(r) then reply == Refused(Invalid)
            else if !d.rulesUsable then reply == Refused(RuleUnavailable)
            else reply.ReportAccepted?
  {
    hide Reachable, Inv, ServerOk, RunsOk, NetOk, ReceiptsFromNet, CandidatesOk, ProcessedOk, JobsOk, JobsMatch,
      ClaimReceipt, Ownership, OneRequest, ReportsSettled, ReportFingerprint, NewRecords, ReportRefusal, ReportFits,
      HasReport, ReportKey, AllIdsPresent;
    ReachableInv(w, s);
    ServerParts(w, s);
    QueueParts(w, s);
    MsgBegun(w, s, ReportMsg(key, r));
    NoEmptyRun(s.server, key);
    OwnershipHolds(w, s, ReportMsg(key, r));
    CleanOne(s, key);
    ReportClaim(w, s, key, r);
    if ReportReceiptId(r) !in s.server.receipts {
      SettledReport(s, key, r);
      ReportPassesChecks(w, s, r, d.rulesUsable);
    }
  }

  /** The start of a waiting job is never told that its key belongs to another run or was never accepted. */
  lemma StartNeverConflicts(w: World, s: Sys, key: string, req: StartRequest, d: Draw)
    requires Reachable(w, s) && s.worker.Call? && s.worker.msg == StartMsg(key, req)
    requires FreshDraw(s.server, StartMsg(key, req), d)
    ensures var reply := Handled(s.server, StartMsg(key, req), d).1; reply.Refused? ==> !Disagreement(reply.reason)
  {
    hide Reachable, Inv, ServerOk, RunsOk, NetOk, ReceiptsFromNet, CandidatesOk, ProcessedOk, JobsOk, JobsMatch,
      ControlPlane.Start;
    ReachableInv(w, s);
    WorkerParts(w, s);
    QueueParts(w, s);
    StartIdentity(w, s, s.worker.key);
    StartFits(s.server, s.queue.node, req, d.newId);
  }

  /** Every run under the key of a waiting job is the run its start request asks for. */
  ghost predicate RunsMatchRequest(s: Server, node: string, req: StartRequest) {
    && req.node == node && (forall id :: RunHasKey(s, id, req.executionKey) ==>
         s.runs[id].node == node && s.runs[id].taskId == req.taskId && s.runs[id].trigger == req.trigger
         && s.runs[id].scheduledFor == req.scheduledFor)
    && (!req.trigger.Scheduled? ==> exists id :: RunHasKey(s, id, req.executionKey))
  }

  lemma StartIdentity(w: World, s: Sys, key: string)
    requires JobsOk(w, s.queue) && JobsMatch(w, s.queue, s.server, s.begun) && key in s.queue.jobs
    ensures RunsMatchRequest(s.server, s.queue.node, s.queue.jobs[key].start.request)
  {
    hide FilesOk, RequestsOk, ReferencesOk, RawFilesBound, ProgressOk, StageOk, FilesBound, ReportGood, IsOperatorKey,
      SlotOk, TargetsReferenced;
    assert JobOk(w.workDir, s.queue.node, key, s.queue.jobs[key]);
    assert JobMatches(w, s.queue.node, s.server, s.begun, key, s.queue.jobs[key]);
  }

  lemma StartFits(s: Server, node: string, req: StartRequest, newId: string)
    requires RunsMatchRequest(s, node, req)
    ensures var reply := ControlPlane.Start(s, req, newId).1; reply.Refused? ==> !Disagreement(reply.reason)
  {
    hide Calendar.IsRfc3339Utc;
  }

  // ---- evidence and ownership ----

  /** Every stored record came out of parsing the archive that its raw file is stored under, and belongs to the run of
      that raw file, whichever files failed to reach the manifest. */
  lemma RecordsComeFromTheirArchive(w: World, s: Sys, i: nat)
    requires Reachable(w, s) && i < |s.server.records|
    ensures var row := s.server.records[i];
            && Evidence(w, s.server.rawFiles, row.rawFileId, row.record)
            && s.server.rawFiles[row.rawFileId].runId == row.runId
  {
    hide Reachable, Inv, ServerOk, RunsOk, NetOk, ReceiptsFromNet, CandidatesOk, ProcessedOk;
    ReachableInv(w, s);
    EvidencePart(w, s);
    ServerParts(w, s);
    RecordRun(s.server, i);
  }

  lemma RecordRun(s: Server, i: nat)
    requires ServerOk(s) && i < |s.records|
    ensures s.records[i].rawFileId in s.rawFiles && s.rawFiles[s.records[i].rawFileId].runId == s.records[i].runId
  {
    hide RunOk, ReceiptOk, OneReportPerRun, KeysUnique, OnePendingPerTask, RawFilesOk;
  }

  /** Files are owned: no two pending jobs of a task share a fingerprint, the queue stays within its capacity, and a
      fingerprint is processed only once the report of its run was committed. */
  lemma FilesAreOwned(w: World, s: Sys)
    requires Reachable(w, s)
    ensures forall a, b, taskId, fp :: Holds(s.queue.jobs, a, taskId, fp) && Holds(s.queue.jobs, b, taskId, fp) ==> a == b
    ensures |s.queue.jobs| <= s.queue.maxJobs
    ensures forall i :: 0 <= i < |s.queue.processed| ==> Reported(s.server, s.queue.processed[i].executionKey)
  {
    hide Reachable, JobsOk, JobsMatch, KeysClean, ServerOk, RunsOk, RecordsEvidenced, ReceiptsFromNet, NetOk,
      CandidatesOk, WorkerOk, Holds, Reported;
    ReachableInv(w, s);
  }

  // ---- nothing is lost ----

  /** In every reachable state and for every job: a file has an error exactly when it is in the persisted list, which
      names each path once; and a report that says succeeded has every selected file archived, acknowledged and parsed
      without an error, with nothing in the list. */
  lemma NoFailureIsLost(w: World, s: Sys, key: string)
    requires Reachable(w, s) && key in s.queue.jobs
    ensures var job := s.queue.jobs[key];
            && UniquePaths(PersistedFailures(job))
            && (forall i :: 0 <= i < |job.files| ==>
                  (job.files[i].errorDetail != "" <==> ListedPath(PersistedFailures(job), job.files[i].sourcePath)))
            && (job.report.Some? ==> ReportTrue(w, job, job.report.value.request))
  {
    hide Reachable, Inv, JobMatches, LiveClean, StageOk, ProgressOk, FilesBound, JobRunOk, ReportFits;
    ReachableInv(w, s);
    RowsOk(w, s, key);
    RowParts(w, s, key, s.queue.jobs[key]);
    RowReport(w, s, key, s.queue.jobs[key]);
  }

  lemma RowReport(w: World, s: Sys, key: string, job: JobRow)
    requires JobMatches(w, s.queue.node, s.server, s.begun, key, job)
    ensures job.report.Some? ==> ReportFits(w, s.server, job.report.value.request) && ReportTrue(w, job, job.report.value.request)
  {
    hide FilesBound, JobRunOk, ReportFits, ReportTrue;
  }

  /** Agent and server agree on failure lists: whatever report is saved, through any crashes and on the collection
      failure path, its list is valid for the fixed retry snapshot of its run, now and when it is handled. */
  lemma SavedListIsValid(w: World, s: Sys, key: string)
    requires Reachable(w, s) && key in s.queue.jobs && s.queue.jobs[key].report.Some?
    ensures var r := s.queue.jobs[key].report.value.request;
            && r.runId in s.server.runs && r.failedFiles.Some?
            && FailedFilesValid(s.server.rawFiles, r.runId, s.server.runs[r.runId].retryFiles, r.status, r.failedFiles.value)
  {
    hide Reachable, Inv, JobMatches, LiveClean, StageOk, ProgressOk, FilesOk, FailedFilesValid, RecordStorable,
      Evidence;
    ReachableInv(w, s);
    RowsOk(w, s, key);
    RowParts(w, s, key, s.queue.jobs[key]);
    RowReport(w, s, key, s.queue.jobs[key]);
  }

  /** Whatever success the worker is answered, the transaction that acts on it is never refused by the queue. */
  lemma AnswerIsTakenUp(w: World, s: Sys)
    requires Reachable(w, s) && s.worker.Call? && s.worker.reply.Some?
    ensures var key := s.worker.key;
            match s.worker.reply.value
            case Started(answer) =>
              && (answer.status.Running? ==> QueueModel.AcceptStart(s.queue, key, answer.runId).Some?)
              && (Terminal(answer.status) ==> QueueModel.DiscardStartPending(s.queue, key).Some?)
            case ManifestAccepted(ids, _) => QueueModel.AcceptManifest(s.queue, key, ids).Some?
            case ReportAccepted(_, _) => forall now :: QueueModel.CompleteJob(s.queue, key, now).Some?
            case ManualAccepted(_, _, _) => false
            case Refused(_) => true
  {
    hide Reachable, Inv, RowOk, Evidence, ReportCommitted, StartReplyOk, AddProcessed, TrimProcessed, BindRawFiles;
    ReachableInv(w, s);
    WorkerParts(w, s);
    var key := s.worker.key;
    var job := s.queue.jobs[key];
    RowsOk(w, s, key);
    match s.worker.reply.value
    case Started(answer) => UnstartedHasNoFiles(w, s, key, job);
    case ManifestAccepted(ids, _) => ManifestBinds(w, s, key, ids);
    case _ =>
  }

  lemma UnstartedHasNoFiles(w: World, s: Sys, key: string, job: JobRow)
    requires RowOk(w, s, key, job) && job.stage.StartPending?
    ensures job.files == []
  {
    hide FilesOk, ReferencesOk, JobMatches, LiveClean, FilesBound;
  }

  /** No two jobs have a delivery under one idempotency key, so the unique index of the queue never stands in the way. */
  lemma DeliveriesHaveOneOwner(w: World, s: Sys, a: string, b: string, kind: RequestType, idempotencyKey: string)
    requires Reachable(w, s) && Owns(s.queue, a, kind, idempotencyKey) && Owns(s.queue, b, kind, idempotencyKey)
    ensures a == b
  {
    hide Reachable, Inv, StageOk, FilesOk, LiveClean, RawFilesBound, ReferencesOk, FilesBound, ReportGood,
      ManifestKey, ReportKey, TargetsReferenced, SlotOk, RunFits;
    ReachableInv(w, s);
    RowsOk(w, s, a);
    RowsOk(w, s, b);
    DerivedKeysIdentifyRun(s.queue.node, s.queue.jobs[a].runId, s.queue.jobs[b].runId);
  }

  /** The job of a derived key is the job of its run. */
  lemma DerivedKeyHasOneJob(w: World, s: Sys, key: string, other: string)
    requires Inv(w, s) && key in s.queue.jobs && other in s.queue.jobs && s.queue.jobs[key].runId != ""
    requires || (s.queue.jobs[other].manifest.Some?
                 && s.queue.jobs[other].manifest.value.key == ManifestKey(s.queue.node, s.queue.jobs[key].runId))
             || (s.queue.jobs[other].report.Some?
                 && s.queue.jobs[other].report.value.key == ReportKey(s.queue.node, s.queue.jobs[key].runId))
    ensures other == key
  {
    hide Inv, StageOk, FilesOk, LiveClean, RawFilesBound, ReferencesOk, FilesBound, ReportGood, ManifestKey,
      ReportKey, TargetsReferenced, SlotOk, RunFits;
    RowsOk(w, s, key);
    RowsOk(w, s, other);
    DerivedKeysIdentifyRun(s.queue.node, s.queue.jobs[key].runId, s.queue.jobs[other].runId);
  }

  /** The manifest of a finished pass is always saved: no other delivery is in its way. */
  lemma ManifestIsSaved(w: World, s: Sys)
    requires Reachable(w, s) && PassDone(s)
    ensures QueueModel.SaveManifest(s.queue, s.worker.key, ManifestFor(s.queue.jobs[s.worker.key], s.worker.entries)).Some?
  {
    hide Reachable, Inv, FilesOk, LiveClean, RawFilesBound, ReferencesOk, JobMatches, ManifestKey, ReportKey;
    ReachableInv(w, s);
    WorkerParts(w, s);
    var key := s.worker.key;
    RowsOk(w, s, key);
    forall k | k in s.queue.jobs && s.queue.jobs[k].manifest.Some?
      ensures s.queue.jobs[k].manifest.value.key != ManifestKey(s.queue.node, s.queue.jobs[key].runId)
    {
      if s.queue.jobs[k].manifest.value.key == ManifestKey(s.queue.node, s.queue.jobs[key].runId) {
        DerivedKeyHasOneJob(w, s, key, k);
      }
    }
  }

  /** Whatever report a collecting or reporting job builds is always saved. */
  lemma ReportIsSaved(w: World, s: Sys, key: string, r: ReportRequest, clean: seq<bool>)
    requires Reachable(w, s) && key in s.queue.jobs && |clean| == |s.queue.jobs[key].files|
    requires s.queue.jobs[key].stage.Collecting? || s.queue.jobs[key].stage.ReportBuilding?
    requires r.key == ReportKey(s.queue.jobs[key].task.node, s.queue.jobs[key].runId)
    ensures QueueModel.SaveReport(s.queue, key, r, clean).Some?
  {
    hide Reachable, Inv, FilesOk, LiveClean, RawFilesBound, ReferencesOk, JobMatches, ManifestKey, ReportKey;
    ReachableInv(w, s);
    RowsOk(w, s, key);
    forall k | k in s.queue.jobs && s.queue.jobs[k].report.Some?
      ensures s.queue.jobs[k].report.value.key != r.key
    {
      if s.queue.jobs[k].report.value.key == r.key {
        DerivedKeyHasOneJob(w, s, key, k);
      }
    }
  }

  // ---- when a message is refused because another one came first ----

  /** A message of the network that the receipt of the manifest was written for, and that is another manifest. */
  ghost predicate ManifestCameFirst(s: Sys, key: string, m: ManifestRequest, other: ManifestRequest) {
    && ManifestMsg(key, other) in s.net && ManifestReceiptId(other) == ManifestReceiptId(m)
    && ManifestReceiptId(m) in s.server.receipts
    && s.server.receipts[ManifestReceiptId(m)].fingerprint == ManifestFingerprint(other)
    && NormalManifest(other) != NormalManifest(m)
  }

  ghost predicate ReportCameFirst(s: Sys, key: string, r: ReportRequest, other: ReportRequest) {
    && ReportMsg(key, other) in s.net && ReportReceiptId(other) == ReportReceiptId(r)
    && ReportReceiptId(r) in s.server.receipts
    && s.server.receipts[ReportReceiptId(r)].fingerprint == ReportFingerprint(other)
    && NormalReport(other) != NormalReport(r)
  }

  lemma ManifestReceiptSource(w: World, s: Sys, key: string, m: ManifestRequest) returns (first: ManifestRequest)
    requires NetOk(w, s.queue.node, s.server, s.begun, s.net) && ReceiptsFromNet(s.server, s.net)
    requires ManifestMsg(key, m) in s.net && ManifestReceiptId(m) in s.server.receipts
    ensures ManifestMsg(key, first) in s.net && ManifestReceiptId(first) == ManifestReceiptId(m)
    ensures s.server.receipts[ManifestReceiptId(m)].fingerprint == ManifestFingerprint(first)
  {
    hide NetOk, ReceiptsFromNet, ReportFits, ManifestFingerprint, ReportFingerprint, ManifestKey, ReportKey;
    MsgBegun(w, s, ManifestMsg(key, m));
    var msg := ReceiptMsg(w, s, ManifestReceiptId(m));
    DerivedKeysIdentifyRun(s.queue.node, msg.manifest.runId, m.runId);
    first := msg.manifest;
  }

  lemma ReportReceiptSource(w: World, s: Sys, key: string, r: ReportRequest) returns (first: ReportRequest)
    requires NetOk(w, s.queue.node, s.server, s.begun, s.net) && ReceiptsFromNet(s.server, s.net)
    requires ReportMsg(key, r) in s.net && ReportReceiptId(r) in s.server.receipts
    ensures ReportMsg(key, first) in s.net && ReportReceiptId(first) == ReportReceiptId(r)
    ensures s.server.receipts[ReportReceiptId(r)].fingerprint == ReportFingerprint(first)
  {
    hide NetOk, ReceiptsFromNet, ReportFits, ManifestFingerprint, ReportFingerprint, ManifestKey, ReportKey;
    MsgBegun(w, s, ReportMsg(key, r));
    var msg := ReceiptMsg(w, s, ReportReceiptId(r));
    DerivedKeysIdentifyRun(s.queue.node, msg.report.runId, r.runId);
    first := msg.report;
  }

  lemma ManifestConflictIsClaim(s: Server, m: ManifestRequest, ids: seq<string>)
    requires |ids| == |m.files| && m.key != "" && Ownership(s, m.runId, m.node).None?
    requires ManifestReceiptId(m) in s.receipts ==> s.receipts[ManifestReceiptId(m)].response.Some?
    ensures ControlPlane.AcceptManifest(s, m, ids).1 == Refused(IdempotencyConflict)
            <==> ManifestReceiptId(m) in s.receipts && s.receipts[ManifestReceiptId(m)].fingerprint != ManifestFingerprint(m)
  {
    hide ManifestFingerprint, Ownership, AddRawFiles;
  }

  lemma ReportConflictIsClaim(s: Server, r: ReportRequest, recordIds: seq<string>, qcIds: seq<string>,
                              alertIds: seq<string>, rulesUsable: bool)
    requires |recordIds| == |r.records| && r.key != "" && Ownership(s, r.runId, r.node).None? && Terminal(r.status)
    requires ReportReceiptId(r) in s.receipts ==> s.receipts[ReportReceiptId(r)].response.Some?
    requires ReportReceiptId(r) in s.receipts || !HasReport(s, r.runId)
    ensures ControlPlane.AcceptReport(s, r, recordIds, qcIds, alertIds, rulesUsable).1 == Refused(IdempotencyConflict)
            <==> ReportReceiptId(r) in s.receipts && s.receipts[ReportReceiptId(r)].fingerprint != ReportFingerprint(r)
    ensures ControlPlane.AcceptReport(s, r, recordIds, qcIds, alertIds, rulesUsable).1 != Refused(TaskRunConflict)
  {
    hide ReportFingerprint, Ownership, NewRecords, FailedFilesValid, RecordStorable, IdsPresent;
  }

  /** In every reachable state and for every key, begun once or again: a manifest is refused as conflicting if and only if
      the receipt of its run was written for a manifest that says something else. Then its slot was begun again. */
  lemma SecondManifestConflictsIff(w: World, s: Sys, key: string, m: ManifestRequest, d: Draw)
    requires Reachable(w, s) && s.queue.node != "" && ManifestMsg(key, m) in s.net
    requires FreshDraw(s.server, ManifestMsg(key, m), d)
    ensures var reply := Handled(s.server, ManifestMsg(key, m), d).1;
            && (reply == Refused(IdempotencyConflict) <==> exists other :: ManifestCameFirst(s, key, m, other))
            && (reply == Refused(IdempotencyConflict) ==> key in s.repeated)
  {
    hide Reachable, Inv, ServerOk, RunsOk, NetOk, ReceiptsFromNet, CandidatesOk, ProcessedOk, MsgOk, Ownership,
      ManifestFingerprint, NormalManifest, ControlPlane.AcceptManifest, EntriesValid;
    ReachableInv(w, s);
    ServerParts(w, s);
    MsgBegun(w, s, ManifestMsg(key, m));
    NoEmptyRun(s.server, key);
    OwnershipHolds(w, s, ManifestMsg(key, m));
    if ManifestReceiptId(m) in s.server.receipts {
      var first := ManifestReceiptSource(w, s, key, m);
      ReceiptComplete(s.server, ManifestReceiptId(m));
      ManifestFingerprintInjective(first, m);
      assert ManifestCameFirst(s, key, m, first) <==> NormalManifest(first) != NormalManifest(m);
    }
    forall other | ManifestCameFirst(s, key, m, other) ensures ManifestFingerprint(other) != ManifestFingerprint(m) {
      ManifestFingerprintInjective(other, m);
    }
    ManifestConflictIsClaim(s.server, m, d.rawIds);
    if key !in s.repeated {
      ManifestNeverConflicts(w, s, key, m, d);
    }
  }

  /** The same for reports; and no report is ever refused because another receipt reported its run. */
  lemma SecondReportConflictsIff(w: World, s: Sys, key: string, r: ReportRequest, d: Draw)
    requires Reachable(w, s) && s.queue.node != "" && ReportMsg(key, r) in s.net
    requires FreshDraw(s.server, ReportMsg(key, r), d)
    ensures var reply := Handled(s.server, ReportMsg(key, r), d).1;
            && (reply == Refused(IdempotencyConflict) <==> exists other :: ReportCameFirst(s, key, r, other))
            && (reply == Refused(IdempotencyConflict) ==> key in s.repeated)
            && reply != Refused(TaskRunConflict)
  {
    hide Reachable, Inv, ServerOk, RunsOk, NetOk, ReceiptsFromNet, CandidatesOk, ProcessedOk, Ownership, ReportFits,
      ReportFingerprint, NormalReport, ControlPlane.AcceptReport, HasReport, AllIdsPresent, ReportKey;
    ReachableInv(w, s);
    ServerParts(w, s);
    MsgBegun(w, s, ReportMsg(key, r));
    NoEmptyRun(s.server, key);
    OwnershipHolds(w, s, ReportMsg(key, r));
    OneReceiptOfRun(w, s, key, r);
    if ReportReceiptId(r) in s.server.receipts {
      var first := ReportReceiptSource(w, s, key, r);
      ReceiptComplete(s.server, ReportReceiptId(r));
      ReportFingerprintInjective(first, r);
      assert ReportCameFirst(s, key, r, first) <==> NormalReport(first) != NormalReport(r);
    }
    forall other | ReportCameFirst(s, key, r, other) ensures ReportFingerprint(other) != ReportFingerprint(r) {
      ReportFingerprintInjective(other, r);
    }
    ReportConflictIsClaim(s.server, r, d.recordIds, d.qcIds, d.alertIds, d.rulesUsable);
    if key !in s.repeated {
      ReportNeverConflicts(w, s, key, r, d);
    }
  }

  lemma OneReceiptOfRun(w: World, s: Sys, key: string, r: ReportRequest)
    requires NetOk(w, s.queue.node, s.server, s.begun, s.net) && ReceiptsFromNet(s.server, s.net)
    requires ReportMsg(key, r) in s.net
    ensures ReportReceiptId(r) in s.server.receipts || !HasReport(s.server, r.runId)
  {
    hide NetOk, ReceiptsFromNet, ReportFits, ReportKey, ManifestKey;
    MsgBegun(w, s, ReportMsg(key, r));
    forall other | ReportReceiptOf(s.server, other, r.runId) ensures other == ReportReceiptId(r) {
      ReceiptKeyFromNet(w, s, other);
    }
  }
}
