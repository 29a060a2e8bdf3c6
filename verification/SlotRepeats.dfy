/** What goes wrong when a slot is dispatched again after its job has gone: runs of the whole system, step by step, that end
    with the manifest or the report of the second job refused. */
module SlotRepeats {
  import opened Messages
  import opened Calendar
  import opened Fingerprint
  import opened ArchivePaths
  import opened QueueModel
  import opened Planning
  import opened Reporting
  import opened ControlPlane
  import opened ServerInvariant
  import opened JobInvariant
  import opened Protocol
  import opened ProtocolInvariant
  import opened DeliverySteps
  import opened ProtocolTheorems

  /** A slot of a task, when it is started, and the id its run gets. */
  datatype Dispatch = Dispatch(task: TaskConfig, slot: string, startedAt: string, runId: string)

  predicate Proper(d: Dispatch) {
    && d.task.node != "" && d.task.id != "" && IsRfc3339Utc(d.slot) && IsRfc3339Utc(d.startedAt)
    && d.runId != "" && PlanAllowed(d.task.id, d.runId, 1)
  }

  function Key(d: Dispatch): string { ScheduledExecutionKey(d.task.node, d.task.id, d.slot) }

  function Request(d: Dispatch): StartRequest {
    StartRequest(d.task.node, d.task.id, Key(d), d.slot, d.startedAt, Scheduled)
  }

  predicate Found(x: Listing) { x.inspection.Readable? && x.inspection.metadata.sizeBytes >= 0 && x.originalName != "" }

  // ---- the job, stage by stage ----

  function PlannedFile(w: World, d: Dispatch, x: Listing): FileRow
    requires Found(x)
  {
    var m := x.inspection.metadata;
    PlannedRow(Site(w.workDir, d.task.id, d.runId), 0, x.localPath, x.originalName, m,
               TaskFingerprint(d.task.id, x.localPath, m), "")
  }

  function BegunJob(d: Dispatch): JobRow { NewJob(d.task, Request(d), []) }

  function StartedJob(d: Dispatch): JobRow { BegunJob(d).(runId := d.runId, stage := Collecting) }

  function PlannedJob(w: World, d: Dispatch, x: Listing): JobRow
    requires Found(x)
  {
    StartedJob(d).(files := [PlannedFile(w, d, x)], failures := Some([]))
  }

  function ArchivedJob(w: World, d: Dispatch, x: Listing): JobRow
    requires Found(x)
  {
    PlannedJob(w, d, x).(files := [PlannedFile(w, d, x).(archived := true)])
  }

  function ManifestOf(w: World, d: Dispatch, x: Listing): ManifestRequest
    requires Found(x)
  {
    ManifestRequest(d.runId, d.task.node, ManifestKey(d.task.node, d.runId), [EntryOf(PlannedFile(w, d, x))])
  }

  function ManifestJob(w: World, d: Dispatch, x: Listing): JobRow
    requires Found(x)
  {
    var m := ManifestOf(w, d, x);
    ArchivedJob(w, d, x).(manifest := Some(Delivery(m.key, m, 0)), stage := ManifestPending)
  }

  function BoundJob(w: World, d: Dispatch, x: Listing, rawId: string): JobRow
    requires Found(x)
  {
    ManifestJob(w, d, x).(files := [PlannedFile(w, d, x).(archived := true, rawFileId := rawId)], stage := ReportBuilding)
  }

  /** The report of an archive that cannot be read again. */
  function UnreadableReport(w: World, d: Dispatch, x: Listing, rawId: string, finishedAt: string): ReportRequest
    requires Found(x)
  {
    var message := "unreadable";
    ReportRequest(d.runId, d.task.node, ReportKey(d.task.node, d.runId), Failed, finishedAt, 1, 0, 1,
                  SummaryText([x.originalName + ": " + message]), [],
                  Some([FailedFile(x.localPath, x.originalName, "parse", message, rawId)]))
  }

  function ReportedJob(w: World, d: Dispatch, x: Listing, rawId: string, finishedAt: string): JobRow
    requires Found(x)
  {
    var r := UnreadableReport(w, d, x, rawId, finishedAt);
    BoundJob(w, d, x, rawId).(report := Some(Delivery(r.key, r, 0)), stage := ReportPending)
  }

  // ---- steps ----

  lemma Follow(w: World, s: Sys, step: Step, t: Sys)
    requires Reachable(w, s) && Takes(w, s, step, t)
    ensures Reachable(w, t)
  {
    hide GoodWorld, Init, Takes;
    var trace, i: nat :| i < |trace| && Behaviour(w, trace) && trace[i] == s;
    var longer := trace[..i + 1] + [t];
    assert Next(w, s, t);
    forall k | 0 <= k < |longer| - 1 ensures Next(w, longer[k], longer[k + 1]) {
      if k < i {
        assert Next(w, trace[k], trace[k + 1]);
      }
    }
    assert longer[i + 1] == t;
  }

  /** The queue holds the job of the dispatch, nothing else, and no processed file. */
  ghost predicate Alone(s: Sys, d: Dispatch, job: JobRow) {
    && s.queue.node == d.task.node && s.queue.processed == [] && s.queue.maxJobs >= 1
    && s.queue.jobs == map[Key(d) := job]
  }

  ghost predicate Empty(s: Sys, d: Dispatch) {
    && s.worker.Idle? && s.queue.node == d.task.node && s.queue.processed == [] && s.queue.maxJobs >= 1
    && s.queue.jobs == map[]
  }

  function WithJob(s: Sys, d: Dispatch, job: JobRow): Sys { s.(queue := s.queue.(jobs := map[Key(d) := job])) }

  lemma Replaced(s: Sys, d: Dispatch, a: JobRow, b: JobRow)
    requires Alone(s, d, a)
    ensures s.queue.jobs[Key(d) := b] == map[Key(d) := b] && Alone(WithJob(s, d, b), d, b)
  {
  }

  lemma BeginSlot(w: World, s: Sys, d: Dispatch) returns (t: Sys)
    requires Reachable(w, s) && Empty(s, d) && Proper(d)
    ensures Reachable(w, t) && Alone(t, d, BegunJob(d)) && t.worker.Idle? && t.net == s.net && t.server == s.server
    ensures t.begun == s.begun + {Key(d)} && (Key(d) in s.begun ==> Key(d) in t.repeated)
    ensures Key(d) !in s.begun ==> t.repeated == s.repeated
  {
    hide Reachable, IsRfc3339Utc, PlanAllowed, ScheduledExecutionKey;
    t := WithJob(s, d, BegunJob(d)).(begun := s.begun + {Key(d)},
                                     repeated := if Key(d) in s.begun then s.repeated + {Key(d)} else s.repeated);
    assert s.queue.jobs[Key(d) := BegunJob(d)] == map[Key(d) := BegunJob(d)];
    Follow(w, s, BeginScheduledStep(d.task, d.slot, d.startedAt), t);
  }

  lemma Dispatched(w: World, s: Sys, d: Dispatch, job: JobRow, msg: Msg) returns (t: Sys)
    requires Reachable(w, s) && Alone(s, d, job) && s.worker.Idle? && MsgOf(Key(d), job) == Some(msg)
    ensures Reachable(w, t) && Alone(t, d, job) && t == s.(net := s.net + {msg}, worker := Call(Key(d), msg, None))
  {
    hide Reachable, MsgOf;
    t := s.(net := s.net + {msg}, worker := Call(Key(d), msg, None));
    Follow(w, s, SendStep(Key(d)), t);
  }

  lemma Answered(w: World, s: Sys, d: Dispatch, job: JobRow, msg: Msg, draw: Draw) returns (t: Sys)
    requires Reachable(w, s) && Alone(s, d, job) && s.worker == Call(Key(d), msg, None) && msg in s.net
    requires FreshDraw(s.server, msg, draw)
    ensures var (server, reply) := Handled(s.server, msg, draw);
            && Reachable(w, t) && Alone(t, d, job)
            && t == s.(server := server, worker := Call(Key(d), msg, Some(reply)))
  {
    hide Reachable, FreshDraw, Handled;
    var (server, reply) := Handled(s.server, msg, draw);
    t := s.(server := server, worker := Call(Key(d), msg, Some(reply)));
    Follow(w, s, HandleStep(msg, draw, true), t);
  }

  lemma TakeRun(w: World, s: Sys, d: Dispatch, replayed: bool) returns (t: Sys)
    requires Reachable(w, s) && Alone(s, d, BegunJob(d)) && s.worker.Call? && s.worker.key == Key(d)
    requires s.worker.reply == Some(Started(StartAnswer(d.runId, replayed, Running)))
    ensures Reachable(w, t) && t == WithJob(s, d, StartedJob(d)).(worker := Idle) && Alone(t, d, StartedJob(d))
  {
    hide Reachable, ScheduledExecutionKey;
    Replaced(s, d, BegunJob(d), StartedJob(d));
    t := WithJob(s, d, StartedJob(d)).(worker := Idle);
    Follow(w, s, AcceptStartStep(Key(d), StartAnswer(d.runId, replayed, Running)), t);
  }

  lemma PlannedAlone(w: World, s: Sys, d: Dispatch, x: Listing)
    requires Alone(s, d, StartedJob(d)) && Proper(d) && Found(x)
    ensures DirectoryDraft(s.queue, SiteOf(w.workDir, StartedJob(d)), 1, [x], 1) == Some(Draft([PlannedFile(w, d, x)], []))
    ensures PlanAccepted(StartedJob(d), [PlannedFile(w, d, x)])
  {
    hide IsRfc3339Utc, PlanAllowed, ScheduledExecutionKey, TaskFingerprint, PlanArchivePath;
    assert !Occupied(s.queue, d.task.id, TaskFingerprint(d.task.id, x.localPath, x.inspection.metadata));
    var site := SiteOf(w.workDir, StartedJob(d));
    assert DirectoryDraft(s.queue, site, 1, [x], 0) == Some(Draft([], []));
    assert [] + [PlannedFile(w, d, x)] == [PlannedFile(w, d, x)];
    assert DirectoryStep(s.queue, site, 1, Draft([], []), x) == Some(Draft([PlannedFile(w, d, x)], []));
  }

  lemma Plan(w: World, s: Sys, d: Dispatch, x: Listing) returns (t: Sys)
    requires Reachable(w, s) && Alone(s, d, StartedJob(d)) && s.worker.Idle? && Proper(d) && Found(x)
    ensures Reachable(w, t) && t == WithJob(s, d, PlannedJob(w, d, x)) && Alone(t, d, PlannedJob(w, d, x))
  {
    hide Reachable, ScheduledExecutionKey, PlannedFile, DirectoryDraft, PlanAccepted, IsRfc3339Utc, PlanAllowed;
    Replaced(s, d, StartedJob(d), PlannedJob(w, d, x));
    PlannedAlone(w, s, d, x);
    t := WithJob(s, d, PlannedJob(w, d, x));
    assert [] + [PlannedFile(w, d, x)] == [PlannedFile(w, d, x)];
    Follow(w, s, PlanDirectoryStep(Key(d), 1, [x]), t);
  }

  lemma ArchiveAll(w: World, s: Sys, d: Dispatch, x: Listing) returns (t: Sys)
    requires Reachable(w, s) && Found(x) && Alone(s, d, PlannedJob(w, d, x)) && s.worker.Idle?
    ensures Reachable(w, t) && Alone(t, d, ArchivedJob(w, d, x))
    ensures t == WithJob(s, d, ArchivedJob(w, d, x)).(worker := Pass(Key(d), 1, [EntryOf(PlannedFile(w, d, x))], []))
  {
    hide Reachable, ScheduledExecutionKey, TaskFingerprint, PlanArchivePath;
    var job := PlannedJob(w, d, x);
    Replaced(s, d, job, ArchivedJob(w, d, x));
    assert Amended(job, 0) == [] && Amended(job, 1) == [];
    var u := s.(worker := Pass(Key(d), 0, [], []));
    Follow(w, s, PassStartStep(Key(d)), u);
    t := WithJob(s, d, ArchivedJob(w, d, x)).(worker := Pass(Key(d), 1, [EntryOf(PlannedFile(w, d, x))], []));
    assert job.files[0].ordinal == 0;
    assert HasOrdinal(job.files, 0);
    assert WithArchived(job.files, 0) == ArchivedJob(w, d, x).files;
    assert u.worker.entries + [EntryOf(job.files[0])] == [EntryOf(PlannedFile(w, d, x))];
    Follow(w, u, PassArchivedStep, t);
  }

  lemma ListArchived(w: World, s: Sys, d: Dispatch, x: Listing) returns (t: Sys)
    requires Reachable(w, s) && Found(x) && Alone(s, d, ArchivedJob(w, d, x))
    requires s.worker == Pass(Key(d), 1, [EntryOf(PlannedFile(w, d, x))], [])
    ensures Reachable(w, t) && t == WithJob(s, d, ManifestJob(w, d, x)).(worker := Idle) && Alone(t, d, ManifestJob(w, d, x))
  {
    hide Reachable, ScheduledExecutionKey, PlannedFile, ManifestKey;
    Replaced(s, d, ArchivedJob(w, d, x), ManifestJob(w, d, x));
    t := WithJob(s, d, ManifestJob(w, d, x)).(worker := Idle);
    Follow(w, s, SaveManifestStep, t);
  }

  /** From the dispatch of the slot to the manifest waiting to be sent. */
  lemma Collect(w: World, s: Sys, d: Dispatch, x: Listing, draw: Draw, replayed: bool) returns (t: Sys)
    requires Reachable(w, s) && Empty(s, d) && Proper(d) && Found(x) && draw.newId != "" && draw.newId !in s.server.runs
    requires ControlPlane.Start(s.server, Request(d), draw.newId).1 == Started(StartAnswer(d.runId, replayed, Running))
    ensures Reachable(w, t) && Alone(t, d, ManifestJob(w, d, x)) && t.worker.Idle? && s.net <= t.net
    ensures t.server == ControlPlane.Start(s.server, Request(d), draw.newId).0
    ensures t.begun == s.begun + {Key(d)} && (Key(d) in s.begun ==> Key(d) in t.repeated)
    ensures Key(d) !in s.begun ==> t.repeated == s.repeated
  {
    hide Reachable, Alone, Proper, ScheduledExecutionKey, ControlPlane.Start, ArchivedJob, PlannedJob, StartedJob,
      ManifestJob, PlannedFile;
    t := BeginSlot(w, s, d);
    t := Dispatched(w, t, d, BegunJob(d), StartMsg(Key(d), Request(d)));
    t := Answered(w, t, d, BegunJob(d), StartMsg(Key(d), Request(d)), draw);
    t := TakeRun(w, t, d, replayed);
    t := Plan(w, t, d, x);
    t := ArchiveAll(w, t, d, x);
    t := ListArchived(w, t, d, x);
  }

  lemma BoundAlone(w: World, d: Dispatch, x: Listing, rawId: string)
    requires Found(x)
    ensures BindRawFiles(ManifestJob(w, d, x).files, ManifestOf(w, d, x).files, [rawId], 1)
            == Some(BoundJob(w, d, x, rawId).files)
  {
    hide TaskFingerprint, PlanArchivePath, ScheduledExecutionKey, ManifestKey;
    var files, path := ManifestJob(w, d, x).files, ManifestOf(w, d, x).files[0].storagePath;
    assert MatchingRows(files, path) == {0};
    assert WithRawFile(files, path, rawId) == BoundJob(w, d, x, rawId).files;
    assert BindRawFiles(files, ManifestOf(w, d, x).files, [rawId], 0) == Some(files);
  }

  lemma TakeIds(w: World, s: Sys, d: Dispatch, x: Listing, rawId: string, replayed: bool) returns (t: Sys)
    requires Reachable(w, s) && Found(x) && Alone(s, d, ManifestJob(w, d, x)) && s.worker.Call? && s.worker.key == Key(d)
    requires s.worker.reply == Some(ManifestAccepted([rawId], replayed))
    ensures Reachable(w, t) && t == WithJob(s, d, BoundJob(w, d, x, rawId)).(worker := Idle)
    ensures Alone(t, d, BoundJob(w, d, x, rawId))
  {
    hide Reachable, ScheduledExecutionKey, PlannedFile, ManifestKey, BindRawFiles;
    Replaced(s, d, ManifestJob(w, d, x), BoundJob(w, d, x, rawId));
    BoundAlone(w, d, x, rawId);
    t := WithJob(s, d, BoundJob(w, d, x, rawId)).(worker := Idle);
    Follow(w, s, BindManifestStep(Key(d), [rawId], replayed), t);
  }

  function NotReadable(w: World, d: Dispatch, x: Listing): map<string, string>
    requires Found(x)
  {
    map[PlannedFile(w, d, x).archivePath := "unreadable"]
  }

  lemma UnreadableTally(w: World, d: Dispatch, x: Listing, rawId: string, finishedAt: string)
    requires Found(x) && rawId != ""
    ensures var tally := JobTally(BoundJob(w, d, x, rawId), Reading(w, NotReadable(w, d, x)), w.check);
            && tally.clean == [false]
            && ReportOf(BoundJob(w, d, x, rawId), tally, finishedAt) == UnreadableReport(w, d, x, rawId, finishedAt)
  {
    hide TaskFingerprint, PlanArchivePath, ScheduledExecutionKey, ManifestKey, ReportKey, SummaryText;
    var job, parse := BoundJob(w, d, x, rawId), Reading(w, NotReadable(w, d, x));
    assert parse(job.files[0].archivePath) == ParseFailed("unreadable");
    assert TallyFiles(job.files, [], parse, job.task.qcRules, w.check, 0) == Tally(0, 0, 0, [], [], [], []);
    var file := job.files[0];
    assert [] + [false] == [false];
    assert [] + [file.originalName + ": " + "unreadable"] == [file.originalName + ": " + "unreadable"];
    assert [] + [ParseFailure(file, "unreadable")] == [ParseFailure(file, "unreadable")];
    assert JobTally(job, parse, w.check)
        == Tally(1, 0, 1, [file.originalName + ": " + "unreadable"], [ParseFailure(file, "unreadable")], [false], []);
  }

  lemma BuildReportOf(w: World, s: Sys, d: Dispatch, x: Listing, rawId: string, finishedAt: string) returns (t: Sys)
    requires Reachable(w, s) && Found(x) && rawId != "" && Alone(s, d, BoundJob(w, d, x, rawId)) && s.worker.Idle?
    ensures var job := ReportedJob(w, d, x, rawId, finishedAt);
            Reachable(w, t) && t == WithJob(s, d, job) && Alone(t, d, job)
  {
    hide Reachable, ScheduledExecutionKey, TaskFingerprint, PlanArchivePath, ManifestKey, ReportKey, JobTally, ReportOf,
      UnreadableReport, Reading;
    var job := ReportedJob(w, d, x, rawId, finishedAt);
    Replaced(s, d, BoundJob(w, d, x, rawId), job);
    UnreadableTally(w, d, x, rawId, finishedAt);
    t := WithJob(s, d, job);
    assert WithOutcomes(BoundJob(w, d, x, rawId).files, [false]) == job.files;
    Follow(w, s, SaveReportStep(Key(d), NotReadable(w, d, x), finishedAt), t);
  }

  lemma Close(w: World, s: Sys, d: Dispatch, x: Listing, rawId: string, finishedAt: string, response: Response,
              replayed: bool) returns (t: Sys)
    requires Reachable(w, s) && Found(x) && Alone(s, d, ReportedJob(w, d, x, rawId, finishedAt))
    requires s.worker.Call? && s.worker.key == Key(d) && s.worker.reply == Some(ReportAccepted(response, replayed))
    ensures Reachable(w, t) && Empty(t, d) && t == s.(queue := s.queue.(jobs := map[]), worker := Idle)
  {
    hide Reachable, ScheduledExecutionKey, TaskFingerprint, PlanArchivePath, ManifestKey, ReportKey, UnreadableReport;
    var job := ReportedJob(w, d, x, rawId, finishedAt);
    assert s.queue.jobs - {Key(d)} == map[];
    assert job.files[..0] == [];
    assert AddProcessed([], d.task.id, Key(d), 0, job.files) == [];
    t := s.(queue := s.queue.(jobs := map[]), worker := Idle);
    Follow(w, s, CompleteStep(Key(d), response, replayed, 0), t);
  }

  // ---- what the control plane holds ----

  ghost predicate Runs(s: Server, d: Dispatch) {
    && d.task.id in s.tasks && s.tasks[d.task.id] == TaskRow(d.task.node, true) && s.runs.Keys == {d.runId}
    && var run := s.runs[d.runId];
       run.executionKey == Key(d) && run.taskId == d.task.id && run.node == d.task.node && run.scheduledFor == d.slot
  }

  ghost predicate Acknowledged(s: Server, m: ManifestRequest, rawId: string) {
    && s.rawFiles.Keys == {rawId}
    && ManifestReceiptId(m) in s.receipts
    && s.receipts[ManifestReceiptId(m)] == Receipt(m.runId, ManifestFingerprint(m), Some(ManifestResponse([rawId])))
  }

  ghost predicate ReportedAs(s: Server, r: ReportRequest) {
    ReportReceiptId(r) in s.receipts && s.receipts[ReportReceiptId(r)].fingerprint == ReportFingerprint(r)
  }

  lemma NothingIsEmpty(w: World, d: Dispatch, x: Listing)
    requires Found(x)
    ensures Key(d) != "" && ManifestKey(d.task.node, d.runId) != "" && PlannedFile(w, d, x).archivePath != ""
  {
    hide RunDirectory, ArchiveFilename;
    assert Key(d)[0] == '#' && ManifestKey(d.task.node, d.runId)[0] == '#';
    assert PlannedFile(w, d, x).archivePath
        == RunDirectory(w.workDir, d.task.id, d.runId) + "/" + ArchiveFilename(1, x.originalName);
  }

  lemma FirstStart(s: Server, d: Dispatch)
    requires Proper(d) && Key(d) != "" && s.runs == map[]
    requires d.task.id in s.tasks && s.tasks[d.task.id] == TaskRow(d.task.node, true)
    ensures var (t, reply) := ControlPlane.Start(s, Request(d), d.runId);
            && reply == Started(StartAnswer(d.runId, false, Running)) && Runs(t, d)
            && t.receipts == s.receipts && t.rawFiles == s.rawFiles
  {
    hide IsRfc3339Utc, PlanAllowed, ScheduledExecutionKey;
    assert forall id :: !RunHasKey(s, id, Key(d));
    assert FindByExecutionKey(s, Key(d)).None?;
  }

  /** A slot begun again is answered with its run, running, though the run is over. */
  lemma StartAgain(w: World, s: Sys, d: Dispatch, newId: string)
    requires Reachable(w, s) && Proper(d) && Key(d) != "" && Runs(s.server, d)
    ensures ControlPlane.Start(s.server, Request(d), newId) == (s.server, Started(StartAnswer(d.runId, true, Running)))
  {
    hide Reachable, Inv, ServerOk, IsRfc3339Utc, PlanAllowed, ScheduledExecutionKey;
    ReachableInv(w, s);
    ServerParts(w, s);
    assert RunHasKey(s.server, d.runId, Key(d));
    OneRunPerKey(s.server, Key(d));
  }

  lemma FirstManifest(w: World, s: Server, d: Dispatch, x: Listing, rawId: string)
    requires Proper(d) && Found(x) && Runs(s, d) && s.receipts == map[] && s.rawFiles == map[]
    ensures var m := ManifestOf(w, d, x);
            var (t, reply) := ControlPlane.AcceptManifest(s, m, [rawId]);
            reply == ManifestAccepted([rawId], false) && Runs(t, d) && Acknowledged(t, m, rawId)
  {
    hide IsRfc3339Utc, PlanAllowed, ScheduledExecutionKey, ManifestFingerprint, PlanArchivePath, TaskFingerprint;
    NothingIsEmpty(w, d, x);
    var m := ManifestOf(w, d, x);
    assert EntryValid(m.files[0]);
    assert AddRawFiles(s.rawFiles, m, [rawId], 0) == map[];
    assert AddRawFiles(s.rawFiles, m, [rawId], 1) == map[rawId := RawFileOf(m, m.files[0])];
  }

  lemma ReportLeaves(s: Server, d: Dispatch, r: ReportRequest, m: ManifestRequest, rawId: string)
    requires Runs(s, d) && Acknowledged(s, m, rawId) && r.records == [] && r.runId == d.runId
    requires ControlPlane.AcceptReport(s, r, [], [], [], true).1.ReportAccepted?
    ensures var t := ControlPlane.AcceptReport(s, r, [], [], [], true).0;
            Runs(t, d) && Acknowledged(t, m, rawId) && ReportedAs(t, r)
  {
    hide ScheduledExecutionKey, ManifestFingerprint, ReportFingerprint, ReportRefusal, Ownership, NewRecords;
  }

  // ---- the first dispatch ----

  function StartDraw(newId: string): Draw { Draw(newId, [], [], [], [], true) }

  function ManifestDraw(rawId: string): Draw { Draw("", [rawId], [], [], [], true) }

  function ReportDraw(): Draw { Draw("", [], [], [], [], true) }

  function Beginning(d: Dispatch): Sys {
    Sys(Queue(d.task.node, 1, 1, map[], []), Server(map[d.task.id := TaskRow(d.task.node, true)], map[], map[], [], map[]),
        {}, Idle, {}, {}, {})
  }

  lemma BeginningIsReachable(w: World, d: Dispatch)
    requires GoodWorld(w)
    ensures Reachable(w, Beginning(d)) && Empty(Beginning(d), d)
  {
    hide GoodWorld;
    var trace := [Beginning(d)];
    assert Behaviour(w, trace) && trace[0] == Beginning(d);
  }

  /** From the manifest waiting to be sent to the report sent, when the ids of the manifest are answered and the archive
      cannot be read. */
  lemma SendBoth(w: World, s: Sys, d: Dispatch, x: Listing, rawId: string, draw: Draw, replayed: bool,
                 finishedAt: string) returns (t: Sys)
    requires Reachable(w, s) && Found(x) && rawId != "" && Alone(s, d, ManifestJob(w, d, x)) && s.worker.Idle?
    requires FreshDraw(s.server, ManifestMsg(Key(d), ManifestOf(w, d, x)), draw)
    requires ControlPlane.AcceptManifest(s.server, ManifestOf(w, d, x), draw.rawIds).1 == ManifestAccepted([rawId], replayed)
    ensures var r := UnreadableReport(w, d, x, rawId, finishedAt);
            && Reachable(w, t) && Alone(t, d, ReportedJob(w, d, x, rawId, finishedAt))
            && t.worker == Call(Key(d), ReportMsg(Key(d), r), None)
            && t.net == s.net + {ManifestMsg(Key(d), ManifestOf(w, d, x)), ReportMsg(Key(d), r)}
            && t.server == ControlPlane.AcceptManifest(s.server, ManifestOf(w, d, x), draw.rawIds).0
            && t.begun == s.begun && t.repeated == s.repeated && t.queue.node == d.task.node
  {
    hide Reachable, Alone, ScheduledExecutionKey, ControlPlane.AcceptManifest, PlannedFile, UnreadableReport, ManifestKey,
      FreshRawFileIds;
    var m, r := ManifestOf(w, d, x), UnreadableReport(w, d, x, rawId, finishedAt);
    t := Dispatched(w, s, d, ManifestJob(w, d, x), ManifestMsg(Key(d), m));
    t := Answered(w, t, d, ManifestJob(w, d, x), ManifestMsg(Key(d), m), draw);
    t := TakeIds(w, t, d, x, rawId, replayed);
    t := BuildReportOf(w, t, d, x, rawId, finishedAt);
    t := Dispatched(w, t, d, ReportedJob(w, d, x, rawId, finishedAt), ReportMsg(Key(d), r));
    AloneNode(t, d, ReportedJob(w, d, x, rawId, finishedAt));
    assert t.net == s.net + {ManifestMsg(Key(d), m), ReportMsg(Key(d), r)};
  }

  lemma AloneNode(s: Sys, d: Dispatch, job: JobRow)
    requires Alone(s, d, job)
    ensures s.queue.node == d.task.node
  {
  }

  /** What the first dispatch leaves behind. */
  ghost predicate FirstDone(w: World, s: Sys, d: Dispatch, x: Listing, rawId: string, finishedAt: string)
    requires Found(x)
  {
    var m, r := ManifestOf(w, d, x), UnreadableReport(w, d, x, rawId, finishedAt);
    && Empty(s, d) && Key(d) in s.begun && Runs(s.server, d) && Acknowledged(s.server, m, rawId) && ReportedAs(s.server, r)
    && ManifestMsg(Key(d), m) in s.net && ReportMsg(Key(d), r) in s.net
  }

  lemma FirstRun(w: World, d: Dispatch, x: Listing, rawId: string, finishedAt: string) returns (t: Sys)
    requires GoodWorld(w) && Proper(d) && Found(x) && rawId != ""
    ensures Reachable(w, t) && FirstDone(w, t, d, x, rawId, finishedAt)
  {
    hide Reachable, GoodWorld, Alone, Proper, Found, ScheduledExecutionKey, ControlPlane.Start, ControlPlane.AcceptManifest,
      ControlPlane.AcceptReport, ManifestJob, ReportedJob, ManifestKey, ReportKey, Runs, Acknowledged, ReportedAs;
    var m, r := ManifestOf(w, d, x), UnreadableReport(w, d, x, rawId, finishedAt);
    NothingIsEmpty(w, d, x);
    BeginningIsReachable(w, d);
    t := Beginning(d);
    FirstStart(t.server, d);
    ProperRun(d);
    t := Collect(w, t, d, x, StartDraw(d.runId), false);
    FirstManifest(w, t.server, d, x, rawId);
    t := SendBoth(w, t, d, x, rawId, ManifestDraw(rawId), false, finishedAt);
    ReportNeverConflicts(w, t, Key(d), r, ReportDraw());
    ReportLeaves(t.server, d, r, m, rawId);
    t := Answered(w, t, d, ReportedJob(w, d, x, rawId, finishedAt), ReportMsg(Key(d), r), ReportDraw());
    var response, replayed := t.worker.reply.value.response, t.worker.reply.value.replayed;
    t := Close(w, t, d, x, rawId, finishedAt, response, replayed);
  }

  lemma ProperRun(d: Dispatch)
    requires Proper(d)
    ensures d.runId != "" && d.task.node != ""
  {
  }

  // ---- the second dispatch ----

  /** The slot is begun again, its run is answered running, and what is found then waits to be sent. */
  lemma SecondDispatch(w: World, s: Sys, d: Dispatch, x: Listing, y: Listing, rawId: string,
                       finishedAt: string) returns (t: Sys)
    requires Reachable(w, s) && Proper(d) && Found(x) && Found(y) && FirstDone(w, s, d, x, rawId, finishedAt)
    ensures Reachable(w, t) && Alone(t, d, ManifestJob(w, d, y)) && t.worker.Idle? && Key(d) in t.repeated
    ensures t.server == s.server && s.net <= t.net
  {
    hide Reachable, Alone, Proper, Found, ScheduledExecutionKey, ControlPlane.Start, ManifestJob, ReportedAs, Acknowledged;
    NothingIsEmpty(w, d, x);
    ProperRun(d);
    var newId := d.runId + "x";
    assert newId != d.runId;
    StartAgain(w, s, d, newId);
    t := Collect(w, s, d, y, StartDraw(newId), true);
  }

  lemma SameManifestIff(w: World, d: Dispatch, x: Listing, y: Listing)
    requires Found(x) && Found(y)
    ensures NormalManifest(ManifestOf(w, d, x)) == NormalManifest(ManifestOf(w, d, y))
            <==> x.originalName == y.originalName && x.inspection.metadata == y.inspection.metadata
  {
    hide PlanArchivePath, TaskFingerprint, ManifestKey;
    var a, b := NormalManifest(ManifestOf(w, d, x)), NormalManifest(ManifestOf(w, d, y));
    assert a.files == [EntryOf(PlannedFile(w, d, x))] && b.files == [EntryOf(PlannedFile(w, d, y))];
    assert a.files[0] == b.files[0] <==> a.files == b.files;
  }

  lemma OwnRun(s: Server, d: Dispatch)
    requires Runs(s, d) && Proper(d)
    ensures Ownership(s, d.runId, d.task.node).None?
  {
    hide IsRfc3339Utc, PlanAllowed, ScheduledExecutionKey;
  }

  lemma OtherManifestConflicts(w: World, s: Server, d: Dispatch, x: Listing, y: Listing, rawId: string, ids: seq<string>)
    requires Proper(d) && Found(x) && Found(y) && Runs(s, d) && Acknowledged(s, ManifestOf(w, d, x), rawId) && |ids| == 1
    ensures ControlPlane.AcceptManifest(s, ManifestOf(w, d, y), ids).1 == Refused(IdempotencyConflict)
            <==> x.originalName != y.originalName || x.inspection.metadata != y.inspection.metadata
  {
    hide Proper, Runs, ManifestKey, ManifestFingerprint, NormalManifest, PlannedFile, Ownership, Found,
      ControlPlane.AcceptManifest;
    NothingIsEmpty(w, d, y);
    OwnRun(s, d);
    SameManifestIff(w, d, x, y);
    ManifestFingerprintInjective(ManifestOf(w, d, x), ManifestOf(w, d, y));
    ManifestConflictIsClaim(s, ManifestOf(w, d, y), ids);
  }

  /** For every slot and whatever its two dispatches find, one file each: a run of the whole system reaches a state in which
      the slot was begun again and the manifest of the second job was sent; and every handling of it is refused as a
      conflict if and only if the second file has another name, size, time or hash than the first one. */
  lemma RebegunSlotManifest(w: World, d: Dispatch, x: Listing, y: Listing, rawId: string, finishedAt: string) returns (t: Sys)
    requires GoodWorld(w) && Proper(d) && Found(x) && Found(y) && rawId != ""
    ensures var msg := ManifestMsg(Key(d), ManifestOf(w, d, y));
            && Reachable(w, t) && Key(d) in t.repeated && t.worker == Call(Key(d), msg, None) && msg in t.net
            && forall e :: FreshDraw(t.server, msg, e) ==>
                 (Handled(t.server, msg, e).1 == Refused(IdempotencyConflict)
                  <==> x.originalName != y.originalName || x.inspection.metadata != y.inspection.metadata)
  {
    hide Reachable, GoodWorld, Alone, Proper, Empty, ScheduledExecutionKey, ReportedAs, Acknowledged, Runs,
      ControlPlane.AcceptManifest, PlannedFile, FreshRawFileIds;
    var s := FirstRun(w, d, x, rawId, finishedAt);
    t := SecondDispatch(w, s, d, x, y, rawId, finishedAt);
    var m := ManifestOf(w, d, y);
    t := Dispatched(w, t, d, ManifestJob(w, d, y), ManifestMsg(Key(d), m));
    forall e | FreshDraw(t.server, ManifestMsg(Key(d), m), e)
      ensures Handled(t.server, ManifestMsg(Key(d), m), e).1 == Refused(IdempotencyConflict)
              <==> x.originalName != y.originalName || x.inspection.metadata != y.inspection.metadata
    {
      OtherManifestConflicts(w, t.server, d, x, y, rawId, e.rawIds);
    }
  }

  lemma SameManifestReplays(w: World, s: Server, d: Dispatch, x: Listing, rawId: string, other: string)
    requires Proper(d) && Found(x) && Runs(s, d) && Acknowledged(s, ManifestOf(w, d, x), rawId)
    ensures ControlPlane.AcceptManifest(s, ManifestOf(w, d, x), [other]) == (s, ManifestAccepted([rawId], true))
  {
    hide Proper, Runs, ManifestKey, ManifestFingerprint, PlannedFile, Ownership, AddRawFiles, Found;
    NothingIsEmpty(w, d, x);
    OwnRun(s, d);
  }

  lemma OtherReportConflicts(w: World, s: Server, d: Dispatch, x: Listing, rawId: string, first: string, second: string,
                             draw: Draw)
    requires Proper(d) && Found(x) && Runs(s, d) && ReportedAs(s, UnreadableReport(w, d, x, rawId, first))
    requires s.receipts[ReportReceiptId(UnreadableReport(w, d, x, rawId, first))].response.Some? && draw.recordIds == []
    ensures ControlPlane.AcceptReport(s, UnreadableReport(w, d, x, rawId, second), draw.recordIds, draw.qcIds,
                                      draw.alertIds, draw.rulesUsable).1 == Refused(IdempotencyConflict)
            <==> first != second
  {
    hide Proper, Runs, ReportFingerprint, Ownership, Found, ControlPlane.AcceptReport, SummaryText;
    var a, b := UnreadableReport(w, d, x, rawId, first), UnreadableReport(w, d, x, rawId, second);
    assert b.key[0] == '#';
    OwnRun(s, d);
    assert NormalReport(a) == NormalReport(b) <==> first == second;
    ReportFingerprintInjective(a, b);
    ReportConflictIsClaim(s, b, draw.recordIds, draw.qcIds, draw.alertIds, draw.rulesUsable);
  }

  /** And for every slot whose second dispatch finds the same file: the manifest is replayed, and every handling of the second
      report is refused as a conflict if and only if the second job finished at another time than the first one. */
  lemma RebegunSlotReport(w: World, d: Dispatch, x: Listing, rawId: string, first: string, second: string) returns (t: Sys)
    requires GoodWorld(w) && Proper(d) && Found(x) && rawId != ""
    ensures var msg := ReportMsg(Key(d), UnreadableReport(w, d, x, rawId, second));
            && Reachable(w, t) && Key(d) in t.repeated && t.worker == Call(Key(d), msg, None) && msg in t.net
            && forall e :: FreshDraw(t.server, msg, e) ==>
                 (Handled(t.server, msg, e).1 == Refused(IdempotencyConflict) <==> first != second)
  {
    hide Reachable, GoodWorld, Alone, Proper, Found, Empty, ScheduledExecutionKey, ManifestJob, ReportedAs, Runs,
      ControlPlane.AcceptManifest, ControlPlane.AcceptReport, PlannedFile, ReportedJob, ManifestKey, ReportKey;
    var s := FirstRun(w, d, x, rawId, first);
    t := SecondDispatch(w, s, d, x, x, rawId, first);
    var other := rawId + "x";
    assert other != rawId;
    SameManifestReplays(w, t.server, d, x, rawId, other);
    t := SendBoth(w, t, d, x, rawId, ManifestDraw(other), true, second);
    CompleteReceipts(w, t, UnreadableReport(w, d, x, rawId, first));
    var msg := ReportMsg(Key(d), UnreadableReport(w, d, x, rawId, second));
    forall e | FreshDraw(t.server, msg, e)
      ensures Handled(t.server, msg, e).1 == Refused(IdempotencyConflict) <==> first != second
    {
      OtherReportConflicts(w, t.server, d, x, rawId, first, second, e);
    }
  }

  lemma CompleteReceipts(w: World, s: Sys, r: ReportRequest)
    requires Reachable(w, s) && ReportedAs(s.server, r)
    ensures ReportReceiptId(r) in s.server.receipts && s.server.receipts[ReportReceiptId(r)].response.Some?
  {
    hide Reachable, Inv, ServerOk, ReportFingerprint;
    ReachableInv(w, s);
    ServerParts(w, s);
    ReceiptComplete(s.server, ReportReceiptId(r));
  }
}
