/** Interleavings of accept, disable and report transactions in which what was read before the locks is overtaken. */
module TaskRunRaces {
  import opened Messages
  import opened Fingerprint
  import opened ControlPlane
  import opened ServerInvariant
  import opened TaskRuns

  lemma Extend(trace: seq<Db>, db: Db)
    requires Run(trace) && Moves(trace[|trace| - 1], db)
    ensures Run(trace + [db])
  {
    hide Moves, ServerOk;
    var longer := trace + [db];
    forall i | 0 <= i < |longer| - 1 ensures Moves(longer[i], longer[i + 1]) {
      if i < |trace| - 1 {
        assert Moves(trace[i], trace[i + 1]);
      }
    }
  }

  function Fresh(s: Server): Db { Db(s, map[], map[]) }

  // ---- a disable overtakes a report ----

  /** The disabled tables: the pending runs of the task are settled and its flag is down. */
  ghost function Disabled(s: Server, taskId: string): Server
    requires taskId in s.tasks
  {
    WithFlag(Settled(s, PendingRuns(s, taskId)), taskId, false)
  }

  /** The report is acceptable on these tables, and its run is a pending one. */
  ghost predicate Overtakable(s: Server, p: ReportArgs) {
    && ServerOk(s) && |p.recordIds| == |p.report.records| && p.report.runId in s.runs && PendingManual(s.runs[p.report.runId])
    && AcceptReport(s, p.report, p.recordIds, p.qcIds, p.alertIds, true) == (Reported(s, p), ReportDone(p))
  }

  lemma AcceptableParts(s: Server, p: ReportArgs)
    requires Overtakable(s, p)
    ensures ReportOwned(s, p) && ClaimStands(s, p) && ReportStands(s, p)
    ensures s.runs[p.report.runId].taskId in s.tasks
  {
    hide ServerOk, ReportFingerprint, NewRecords, ContentRefusal, HasReport, FinishedRun, ReportStands;
    assert ClaimOf(s, p).Acquired?;
    AcquiredStands(s, p);
    NothingRefused(s, p, true);
    PendingHasTask(s, p.report.runId);
  }

  /** What the disable leaves of the run and of the report. */
  lemma DisabledParts(s: Server, p: ReportArgs, taskId: string)
    requires p.report.runId in s.runs && s.runs[p.report.runId].taskId == taskId && taskId in s.tasks
    requires ReportOwned(s, p) && ClaimStands(s, p) && ReportStands(s, p) && PendingManual(s.runs[p.report.runId])
    ensures var t := Disabled(s, taskId);
            && ReportOwned(t, p) && ClaimStands(t, p) && ReportStands(t, p)
            && SettledRow(t.runs[p.report.runId])
  {
    hide HasReport, FailedFilesValid, RecordStorable, IdsPresent;
    HasReportFrame(s, Disabled(s, taskId), p.report.runId);
  }

  lemma ReportReadsPending(s: Server, p: ReportArgs)
    requires ReportOwned(s, p) && s.runs[p.report.runId].status.Pending?
    ensures Moves(Fresh(s), Put(Fresh(s), 0, ReportReads(p)))
    ensures Moves(Put(Fresh(s), 0, ReportReads(p)), Put(Fresh(s), 0, ReportClaims(p, Pending)))
  {
    hide ServerOk;
    var begun := Put(Fresh(s), 0, ReportReads(p));
    var read := Put(Fresh(s), 0, ReportClaims(p, Pending));
    assert Takes(Fresh(s), begun, 0, BeginStep(ReportReads(p)));
    assert read == Put(begun, 0, ReportClaims(p, Pending));
    assert Takes(begun, read, 0, ReportTakes(true));
  }

  lemma PutAgain(db: Db, me: nat, tx: Tx, next: Tx)
    ensures Put(Put(db, me, tx), me, next) == Put(db, me, next)
  {
  }

  lemma ToggleBegins(db: Db, me: nat, taskId: string)
    requires me !in db.txs && me !in db.outcomes
    ensures Moves(db, Put(db, me, ToggleWaits(taskId, false)))
  {
    assert Takes(db, Put(db, me, ToggleWaits(taskId, false)), me, BeginStep(ToggleWaits(taskId, false)));
  }

  lemma ToggleLocks(db: Db, me: nat, taskId: string)
    requires me in db.txs && db.txs[me] == ToggleWaits(taskId, false) && taskId in db.server.tasks
    requires Free(db, me, TaskLock(taskId))
    ensures Moves(db, Put(db, me, ToggleLocked(taskId, false)))
  {
    hide Free, Put;
    assert Takes(db, Put(db, me, ToggleLocked(taskId, false)), me, ToggleTakes(true));
  }

  lemma ToggleSettles(db: Db, me: nat, taskId: string)
    requires me in db.txs && db.txs[me] == ToggleLocked(taskId, false)
    requires forall id :: Free(db, me, RunLock(id))
    ensures Moves(db, Put(db, me, ToggleWritten(taskId, false, PendingRuns(db.server, taskId))))
  {
    hide Free, Put, PendingRuns;
    assert Takes(db, Put(db, me, ToggleWritten(taskId, false, PendingRuns(db.server, taskId))), me, ToggleTakes(true));
  }

  lemma ToggleCommits(db: Db, me: nat, taskId: string)
    requires taskId in db.server.tasks
    requires me in db.txs && db.txs[me] == ToggleWritten(taskId, false, PendingRuns(db.server, taskId))
    ensures Moves(db, End(db, me, Disabled(db.server, taskId), Toggled(true)))
  {
    hide End, PendingRuns, Settled, WithFlag;
    assert Takes(db, End(db, me, Disabled(db.server, taskId), Toggled(true)), me, ToggleTakes(true));
  }

  lemma DisableSlipsIn(db: Db, taskId: string)
    requires db.txs.Keys == {0} && db.txs[0].ReportClaims? && db.outcomes == map[] && taskId in db.server.tasks
    ensures var waits := Put(db, 1, ToggleWaits(taskId, false));
            var locked := Put(db, 1, ToggleLocked(taskId, false));
            var written := Put(db, 1, ToggleWritten(taskId, false, PendingRuns(db.server, taskId)));
            var done := Db(Disabled(db.server, taskId), db.txs, map[1 := Toggled(true)]);
            Moves(db, waits) && Moves(waits, locked) && Moves(locked, written) && Moves(written, done)
  {
    hide Moves, Disabled, PendingRuns;
    var waits := Put(db, 1, ToggleWaits(taskId, false));
    var locked := Put(db, 1, ToggleLocked(taskId, false));
    var written := Put(db, 1, ToggleWritten(taskId, false, PendingRuns(db.server, taskId)));
    ToggleBegins(db, 1, taskId);
    ToggleLocks(waits, 1, taskId);
    PutAgain(db, 1, ToggleWaits(taskId, false), ToggleLocked(taskId, false));
    ToggleSettles(locked, 1, taskId);
    PutAgain(db, 1, ToggleLocked(taskId, false), ToggleWritten(taskId, false, PendingRuns(db.server, taskId)));
    ToggleCommits(written, 1, taskId);
    assert written.txs - {1} == db.txs;
  }

  function At(t: Server, tx: Tx): Db { Db(t, map[0 := tx], map[1 := Toggled(true)]) }

  lemma ReportClaimsOn(t: Server, p: ReportArgs)
    requires ClaimStands(t, p)
    ensures Moves(At(t, ReportClaims(p, Pending)), At(t, ReportShares(p, Pending)))
    ensures Moves(At(t, ReportShares(p, Pending)), At(t, ReportChecks(p, Pending)))
  {
    hide ClaimStands, ClaimOf, Put;
    ClaimAcquires(t, p);
    AtPut(t, ReportClaims(p, Pending), ReportShares(p, Pending));
    assert Takes(At(t, ReportClaims(p, Pending)), At(t, ReportShares(p, Pending)), 0, ReportTakes(true));
    AtPut(t, ReportShares(p, Pending), ReportChecks(p, Pending));
    assert Takes(At(t, ReportShares(p, Pending)), At(t, ReportChecks(p, Pending)), 0, ReportTakes(true));
  }

  lemma ReportWritesOn(t: Server, p: ReportArgs)
    requires ReportStands(t, p)
    ensures Moves(At(t, ReportChecks(p, Pending)), At(t, ReportWrites(p, Pending)))
    ensures Moves(At(t, ReportWrites(p, Pending)), At(t, ReportWritten(p, Pending)))
  {
    hide ContentRefusal, Put, FailedFilesValid;
    NothingRefused(t, p, true);
    AtPut(t, ReportChecks(p, Pending), ReportWrites(p, Pending));
    assert Takes(At(t, ReportChecks(p, Pending)), At(t, ReportWrites(p, Pending)), 0, ReportTakes(true));
    AtPut(t, ReportWrites(p, Pending), ReportWritten(p, Pending));
    assert Takes(At(t, ReportWrites(p, Pending)), At(t, ReportWritten(p, Pending)), 0, ReportTakes(true));
  }

  lemma AtPut(t: Server, tx: Tx, next: Tx)
    ensures At(t, next) == Put(At(t, tx), 0, next)
  {
    assert map[0 := tx][0 := next] == map[0 := next];
  }

  lemma ReportOverwrites(t: Server, p: ReportArgs)
    requires ReportOwned(t, p) && SettledRow(t.runs[p.report.runId])
    ensures var before := At(t, ReportWritten(p, Pending));
            var after := End(before, 0, Reported(t, p), Answered(ReportDone(p)));
            Moves(before, after) && Overwrites(before, after)
  {
    hide Reported, NewRecords, ReportFingerprint;
    var before := At(t, ReportWritten(p, Pending));
    var after := End(before, 0, Reported(t, p), Answered(ReportDone(p)));
    assert Takes(before, after, 0, ReportTakes(true));
    assert Commits(before, after, 0, p);
  }

  lemma ReadThenDisabled(s: Server, p: ReportArgs, taskId: string) returns (trace: seq<Db>)
    requires ServerOk(s) && ReportOwned(s, p) && s.runs[p.report.runId].status.Pending? && taskId in s.tasks
    ensures Run(trace) && |trace| == 7 && trace[0] == Fresh(s)
    ensures trace[6] == At(Disabled(s, taskId), ReportClaims(p, Pending))
  {
    hide ServerOk, ReportOwned, Moves, Run, Disabled, PendingRuns;
    var read := Put(Fresh(s), 0, ReportClaims(p, Pending));
    ReportReadsPending(s, p);
    DisableSlipsIn(read, taskId);
    trace := FreshRun(s);
    trace := Then(trace, Put(Fresh(s), 0, ReportReads(p)));
    trace := Then(trace, read);
    trace := Then(trace, Put(read, 1, ToggleWaits(taskId, false)));
    trace := Then(trace, Put(read, 1, ToggleLocked(taskId, false)));
    trace := Then(trace, Put(read, 1, ToggleWritten(taskId, false, PendingRuns(s, taskId))));
    trace := Then(trace, At(Disabled(s, taskId), ReportClaims(p, Pending)));
  }

  lemma FreshRun(s: Server) returns (trace: seq<Db>)
    requires ServerOk(s)
    ensures Run(trace) && trace == [Fresh(s)]
  {
    hide ServerOk;
    trace := [Fresh(s)];
  }

  lemma ThenReported(trace0: seq<Db>, t: Server, p: ReportArgs) returns (trace: seq<Db>)
    requires Run(trace0) && |trace0| == 7 && trace0[6] == At(t, ReportClaims(p, Pending))
    requires ReportOwned(t, p) && ClaimStands(t, p) && ReportStands(t, p) && SettledRow(t.runs[p.report.runId])
    ensures Run(trace) && |trace| == 12 && trace[..7] == trace0
    ensures trace[10] == At(t, ReportWritten(p, Pending))
    ensures trace[11] == End(trace[10], 0, Reported(t, p), Answered(ReportDone(p)))
  {
    hide ClaimStands, ReportStands, Moves, Run, End, Reported;
    ReportClaimsOn(t, p);
    ReportWritesOn(t, p);
    ReportOverwrites(t, p);
    trace := Then(trace0, At(t, ReportShares(p, Pending)));
    trace := Then(trace, At(t, ReportChecks(p, Pending)));
    trace := Then(trace, At(t, ReportWrites(p, Pending)));
    trace := Then(trace, At(t, ReportWritten(p, Pending)));
    trace := Then(trace, End(trace[10], 0, Reported(t, p), Answered(ReportDone(p))));
  }

  /** For every pending run and every report that is acceptable for it: there is an interleaving in which a disable settles
      the run as failed and tells its caller so, and the report then replaces that outcome by its own. No order of whole
      transactions does this. */
  lemma PendingReadCanOverwrite(s: Server, p: ReportArgs) returns (trace: seq<Db>)
    requires Overtakable(s, p)
    ensures Run(trace) && |trace| == 12 && trace[0] == Fresh(s)
    ensures var id := p.report.runId;
            && id in trace[6].server.runs && id in trace[11].server.runs
            && SettledRow(trace[6].server.runs[id]) && trace[6].outcomes == map[1 := Toggled(true)]
            && trace[11].server.runs[id] == FinishedRun(trace[6].server.runs[id], p.report)
            && trace[11].outcomes == map[1 := Toggled(true), 0 := Answered(ReportDone(p))]
    ensures !Serial(trace[10].server, trace[11].server)
  {
    hide ServerOk, ClaimStands, ReportStands, Moves, Run, Overtakable, PendingManual, Overwrites, Disabled, Serial, NewRecords,
      ReportFingerprint, FinishedRun;
    OvertakableRun(s, p);
    var taskId := s.runs[p.report.runId].taskId;
    AcceptableParts(s, p);
    DisabledParts(s, p, taskId);
    var t := Disabled(s, taskId);
    var half := ReadThenDisabled(s, p, taskId);
    trace := ThenReported(half, t, p);
    assert trace[6] == trace[..7][6] && trace[0] == trace[..7][0];
    ReportOverwrites(t, p);
    StepAt(trace, 10);
    RunKeepsInvariant(trace, 10);
    StepIsSerialIff(trace[10], trace[11]);
  }

  lemma StepAt(trace: seq<Db>, i: nat)
    requires Run(trace) && i + 1 < |trace|
    ensures Moves(trace[i], trace[i + 1])
  {
    hide Moves, ServerOk;
  }

  lemma Then(trace: seq<Db>, db: Db) returns (longer: seq<Db>)
    requires Run(trace) && Moves(trace[|trace| - 1], db)
    ensures Run(longer) && longer == trace + [db]
  {
    hide Moves, ServerOk;
    Extend(trace, db);
    longer := trace + [db];
  }

  lemma OvertakableRun(s: Server, p: ReportArgs)
    requires Overtakable(s, p)
    ensures ServerOk(s) && p.report.runId in s.runs && PendingManual(s.runs[p.report.runId])
    ensures s.runs[p.report.runId].status.Pending?
  {
    hide ServerOk, AcceptReport;
  }

  // ---- one key for two requests ----

  lemma AcceptBegins(db: Db, me: nat, a: AcceptArgs)
    requires me !in db.txs && me !in db.outcomes && ArgsOk(db.server, a)
    ensures Moves(db, Put(db, me, AcceptReads(a)))
  {
    hide ArgsOk;
    assert Takes(db, Put(db, me, AcceptReads(a)), me, BeginStep(AcceptReads(a)));
  }

  lemma AcceptFindsNothing(db: Db, me: nat, a: AcceptArgs)
    requires me in db.txs && db.txs[me] == AcceptReads(a) && IsOperatorToken(a.token)
    requires FindByExecutionKey(db.server, KeyOf(a)).None?
    ensures Moves(db, Put(db, me, AcceptWaits(a)))
  {
    hide Put, IsOperatorToken;
    assert Takes(db, Put(db, me, AcceptWaits(a)), me, AcceptTakes(""));
  }

  lemma AcceptLocks(db: Db, me: nat, a: AcceptArgs)
    requires me in db.txs && db.txs[me] == AcceptWaits(a) && a.taskId in db.server.tasks
    requires Free(db, me, TaskLock(a.taskId))
    ensures Moves(db, Put(db, me, AcceptChecks(a)))
  {
    hide Put, Free;
    assert Takes(db, Put(db, me, AcceptChecks(a)), me, AcceptTakes(""));
  }

  lemma AcceptPasses(db: Db, me: nat, a: AcceptArgs)
    requires me in db.txs && db.txs[me] == AcceptChecks(a) && CanAccept(db.server, a) && NoPending(db.server, a.taskId)
    ensures Moves(db, Put(db, me, AcceptInserts(a)))
  {
    hide Put, Free;
    assert AcceptRefusal(db.server, a).None?;
    assert Takes(db, Put(db, me, AcceptInserts(a)), me, AcceptTakes(""));
  }

  lemma AcceptInsertsRow(db: Db, me: nat, a: AcceptArgs)
    requires me in db.txs && db.txs[me] == AcceptInserts(a) && NoPending(db.server, a.taskId)
    requires FindByExecutionKey(db.server, KeyOf(a)).None? && Free(db, me, KeyIndex(KeyOf(a)))
    requires Free(db, me, RunKey(a.retryOf))
    ensures Moves(db, Put(db, me, AcceptInserted(a)))
  {
    hide Put, Free;
    assert Takes(db, Put(db, me, AcceptInserted(a)), me, AcceptTakes(""));
  }

  function Accepted(s: Server, a: AcceptArgs, newId: string): Server
    requires a.taskId in s.tasks
  {
    s.(runs := s.runs[newId := AcceptedRun(s, a)])
  }

  lemma AcceptCommits(db: Db, me: nat, a: AcceptArgs, newId: string)
    requires me in db.txs && db.txs[me] == AcceptInserted(a) && a.taskId in db.server.tasks
    requires newId !in db.server.runs && newId != ""
    ensures Moves(db, End(db, me, Accepted(db.server, a, newId), Answered(ManualAccepted(newId, Pending, false))))
  {
    hide End, AcceptedRun;
    assert Takes(db, End(db, me, Accepted(db.server, a, newId), Answered(ManualAccepted(newId, Pending, false))), me,
                 AcceptTakes(newId));
  }

  lemma AcceptRaced(db: Db, me: nat, a: AcceptArgs, id: string)
    requires me in db.txs && db.txs[me] == AcceptInserts(a) && Free(db, me, KeyIndex(KeyOf(a)))
    requires FindByExecutionKey(db.server, KeyOf(a)) == Some(id)
    ensures Moves(db, Answer(db, me, ManualAccepted(id, db.server.runs[id].status, true)))
  {
    hide End, Free;
    assert Takes(db, Answer(db, me, ManualAccepted(id, db.server.runs[id].status, true)), me, AcceptTakes(""));
  }

  /** Two acceptable requests for different tasks under one token that is not used yet. */
  ghost predicate OneTokenTwoTasks(s: Server, a: AcceptArgs, b: AcceptArgs) {
    && ServerOk(s) && ArgsOk(s, a) && ArgsOk(s, b) && a.token == b.token && IsOperatorToken(a.token)
    && CanAccept(s, a) && CanAccept(s, b) && a.taskId != b.taskId && NoPending(s, a.taskId) && NoPending(s, b.taskId)
    && FindByExecutionKey(s, KeyOf(a)).None?
  }

  function Pair(s: Server, x: Tx, y: Tx): Db { Db(s, map[0 := x, 1 := y], map[]) }

  lemma PairPut(s: Server, x: Tx, y: Tx, next: Tx)
    ensures Put(Pair(s, x, y), 0, next) == Pair(s, next, y) && Put(Pair(s, x, y), 1, next) == Pair(s, x, next)
  {
    assert map[0 := x, 1 := y][0 := next] == map[0 := next, 1 := y];
    assert map[0 := x, 1 := y][1 := next] == map[0 := x, 1 := next];
  }

  lemma BothRead(s: Server, a: AcceptArgs, b: AcceptArgs) returns (trace: seq<Db>)
    requires OneTokenTwoTasks(s, a, b)
    ensures Run(trace) && |trace| == 5 && trace[0] == Fresh(s) && trace[4] == Pair(s, AcceptWaits(a), AcceptWaits(b))
  {
    hide ServerOk, Moves, Run, ArgsOk, CanAccept, NoPending, IsOperatorToken;
    trace := FreshRun(s);
    AcceptBegins(trace[0], 0, a);
    trace := Then(trace, Put(Fresh(s), 0, AcceptReads(a)));
    AcceptBegins(trace[1], 1, b);
    assert Put(trace[1], 1, AcceptReads(b)) == Pair(s, AcceptReads(a), AcceptReads(b));
    trace := Then(trace, Pair(s, AcceptReads(a), AcceptReads(b)));
    AcceptFindsNothing(trace[2], 0, a);
    PairPut(s, AcceptReads(a), AcceptReads(b), AcceptWaits(a));
    trace := Then(trace, Pair(s, AcceptWaits(a), AcceptReads(b)));
    AcceptFindsNothing(trace[3], 1, b);
    PairPut(s, AcceptWaits(a), AcceptReads(b), AcceptWaits(b));
    trace := Then(trace, Pair(s, AcceptWaits(a), AcceptWaits(b)));
  }

  lemma FirstInserts(s: Server, a: AcceptArgs, b: AcceptArgs, trace0: seq<Db>) returns (trace: seq<Db>)
    requires OneTokenTwoTasks(s, a, b)
    requires Run(trace0) && |trace0| == 5 && trace0[4] == Pair(s, AcceptWaits(a), AcceptWaits(b))
    ensures Run(trace) && |trace| == 8 && trace[..5] == trace0 && trace[7] == Pair(s, AcceptInserted(a), AcceptWaits(b))
  {
    hide ServerOk, Moves, Run, ArgsOk, NoPending, IsOperatorToken;
    AcceptLocks(trace0[4], 0, a);
    PairPut(s, AcceptWaits(a), AcceptWaits(b), AcceptChecks(a));
    trace := Then(trace0, Pair(s, AcceptChecks(a), AcceptWaits(b)));
    AcceptPasses(trace[5], 0, a);
    PairPut(s, AcceptChecks(a), AcceptWaits(b), AcceptInserts(a));
    trace := Then(trace, Pair(s, AcceptInserts(a), AcceptWaits(b)));
    AcceptInsertsRow(trace[6], 0, a);
    PairPut(s, AcceptInserts(a), AcceptWaits(b), AcceptInserted(a));
    trace := Then(trace, Pair(s, AcceptInserted(a), AcceptWaits(b)));
  }

  function Second(t: Server, newId: string, y: Tx): Db {
    Db(t, map[1 := y], map[0 := Answered(ManualAccepted(newId, Pending, false))])
  }

  /** The second request comes to its insert after the first is committed. */
  lemma SecondComes(s: Server, a: AcceptArgs, b: AcceptArgs, newId: string, trace0: seq<Db>) returns (trace: seq<Db>)
    requires OneTokenTwoTasks(s, a, b) && newId !in s.runs && newId != ""
    requires Run(trace0) && |trace0| == 8 && trace0[7] == Pair(s, AcceptInserted(a), AcceptWaits(b))
    ensures Run(trace) && |trace| == 11 && trace[..8] == trace0
    ensures trace[10] == Second(Accepted(s, a, newId), newId, AcceptInserts(b))
  {
    hide ServerOk, Moves, Run, ArgsOk, IsOperatorToken;
    var t := Accepted(s, a, newId);
    AcceptCommits(trace0[7], 0, a, newId);
    assert map[0 := AcceptInserted(a), 1 := AcceptWaits(b)] - {0} == map[1 := AcceptWaits(b)];
    trace := Then(trace0, Second(t, newId, AcceptWaits(b)));
    AcceptLocks(trace[8], 1, b);
    assert map[1 := AcceptWaits(b)][1 := AcceptChecks(b)] == map[1 := AcceptChecks(b)];
    trace := Then(trace, Second(t, newId, AcceptChecks(b)));
    assert NoPending(t, b.taskId) by {
      forall id ensures !IsPendingManualOf(t, id, b.taskId) { assert !IsPendingManualOf(s, id, b.taskId); }
    }
    AcceptPasses(trace[9], 1, b);
    assert map[1 := AcceptChecks(b)][1 := AcceptInserts(b)] == map[1 := AcceptInserts(b)];
    trace := Then(trace, Second(t, newId, AcceptInserts(b)));
  }

  /** The key now belongs to the first request and to nothing else. */
  lemma KeyTaken(s: Server, a: AcceptArgs, b: AcceptArgs, newId: string)
    requires OneTokenTwoTasks(s, a, b) && newId !in s.runs
    ensures FindByExecutionKey(Accepted(s, a, newId), KeyOf(b)) == Some(newId)
    ensures AcceptAlone(Accepted(s, a, newId), b, "").1 == Answered(Refused(KeyReused))
  {
    hide ServerOk, TargetsDistinct, ResolveRetryFiles, IsOperatorToken, NoPending;
    var t := Accepted(s, a, newId);
    assert RunHasKey(t, newId, KeyOf(b));
    forall id | RunHasKey(t, id, KeyOf(b)) ensures id == newId {
      assert !RunHasKey(s, id, KeyOf(a));
    }
  }

  /** For any two such requests: there is an interleaving in which the second one, which asks for a run of another task,
      is answered with the run of the first, where the transaction alone would refuse the key as used. */
  lemma RacedAcceptsDisagree(s: Server, a: AcceptArgs, b: AcceptArgs, newId: string) returns (trace: seq<Db>)
    requires OneTokenTwoTasks(s, a, b) && newId !in s.runs && newId != ""
    ensures Run(trace) && |trace| == 12 && trace[0] == Fresh(s)
    ensures 1 in trace[11].outcomes && trace[11].outcomes[1] == Answered(ManualAccepted(newId, Pending, true))
    ensures newId in trace[11].server.runs && trace[11].server.runs[newId].taskId == a.taskId != b.taskId
    ensures AcceptAlone(trace[10].server, b, "").1 == Answered(Refused(KeyReused))
  {
    hide ServerOk, Moves, Run, ArgsOk, IsOperatorToken, NoPending, AcceptAlone;
    var read := BothRead(s, a, b);
    var inserted := FirstInserts(s, a, b, read);
    trace := SecondComes(s, a, b, newId, inserted);
    assert trace[0] == trace[..8][0] && inserted[0] == inserted[..5][0];
    KeyTaken(s, a, b, newId);
    AcceptRaced(trace[10], 1, b, newId);
    trace := Then(trace, Answer(trace[10], 1, ManualAccepted(newId, Pending, true)));
  }
}
