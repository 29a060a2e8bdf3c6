/**
 Manual accept, retry accept, agent start, disable and report as interleaved transactions. Each lock, each read and each
 commit is a step of its own; what a transaction writes is invisible until it commits. Locks are held to the end of the
 transaction, and every transaction that was not aborted leaves the answer it gave.
 */
module TaskRuns {
  import opened Messages
  import opened Fingerprint
  import opened ControlPlane
  import opened ServerInvariant

  datatype AcceptArgs = AcceptArgs(trigger: Trigger, taskId: string, retryOf: string, token: string,
                                   targets: seq<RetryFile>, executable: bool)

  datatype ReportArgs = ReportArgs(report: ReportRequest, recordIds: seq<string>, qcIds: seq<string>, alertIds: seq<string>)

  datatype RetryArgs = RetryArgs(runId: string, token: string, executable: bool)

  /** Where a transaction is. The phase says which locks it holds and what it has written. */
  datatype Tx =
    // read the key, read the parent, read its failed files and resolve them; then go on as an accept
    | RetryReads(retry: RetryArgs) | RetryParent(retry: RetryArgs) | RetryFiles(retry: RetryArgs)
    // read the key, lock the task, check it, insert the pending run
    | AcceptReads(args: AcceptArgs) | AcceptWaits(args: AcceptArgs) | AcceptChecks(args: AcceptArgs)
    | AcceptInserts(args: AcceptArgs) | AcceptInserted(args: AcceptArgs)
    // read the run, lock the task, lock the run, mark it running
    | StartReads(start: StartRequest) | StartWaitsTask(start: StartRequest, id: string)
    | StartWaitsRun(start: StartRequest, id: string) | StartLocked(start: StartRequest, id: string)
    | StartMarked(start: StartRequest, id: string)
    // lock the task, settle its pending runs, write the flag
    | ToggleWaits(taskId: string, enabled: bool) | ToggleLocked(taskId: string, enabled: bool)
    | ToggleWritten(taskId: string, enabled: bool, settled: set<string>)
    // read the run and remember its status, claim the receipt, check the report, update the run row
    | ReportReads(rep: ReportArgs) | ReportClaims(rep: ReportArgs, seen: RunStatus)
    | ReportShares(rep: ReportArgs, seen: RunStatus) | ReportChecks(rep: ReportArgs, seen: RunStatus)
    | ReportWrites(rep: ReportArgs, seen: RunStatus) | ReportWritten(rep: ReportArgs, seen: RunStatus)

  /** What a transaction answers; a toggle says only whether it was done. */
  datatype Outcome = Answered(reply: Reply) | Toggled(done: bool)

  datatype Db = Db(server: Server, txs: map<nat, Tx>, outcomes: map<nat, Outcome>)

  function KeyOf(args: AcceptArgs): string { OperatorKey(args.token) }

  // ---- locks ----

  /** What a transaction can hold: a row lock, or an uncommitted entry of a unique index. RunKey is the part of a run row
      that a foreign key to it shares and that only a lock for update excludes: the raw files, records and receipt of a
      report refer to its run, and a retry refers to its parent. No two transactions share one at a time, as LocksOk and
      RetryShareIsFree say. */
  datatype Resource = TaskLock(taskId: string) | RunLock(runId: string) | RunKey(keyOf: string) | KeyIndex(key: string)
                    | ReceiptIndex(id: ReceiptId) | ReportIndex(reportOf: string)

  predicate HoldsTask(tx: Tx, taskId: string) {
    match tx
    case AcceptChecks(a) => a.taskId == taskId
    case AcceptInserts(a) => a.taskId == taskId
    case AcceptInserted(a) => a.taskId == taskId
    case StartWaitsRun(r, _) => r.taskId == taskId
    case StartLocked(r, _) => r.taskId == taskId
    case StartMarked(r, _) => r.taskId == taskId
    case ToggleLocked(t, _) => t == taskId
    case ToggleWritten(t, _, _) => t == taskId
    case _ => false
  }

  predicate HoldsRun(tx: Tx, id: string) {
    match tx
    case StartLocked(_, i) => i == id
    case StartMarked(_, i) => i == id
    case ToggleWritten(_, _, settled) => id in settled
    case ReportWritten(p, _) => p.report.runId == id
    case _ => false
  }

  predicate Claimed(tx: Tx) { tx.ReportShares? || tx.ReportChecks? || tx.ReportWrites? || tx.ReportWritten? }

  predicate HoldsKey(tx: Tx, id: string) {
    match tx
    case StartLocked(_, i) => i == id
    case StartMarked(_, i) => i == id
    case ReportChecks(p, _) => p.report.runId == id
    case ReportWrites(p, _) => p.report.runId == id
    case ReportWritten(p, _) => p.report.runId == id
    case AcceptInserted(a) => a.trigger.Retry? && a.retryOf == id
    case _ => false
  }

  predicate Holds(tx: Tx, res: Resource) {
    match res
    case TaskLock(taskId) => HoldsTask(tx, taskId)
    case RunLock(id) => HoldsRun(tx, id)
    case RunKey(id) => HoldsKey(tx, id)
    case KeyIndex(key) => tx.AcceptInserted? && KeyOf(tx.args) == key
    case ReceiptIndex(id) => Claimed(tx) && ReportReceiptId(tx.rep.report) == id
    case ReportIndex(runId) => Claimed(tx) && tx.rep.report.runId == runId
  }

  ghost predicate Free(db: Db, me: nat, res: Resource) {
    forall other :: other in db.txs && other != me ==> !Holds(db.txs[other], res)
  }

  // ---- steps ----

  function Put(db: Db, me: nat, tx: Tx): Db { db.(txs := db.txs[me := tx]) }

  /** The transaction ends with an answer; only a commit changes the tables. */
  function End(db: Db, me: nat, server: Server, outcome: Outcome): Db {
    Db(server, db.txs - {me}, db.outcomes[me := outcome])
  }

  function Answer(db: Db, me: nat, reply: Reply): Db { End(db, me, db.server, Answered(reply)) }

  /** The targets are those that the failed files of the parent resolve to. */
  ghost predicate RetryReady(s: Server, a: AcceptArgs) {
    a.trigger.Retry? ==>
      && a.retryOf in s.runs
      && var parent := s.runs[a.retryOf];
         && parent.status.Failed? && parent.failedFiles.Some? && parent.failedFiles.value != [] && a.taskId == parent.taskId
         && ResolveRetryFiles(s, parent, parent.failedFiles.value, |parent.failedFiles.value|) == Some(a.targets)
  }

  ghost predicate ArgsOk(s: Server, a: AcceptArgs) {
    OperatorStarted(a.trigger) && TargetsDistinct(a.targets) && RetryReady(s, a)
  }

  /** A request arrives. A retry may also begin at its second half, resolved; a report may come for any run at any time. */
  ghost predicate Begin(db: Db, after: Db, me: nat, tx: Tx) {
    && me !in db.txs && me !in db.outcomes && after == Put(db, me, tx)
    && match tx
       case RetryReads(_) => true
       case AcceptReads(a) => ArgsOk(db.server, a)
       case StartReads(r) => OperatorStarted(r.trigger)
       case ToggleWaits(_, _) => true
       case ReportReads(p) => |p.recordIds| == |p.report.records|
       case _ => false
  }

  /** What the reads before the lock make of a retry: each is a statement of its own. */
  ghost predicate RetryStep(db: Db, after: Db, me: nat) {
    && me in db.txs
    && var s := db.server;
       match db.txs[me]
       case RetryReads(r) =>
         if !IsOperatorToken(r.token) then after == Answer(db, me, Refused(Invalid))
         else
           (match FindByExecutionKey(s, OperatorKey(r.token))
            case None => after == Put(db, me, RetryParent(r))
            case Some(id) =>
              after == Answer(db, me, if s.runs[id].trigger.Retry? && s.runs[id].retryOf == r.runId
                                      then ManualAccepted(id, s.runs[id].status, true) else Refused(KeyReused)))
       case RetryParent(r) =>
         if r.runId == "" then after == Answer(db, me, Refused(Invalid))
         else if r.runId !in s.runs then after == Answer(db, me, Refused(NotFound))
         else if !s.runs[r.runId].status.Failed? then after == Answer(db, me, Refused(NotRetryable))
         else after == Put(db, me, RetryFiles(r))
       case RetryFiles(r) =>
         && r.runId in s.runs
         && var parent := s.runs[r.runId];
            if parent.failedFiles.None? || parent.failedFiles.value == [] then after == Answer(db, me, Refused(NotRetryable))
            else
              (match ResolveRetryFiles(s, parent, parent.failedFiles.value, |parent.failedFiles.value|)
               case None => after == Answer(db, me, Refused(NotRetryable))
               case Some(targets) => after == Put(db, me, AcceptReads(Resolved(r, parent, targets))))
       case _ => false
  }

  function Resolved(r: RetryArgs, parent: RunRow, targets: seq<RetryFile>): AcceptArgs {
    AcceptArgs(Retry, parent.taskId, r.runId, r.token, targets, r.executable)
  }

  function AcceptedRun(s: Server, a: AcceptArgs): RunRow
    requires a.taskId in s.tasks
  {
    NewRun(a.taskId, s.tasks[a.taskId].node, a.trigger, KeyOf(a), "", Pending, a.retryOf,
           if a.targets == [] then None else Some(a.targets), "")
  }

  predicate SameRequest(run: RunRow, a: AcceptArgs) {
    run.trigger == a.trigger && run.taskId == a.taskId && run.retryOf == a.retryOf
  }

  ghost predicate NoPending(s: Server, taskId: string) { forall id :: !IsPendingManualOf(s, id, taskId) }

  /** The checks made under the task lock; a pending run under the same key is left to the insert. */
  ghost function AcceptRefusal(s: Server, a: AcceptArgs): Option<Refusal> {
    if a.taskId !in s.tasks then Some(NotFound)
    else if !s.tasks[a.taskId].enabled then Some(TaskDisabled)
    else if !a.executable then Some(NotExecutable)
    else if exists id :: IsPendingManualOf(s, id, a.taskId) && s.runs[id].executionKey != KeyOf(a) then Some(PendingExists)
    else None
  }

  /** The read before the lock compares the request with the run it finds; the insert answers with the run it finds. */
  ghost predicate AcceptStep(db: Db, after: Db, me: nat, newId: string) {
    && me in db.txs
    && var s := db.server;
       match db.txs[me]
       case AcceptReads(a) =>
         if !IsOperatorToken(a.token) then after == Answer(db, me, Refused(Invalid))
         else
           (match FindByExecutionKey(s, KeyOf(a))
            case None => after == Put(db, me, AcceptWaits(a))
            case Some(id) =>
              after == Answer(db, me, if SameRequest(s.runs[id], a) then ManualAccepted(id, s.runs[id].status, true)
                                      else Refused(KeyReused)))
       case AcceptWaits(a) =>
         if a.taskId !in s.tasks then after == Answer(db, me, Refused(NotFound))
         else Free(db, me, TaskLock(a.taskId)) && after == Put(db, me, AcceptChecks(a))
       case AcceptChecks(a) =>
         (match AcceptRefusal(s, a)
          case Some(reason) => after == Answer(db, me, Refused(reason))
          case None => after == Put(db, me, AcceptInserts(a)))
       case AcceptInserts(a) =>
         && Free(db, me, KeyIndex(KeyOf(a)))
         && (match FindByExecutionKey(s, KeyOf(a))
             case Some(id) => after == Answer(db, me, ManualAccepted(id, s.runs[id].status, true))
             case None =>
               if !NoPending(s, a.taskId) then after == Answer(db, me, Refused(PendingExists))
               else (a.trigger.Retry? ==> Free(db, me, RunKey(a.retryOf))) && after == Put(db, me, AcceptInserted(a)))
       case AcceptInserted(a) =>
         && a.taskId in s.tasks && newId !in s.runs && newId != ""
         && after == End(db, me, s.(runs := s.runs[newId := AcceptedRun(s, a)]),
                         Answered(ManualAccepted(newId, Pending, false)))
       case _ => false
  }

  /** The run a start is meant for: the row it matched before it locked anything. */
  ghost predicate Matches(s: Server, r: StartRequest, id: string) {
    && id in s.runs && s.runs[id].executionKey == r.executionKey && s.runs[id].node == r.node
    && s.runs[id].taskId == r.taskId && s.runs[id].trigger == r.trigger && OperatorStarted(r.trigger)
  }

  predicate StartValid(r: StartRequest) {
    r.executionKey != "" && r.scheduledFor == "" && Calendar.IsRfc3339Utc(r.startedAt)
  }

  function Replayed(id: string, status: RunStatus): Reply { Started(StartAnswer(id, true, status)) }

  ghost predicate StartStep(db: Db, after: Db, me: nat) {
    && me in db.txs
    && var s := db.server;
       match db.txs[me]
       case StartReads(r) =>
         var found := FindByExecutionKey(s, r.executionKey);
         if !StartValid(r) then after == Answer(db, me, Refused(Invalid))
         else if found.None? || !Matches(s, r, found.value) then after == Answer(db, me, Refused(NotAccepted))
         else if !s.runs[found.value].status.Pending? then
           after == Answer(db, me, Replayed(found.value, s.runs[found.value].status))
         else after == Put(db, me, StartWaitsTask(r, found.value))
       case StartWaitsTask(r, id) =>
         if r.taskId !in s.tasks then after == Answer(db, me, Refused(NotFound))
         else Free(db, me, TaskLock(r.taskId)) && after == Put(db, me, StartWaitsRun(r, id))
       case StartWaitsRun(r, id) =>
         Free(db, me, RunLock(id)) && Free(db, me, RunKey(id)) && after == Put(db, me, StartLocked(r, id))
       case StartLocked(r, id) =>
         && id in s.runs
         && after == if s.runs[id].status.Pending? then Put(db, me, StartMarked(r, id))
                     else Answer(db, me, Replayed(id, s.runs[id].status))
       case StartMarked(r, id) =>
         && id in s.runs
         && after == End(db, me, s.(runs := s.runs[id := s.runs[id].(status := Running, startedAt := r.startedAt)]),
                         Answered(Started(StartAnswer(id, false, Running))))
       case _ => false
  }

  ghost function PendingRuns(s: Server, taskId: string): set<string> {
    set id | id in s.runs && IsPendingManualOf(s, id, taskId)
  }

  function Settled(s: Server, settled: set<string>): Server {
    s.(runs := map id | id in s.runs ::
         if id in settled then s.runs[id].(status := Failed, failedFiles := Some([])) else s.runs[id])
  }

  function WithFlag(s: Server, taskId: string, enabled: bool): Server
    requires taskId in s.tasks
  {
    s.(tasks := s.tasks[taskId := s.tasks[taskId].(enabled := enabled)])
  }

  /** executable is what the dependency checks find when the task is enabled. */
  ghost predicate ToggleStep(db: Db, after: Db, me: nat, executable: bool) {
    && me in db.txs
    && var s := db.server;
       match db.txs[me]
       case ToggleWaits(taskId, enabled) =>
         if taskId !in s.tasks then after == End(db, me, s, Toggled(false))
         else Free(db, me, TaskLock(taskId)) && after == Put(db, me, ToggleLocked(taskId, enabled))
       case ToggleLocked(taskId, enabled) =>
         if enabled then
           if !executable then after == End(db, me, s, Toggled(false))
           else after == Put(db, me, ToggleWritten(taskId, true, {}))
         else
           && (forall id :: id in PendingRuns(s, taskId) ==> Free(db, me, RunLock(id)))
           && after == Put(db, me, ToggleWritten(taskId, false, PendingRuns(s, taskId)))
       case ToggleWritten(taskId, enabled, settled) =>
         taskId in s.tasks && after == End(db, me, WithFlag(Settled(s, settled), taskId, enabled), Toggled(true))
       case _ => false
  }

  function Reported(s: Server, p: ReportArgs): Server
    requires p.report.runId in s.runs && |p.recordIds| == |p.report.records|
  {
    s.(records := s.records + NewRecords(p.report, p.recordIds, |p.recordIds|),
       runs := s.runs[p.report.runId := FinishedRun(s.runs[p.report.runId], p.report)],
       receipts := s.receipts[ReportReceiptId(p.report) :=
         Receipt(p.report.runId, ReportFingerprint(p.report), Some(ReportResponse(p.recordIds, p.qcIds, p.alertIds)))])
  }

  function ReportDone(p: ReportArgs): Reply { ReportAccepted(ReportResponse(p.recordIds, p.qcIds, p.alertIds), false) }

  ghost function ClaimOf(s: Server, p: ReportArgs): Claim {
    ClaimReceipt(s, ReportReceiptId(p.report), p.report.runId, ReportFingerprint(p.report))
  }

  /** Only the status read at the beginning is compared; the update of the run row compares nothing. */
  ghost predicate ReportStep(db: Db, after: Db, me: nat, rulesUsable: bool) {
    && me in db.txs
    && var s := db.server;
       match db.txs[me]
       case ReportReads(p) =>
         if p.report.key == "" then after == Answer(db, me, Refused(Invalid))
         else if Ownership(s, p.report.runId, p.report.node).Some? then
           after == Answer(db, me, Refused(Ownership(s, p.report.runId, p.report.node).value))
         else if !Terminal(p.report.status) then after == Answer(db, me, Refused(Invalid))
         else after == Put(db, me, ReportClaims(p, s.runs[p.report.runId].status))
       case ReportClaims(p, seen) =>
         && Free(db, me, ReceiptIndex(ReportReceiptId(p.report))) && Free(db, me, ReportIndex(p.report.runId))
         && (match ClaimOf(s, p)
             case Acquired => after == Put(db, me, ReportShares(p, seen))
             case Replay(response) => after == Answer(db, me, ReportAccepted(response, true))
             case Conflict(reason) => after == Answer(db, me, Refused(reason)))
       case ReportShares(p, seen) => Free(db, me, RunKey(p.report.runId)) && after == Put(db, me, ReportChecks(p, seen))
       case ReportChecks(p, seen) =>
         && p.report.runId in s.runs
         && (match if Terminal(seen) then Some(RunFinished) else ContentRefusal(s, p.report, rulesUsable)
             case Some(reason) => after == Answer(db, me, Refused(reason))
             case None => after == Put(db, me, ReportWrites(p, seen)))
       case ReportWrites(p, seen) => Free(db, me, RunLock(p.report.runId)) && after == Put(db, me, ReportWritten(p, seen))
       case ReportWritten(p, _) =>
         && p.report.runId in s.runs && |p.recordIds| == |p.report.records|
         && after == End(db, me, Reported(s, p), Answered(ReportDone(p)))
       case _ => false
  }

  /** A connection is lost or a transaction is aborted: it ends without a trace and without an answer. */
  predicate Abort(db: Db, after: Db, me: nat) { me in db.txs && after == db.(txs := db.txs - {me}) }

  datatype Step = BeginStep(tx: Tx) | RetryTakes | AcceptTakes(newId: string) | StartTakes | ToggleTakes(executable: bool)
                | ReportTakes(rulesUsable: bool) | AbortTakes

  ghost predicate Takes(db: Db, after: Db, me: nat, step: Step) {
    match step
    case BeginStep(tx) => Begin(db, after, me, tx)
    case RetryTakes => RetryStep(db, after, me)
    case AcceptTakes(newId) => AcceptStep(db, after, me, newId)
    case StartTakes => StartStep(db, after, me)
    case ToggleTakes(executable) => ToggleStep(db, after, me, executable)
    case ReportTakes(rulesUsable) => ReportStep(db, after, me, rulesUsable)
    case AbortTakes => Abort(db, after, me)
  }

  ghost predicate Moves(db: Db, after: Db) { exists me, step :: Takes(db, after, me, step) }

  ghost predicate Run(trace: seq<Db>) {
    && trace != [] && ServerOk(trace[0].server) && trace[0].txs == map[]
    && forall i :: 0 <= i < |trace| - 1 ==> Moves(trace[i], trace[i + 1])
  }

  // ---- the invariant ----

  predicate CanAccept(s: Server, a: AcceptArgs) { a.taskId in s.tasks && s.tasks[a.taskId].enabled && a.executable }

  /** The report is one that the checks on its content pass. */
  ghost predicate ReportStands(s: Server, p: ReportArgs) {
    && (forall i :: 0 <= i < |p.report.records| ==>
          IdsPresent(p.report.records[i]) && RecordStorable(s.rawFiles, p.report.runId, p.report.records[i]))
    && p.report.runId in s.runs
    && (p.report.failedFiles.Some? ==>
          FailedFilesValid(s.rawFiles, p.report.runId, s.runs[p.report.runId].retryFiles, p.report.status,
                           p.report.failedFiles.value))
  }

  ghost predicate ReportOwned(s: Server, p: ReportArgs) {
    && |p.recordIds| == |p.report.records| && p.report.key != "" && Terminal(p.report.status)
    && Ownership(s, p.report.runId, p.report.node).None?
  }

  /** The row of a run that a disable has settled. */
  predicate SettledRow(run: RunRow) { run.status.Failed? && run.failedFiles == Some([]) }

  /** What has become of a run since a report read its status: a terminal run stays terminal, a running one runs until a
      report of it, and a pending one may also have been settled. */
  ghost predicate ReadAs(s: Server, p: ReportArgs, seen: RunStatus) {
    && ReportOwned(s, p)
    && var run := s.runs[p.report.runId];
       match seen
       case Pending => !Terminal(run.status) || SettledRow(run) || HasReport(s, p.report.runId)
       case Running => run.status.Running? || HasReport(s, p.report.runId)
       case _ => Terminal(run.status)
  }

  /** The claim stands: no report of the run is committed, nor any receipt under the key. */
  ghost predicate ClaimStands(s: Server, p: ReportArgs) {
    ReportReceiptId(p.report) !in s.receipts && !HasReport(s, p.report.runId)
  }

  ghost predicate TxOk(s: Server, tx: Tx) {
    match tx
    case RetryReads(_) => true
    case RetryParent(r) => IsOperatorToken(r.token)
    case RetryFiles(r) => IsOperatorToken(r.token) && r.runId != "" && r.runId in s.runs && Terminal(s.runs[r.runId].status)
    case AcceptReads(a) => ArgsOk(s, a)
    case AcceptWaits(a) => ArgsOk(s, a) && IsOperatorToken(a.token)
    case AcceptChecks(a) => ArgsOk(s, a) && IsOperatorToken(a.token)
    case AcceptInserts(a) => ArgsOk(s, a) && IsOperatorToken(a.token) && CanAccept(s, a)
    case AcceptInserted(a) =>
      && ArgsOk(s, a) && IsOperatorToken(a.token) && CanAccept(s, a) && NoPending(s, a.taskId)
      && forall id :: !RunHasKey(s, id, KeyOf(a))
    case StartReads(r) => OperatorStarted(r.trigger)
    case StartWaitsTask(r, id) => StartValid(r) && Matches(s, r, id) && r.taskId in s.tasks
    case StartWaitsRun(r, id) => StartValid(r) && Matches(s, r, id) && r.taskId in s.tasks
    case StartLocked(r, id) => StartValid(r) && Matches(s, r, id) && r.taskId in s.tasks
    case StartMarked(r, id) => StartValid(r) && Matches(s, r, id) && r.taskId in s.tasks && s.runs[id].status.Pending?
    case ToggleWaits(_, _) => true
    case ToggleLocked(taskId, _) => taskId in s.tasks
    case ToggleWritten(taskId, enabled, settled) =>
      taskId in s.tasks && settled == if enabled then {} else PendingRuns(s, taskId)
    case ReportReads(p) => |p.recordIds| == |p.report.records|
    case ReportClaims(p, seen) => ReadAs(s, p, seen)
    case ReportShares(p, seen) => ReadAs(s, p, seen) && ClaimStands(s, p)
    case ReportChecks(p, seen) => ReadAs(s, p, seen) && ClaimStands(s, p)
    case ReportWrites(p, seen) => ReadAs(s, p, seen) && ClaimStands(s, p) && ReportStands(s, p) && !Terminal(seen)
    case ReportWritten(p, seen) => ReadAs(s, p, seen) && ClaimStands(s, p) && ReportStands(s, p) && !Terminal(seen)
  }

  /** Whatever is locked is locked by one transaction. */
  ghost predicate LocksOk(db: Db) {
    forall a, b, res :: a in db.txs && b in db.txs && Holds(db.txs[a], res) && Holds(db.txs[b], res) ==> a == b
  }

  ghost predicate TxsOk(db: Db) { forall me :: me in db.txs ==> TxOk(db.server, db.txs[me]) }

  /** A transaction under way has not answered yet. */
  predicate Unanswered(db: Db) { forall me :: me in db.txs ==> me !in db.outcomes }

  ghost predicate Inv(db: Db) { ServerOk(db.server) && LocksOk(db) && TxsOk(db) && Unanswered(db) }

  // ---- steps that commit nothing ----

  lemma PutKeeps(db: Db, me: nat, tx: Tx)
    requires Inv(db) && TxOk(db.server, tx) && (me in db.txs || me !in db.outcomes)
    requires forall res :: Holds(tx, res) ==> (me in db.txs && Holds(db.txs[me], res)) || Free(db, me, res)
    ensures Inv(Put(db, me, tx))
  {
    hide ServerOk, TxOk, Holds;
    var after := Put(db, me, tx);
    forall a, b, res | a in after.txs && b in after.txs && Holds(after.txs[a], res) && Holds(after.txs[b], res) ensures a == b {
      assert a != me ==> a in db.txs && db.txs[a] == after.txs[a];
      assert b != me ==> b in db.txs && db.txs[b] == after.txs[b];
    }
  }

  /** Ending without a commit, with whatever answer. */
  lemma EndKeeps(db: Db, after: Db, me: nat)
    requires Inv(db) && after.server == db.server && after.txs == db.txs - {me}
    requires after.outcomes.Keys <= db.outcomes.Keys + {me}
    ensures Inv(after)
  {
    hide ServerOk, TxOk, Holds;
    forall a, b, res | a in after.txs && b in after.txs && Holds(after.txs[a], res) && Holds(after.txs[b], res) ensures a == b {
      assert db.txs[a] == after.txs[a] && db.txs[b] == after.txs[b];
    }
  }

  // ---- what a commit leaves alone ----

  predicate SameIdentity(a: RunRow, b: RunRow) {
    && b.taskId == a.taskId && b.node == a.node && b.trigger == a.trigger && b.executionKey == a.executionKey
    && b.scheduledFor == a.scheduledFor && b.retryOf == a.retryOf && b.retryFiles == a.retryFiles
  }

  /** How a row goes on over a commit. Only a report can change a terminal row, and only one that a disable settled. */
  ghost predicate RowGoesOn(s: Server, t: Server, id: string)
    requires id in s.runs && id in t.runs
  {
    var a, b := s.runs[id], t.runs[id];
    && SameIdentity(a, b)
    && (b.status.Pending? ==> b == a)
    && (a.status.Pending? ==> !Terminal(b.status) || SettledRow(b) || HasReport(t, id))
    && (a.status.Running? ==> b.status.Running? || HasReport(t, id))
    && (Terminal(a.status) ==> Terminal(b.status) && (b == a || (SettledRow(a) && HasReport(t, id))))
  }

  /** A commit changes only rows and index entries that its transaction holds. */
  ghost predicate Confined(s: Server, t: Server, tx: Tx) {
    && t.tasks.Keys == s.tasks.Keys
    && (forall id :: id in s.runs ==> id in t.runs && RowGoesOn(s, t, id))
    && (forall id :: id in s.rawFiles ==> id in t.rawFiles && t.rawFiles[id] == s.rawFiles[id])
    && (forall id :: id in s.receipts ==> id in t.receipts && t.receipts[id] == s.receipts[id])
    && (forall taskId :: taskId in s.tasks && !Holds(tx, TaskLock(taskId)) ==> t.tasks[taskId] == s.tasks[taskId])
    && (forall id :: id in s.runs && !Holds(tx, RunLock(id)) ==> t.runs[id] == s.runs[id])
    && (forall id :: id in t.runs && id !in s.runs ==>
          Holds(tx, TaskLock(t.runs[id].taskId)) && Holds(tx, KeyIndex(t.runs[id].executionKey)))
    && (forall id :: id in t.receipts && id !in s.receipts ==>
          Holds(tx, ReceiptIndex(id)) && Holds(tx, ReportIndex(t.receipts[id].runId)))
  }

  lemma ReportedStays(s: Server, t: Server, committer: Tx, runId: string)
    requires Confined(s, t, committer) && HasReport(s, runId)
    ensures HasReport(t, runId)
  {
    hide RowGoesOn, Holds;
    var id :| ReportReceiptOf(s, id, runId);
    assert ReportReceiptOf(t, id, runId);
  }

  /** A failed file that was resolved once is resolved to the same target ever after. */
  lemma {:induction false} ResolveStays(s: Server, t: Server, committer: Tx, parent: RunRow, failed: seq<FailedFile>, n: nat)
    requires Confined(s, t, committer) && n <= |failed| && ResolveRetryFiles(s, parent, failed, n).Some?
    ensures ResolveRetryFiles(t, parent, failed, n) == ResolveRetryFiles(s, parent, failed, n)
  {
    if n > 0 {
      ResolveStays(s, t, committer, parent, failed, n - 1);
      FileStays(s, t, committer, parent, failed[n - 1]);
    }
  }

  lemma FileStays(s: Server, t: Server, committer: Tx, parent: RunRow, f: FailedFile)
    requires Confined(s, t, committer) && ResolveFile(s, parent, f).Some?
    ensures ResolveFile(t, parent, f) == ResolveFile(s, parent, f)
  {
    hide HasReport, Holds;
    if f.archiveRef != "" {
      assert RowGoesOn(s, t, s.rawFiles[f.archiveRef].runId);
    }
  }

  /** A parent that could be retried has failures, so no disable settled it, and it stays as it is. */
  lemma ArgsStay(s: Server, t: Server, committer: Tx, a: AcceptArgs)
    requires ArgsOk(s, a) && Confined(s, t, committer)
    ensures ArgsOk(t, a)
  {
    hide TargetsDistinct, HasReport, Holds, ResolveRetryFiles;
    if a.trigger.Retry? {
      assert RowGoesOn(s, t, a.retryOf);
      var parent := s.runs[a.retryOf];
      ResolveStays(s, t, committer, parent, parent.failedFiles.value, |parent.failedFiles.value|);
    }
  }

  lemma ReadyIsPrepared(s: Server, a: AcceptArgs)
    requires RetryReady(s, a)
    ensures a.trigger.Retry? ==> a.retryOf in s.runs && RetryPrepared(s, a.taskId, a.retryOf, a.targets)
  {
    hide ResolveRetryFiles, TargetOf;
    if a.trigger.Retry? {
      var parent := s.runs[a.retryOf];
      ResolvedTargets(s, parent, parent.failedFiles.value, |parent.failedFiles.value|);
    }
  }

  lemma RetryStays(s: Server, t: Server, committer: Tx, tx: Tx)
    requires Confined(s, t, committer) && TxOk(s, tx) && (tx.RetryReads? || tx.RetryParent? || tx.RetryFiles?)
    ensures TxOk(t, tx)
  {
    hide HasReport, Holds, IsOperatorToken;
    if tx.RetryFiles? {
      assert RowGoesOn(s, t, tx.retry.runId);
    }
  }

  lemma PendingStay(s: Server, t: Server, committer: Tx, taskId: string)
    requires Confined(s, t, committer) && !Holds(committer, TaskLock(taskId))
    ensures forall id :: IsPendingManualOf(t, id, taskId) ==> IsPendingManualOf(s, id, taskId)
  {
    hide HasReport;
    forall id | IsPendingManualOf(t, id, taskId) ensures IsPendingManualOf(s, id, taskId) {
      if id in s.runs {
        assert RowGoesOn(s, t, id);
      }
    }
  }

  lemma AcceptStays(s: Server, t: Server, committer: Tx, tx: Tx)
    requires Confined(s, t, committer) && TxOk(s, tx)
    requires tx.AcceptReads? || tx.AcceptWaits? || tx.AcceptChecks? || tx.AcceptInserts? || tx.AcceptInserted?
    requires forall res :: Holds(tx, res) ==> !Holds(committer, res)
    ensures TxOk(t, tx)
  {
    hide HasReport, ArgsOk, IsOperatorToken, RowGoesOn;
    var a := tx.args;
    ArgsStay(s, t, committer, a);
    if tx.AcceptInserts? || tx.AcceptInserted? {
      assert Holds(tx, TaskLock(a.taskId));
      PendingStay(s, t, committer, a.taskId);
    }
    if tx.AcceptInserted? {
      assert Holds(tx, KeyIndex(KeyOf(a)));
      KeyStays(s, t, committer, KeyOf(a));
    }
  }

  lemma KeyStays(s: Server, t: Server, committer: Tx, key: string)
    requires Confined(s, t, committer) && !Holds(committer, KeyIndex(key)) && forall id :: !RunHasKey(s, id, key)
    ensures forall id :: !RunHasKey(t, id, key)
  {
    hide HasReport;
    forall id ensures !RunHasKey(t, id, key) {
      if id in s.runs {
        assert RowGoesOn(s, t, id) && !RunHasKey(s, id, key);
      }
    }
  }

  lemma StartStays(s: Server, t: Server, committer: Tx, tx: Tx)
    requires Confined(s, t, committer) && TxOk(s, tx)
    requires tx.StartReads? || tx.StartWaitsTask? || tx.StartWaitsRun? || tx.StartLocked? || tx.StartMarked?
    requires forall res :: Holds(tx, res) ==> !Holds(committer, res)
    ensures TxOk(t, tx)
  {
    hide HasReport, StartValid;
    if !tx.StartReads? {
      assert RowGoesOn(s, t, tx.id);
    }
    if tx.StartMarked? {
      assert Holds(tx, RunLock(tx.id));
    }
  }

  lemma ToggleStays(s: Server, t: Server, committer: Tx, tx: Tx)
    requires Confined(s, t, committer) && TxOk(s, tx) && (tx.ToggleWaits? || tx.ToggleLocked? || tx.ToggleWritten?)
    requires forall res :: Holds(tx, res) ==> !Holds(committer, res)
    ensures TxOk(t, tx)
  {
    hide HasReport, RowGoesOn;
    if tx.ToggleWritten? && !tx.enabled {
      assert Holds(tx, TaskLock(tx.taskId));
      PendingStay(s, t, committer, tx.taskId);
      forall id | id in PendingRuns(s, tx.taskId) ensures IsPendingManualOf(t, id, tx.taskId) {
        assert Holds(tx, RunLock(id));
      }
      assert PendingRuns(t, tx.taskId) == PendingRuns(s, tx.taskId);
    }
  }

  lemma ListStands(a: map<string, RawFileRow>, b: map<string, RawFileRow>, p: ReportArgs,
                   targets: Option<seq<RetryFile>>)
    requires p.report.failedFiles.Some?
    requires FailedFilesValid(a, p.report.runId, targets, p.report.status, p.report.failedFiles.value)
    requires forall id :: id in a ==> id in b && b[id] == a[id]
    ensures FailedFilesValid(b, p.report.runId, targets, p.report.status, p.report.failedFiles.value)
  {
    var failures := p.report.failedFiles.value;
    forall i | 0 <= i < |failures| ensures FailedFileAllowed(b, p.report.runId, targets, failures[i]) {
      assert FailedFileAllowed(a, p.report.runId, targets, failures[i]);
    }
  }

  lemma ReportStandsOn(s: Server, t: Server, committer: Tx, p: ReportArgs)
    requires ReportStands(s, p) && Confined(s, t, committer)
    ensures ReportStands(t, p)
  {
    hide FailedFilesValid, HasReport, Holds;
    assert RowGoesOn(s, t, p.report.runId);
    if p.report.failedFiles.Some? {
      ListStands(s.rawFiles, t.rawFiles, p, s.runs[p.report.runId].retryFiles);
    }
    forall i | 0 <= i < |p.report.records|
      ensures IdsPresent(p.report.records[i]) && RecordStorable(t.rawFiles, p.report.runId, p.report.records[i])
    {
      assert RecordStorable(s.rawFiles, p.report.runId, p.report.records[i]);
    }
  }

  lemma ReadStays(s: Server, t: Server, committer: Tx, p: ReportArgs, seen: RunStatus)
    requires ReadAs(s, p, seen) && Confined(s, t, committer)
    ensures ReadAs(t, p, seen)
  {
    hide HasReport, Holds;
    assert RowGoesOn(s, t, p.report.runId);
    if HasReport(s, p.report.runId) {
      ReportedStays(s, t, committer, p.report.runId);
    }
  }

  lemma ClaimStays(s: Server, t: Server, committer: Tx, p: ReportArgs)
    requires ClaimStands(s, p) && Confined(s, t, committer)
    requires !Holds(committer, ReceiptIndex(ReportReceiptId(p.report)))
    requires !Holds(committer, ReportIndex(p.report.runId))
    ensures ClaimStands(t, p)
  {
    hide RowGoesOn;
    forall id ensures !ReportReceiptOf(t, id, p.report.runId) {
      assert !ReportReceiptOf(s, id, p.report.runId);
    }
  }

  lemma ReportStays(s: Server, t: Server, committer: Tx, tx: Tx)
    requires Confined(s, t, committer) && TxOk(s, tx) && (tx.ReportReads? || tx.ReportClaims? || Claimed(tx))
    requires forall res :: Holds(tx, res) ==> !Holds(committer, res)
    ensures TxOk(t, tx)
  {
    hide Confined, ReportStands, ReadAs, ClaimStands;
    var p := tx.rep;
    if !tx.ReportReads? {
      ReadStays(s, t, committer, p, tx.seen);
    }
    if tx.ReportWrites? || tx.ReportWritten? {
      ReportStandsOn(s, t, committer, p);
    }
    if Claimed(tx) {
      assert Holds(tx, ReceiptIndex(ReportReceiptId(p.report))) && Holds(tx, ReportIndex(p.report.runId));
      ClaimStays(s, t, committer, p);
    }
  }

  /** What a transaction has checked under its locks stays true while another one commits. */
  lemma TxStays(s: Server, t: Server, committer: Tx, tx: Tx)
    requires Confined(s, t, committer) && TxOk(s, tx) && forall res :: Holds(tx, res) ==> !Holds(committer, res)
    ensures TxOk(t, tx)
  {
    hide Confined, TxOk, Holds;
    match tx
    case RetryReads(_) => RetryStays(s, t, committer, tx);
    case RetryParent(_) => RetryStays(s, t, committer, tx);
    case RetryFiles(_) => RetryStays(s, t, committer, tx);
    case AcceptReads(_) => AcceptStays(s, t, committer, tx);
    case AcceptWaits(_) => AcceptStays(s, t, committer, tx);
    case AcceptChecks(_) => AcceptStays(s, t, committer, tx);
    case AcceptInserts(_) => AcceptStays(s, t, committer, tx);
    case AcceptInserted(_) => AcceptStays(s, t, committer, tx);
    case StartReads(_) => StartStays(s, t, committer, tx);
    case StartWaitsTask(_, _) => StartStays(s, t, committer, tx);
    case StartWaitsRun(_, _) => StartStays(s, t, committer, tx);
    case StartLocked(_, _) => StartStays(s, t, committer, tx);
    case StartMarked(_, _) => StartStays(s, t, committer, tx);
    case ToggleWaits(_, _) => ToggleStays(s, t, committer, tx);
    case ToggleLocked(_, _) => ToggleStays(s, t, committer, tx);
    case ToggleWritten(_, _, _) => ToggleStays(s, t, committer, tx);
    case _ => ReportStays(s, t, committer, tx);
  }

  lemma CommitKeeps(db: Db, after: Db, me: nat)
    requires Inv(db) && me in db.txs && after.txs == db.txs - {me} && after.outcomes.Keys <= db.outcomes.Keys + {me}
    requires ServerOk(after.server) && Confined(db.server, after.server, db.txs[me])
    ensures Inv(after)
  {
    hide ServerOk, TxOk, Holds, Confined;
    EndKeeps(db, after.(server := db.server), me);
    forall other | other in after.txs ensures TxOk(after.server, after.txs[other]) {
      forall res | Holds(db.txs[other], res) ensures !Holds(db.txs[me], res) {}
      TxStays(db.server, after.server, db.txs[me], db.txs[other]);
    }
    LocksAfterEnd(db, after, me);
  }

  lemma LocksAfterEnd(db: Db, after: Db, me: nat)
    requires LocksOk(db) && after.txs == db.txs - {me}
    ensures LocksOk(after)
  {
    hide Holds;
    forall a, b, res | a in after.txs && b in after.txs && Holds(after.txs[a], res) && Holds(after.txs[b], res) ensures a == b {
      assert db.txs[a] == after.txs[a] && db.txs[b] == after.txs[b];
    }
  }

  // ---- each commit is one atomic transaction ----

  /** The whole request, executed alone: a retry resolves its parent anew. */
  ghost function AcceptAlone(s: Server, a: AcceptArgs, newId: string): (Server, Outcome) {
    var (t, reply) := if a.trigger.Retry? then RequestRetryRun(s, a.retryOf, a.token, a.executable, newId)
                      else AcceptManual(s, a.trigger, a.taskId, a.retryOf, a.token, a.targets, a.executable, newId);
    (t, Answered(reply))
  }

  ghost function RetryAlone(s: Server, r: RetryArgs, newId: string): (Server, Outcome) {
    var (t, reply) := RequestRetryRun(s, r.runId, r.token, r.executable, newId);
    (t, Answered(reply))
  }

  /** As long as the parent still resolves to the targets that were prepared, and it does, the whole retry is the acceptance of
      the prepared targets. */
  lemma AloneIsManual(s: Server, a: AcceptArgs, newId: string)
    requires ServerOk(s) && ArgsOk(s, a)
    ensures var (t, reply) := AcceptManual(s, a.trigger, a.taskId, a.retryOf, a.token, a.targets, a.executable, newId);
            AcceptAlone(s, a, newId) == (t, Answered(reply))
  {
    hide ServerOk, TargetsDistinct, IsOperatorToken, ResolveRetryFiles, NewRun;
    if a.trigger.Retry? {
      RetryRow(s, a.retryOf);
      var found := FindByExecutionKey(s, KeyOf(a));
      if found.Some? {
        RetryRow(s, found.value);
      }
    }
  }

  /** A retry is of the task of its parent. */
  lemma RetryRow(s: Server, id: string)
    requires ServerOk(s) && id in s.runs
    ensures id != "" && (s.runs[id].trigger.Retry? ==>
                           s.runs[id].retryOf in s.runs && s.runs[id].taskId == s.runs[s.runs[id].retryOf].taskId)
  {
    hide ReceiptOk, HasReport, OneReportPerRun, KeysUnique, OnePendingPerTask, RawFilesOk, RecordsOk;
    assert RunOk(s, id);
  }

  /** The commit of an accepted run is the atomic acceptance, on the tables as they are at that moment. */
  lemma AcceptCommit(s: Server, tx: Tx, newId: string)
    requires ServerOk(s) && tx.AcceptInserted? && TxOk(s, tx) && newId !in s.runs && newId != ""
    ensures var a := tx.args;
            var t := s.(runs := s.runs[newId := AcceptedRun(s, a)]);
            && AcceptAlone(s, a, newId) == (t, Answered(ManualAccepted(newId, Pending, false)))
            && ServerOk(t) && Confined(s, t, tx)
  {
    hide ServerOk, RetryPrepared, RetryReady, TargetsDistinct, IsOperatorToken, HasReport, Confined, AcceptAlone;
    var a := tx.args;
    ReadyIsPrepared(s, a);
    AloneIsManual(s, a, newId);
    assert forall id :: !RunHasKey(s, id, KeyOf(a));
    assert forall id :: !IsPendingManualOf(s, id, a.taskId);
    AcceptManualKeepsServer(s, a.trigger, a.taskId, a.retryOf, a.token, a.targets, a.executable, newId);
    AcceptConfined(s, tx, newId);
  }

  lemma AcceptConfined(s: Server, tx: Tx, newId: string)
    requires tx.AcceptInserted? && newId !in s.runs && tx.args.taskId in s.tasks
    ensures Confined(s, s.(runs := s.runs[newId := AcceptedRun(s, tx.args)]), tx)
  {
    hide HasReport;
  }

  lemma OneRun(s: Server, key: string, id: string)
    requires ServerOk(s) && RunHasKey(s, id, key)
    ensures FindByExecutionKey(s, key) == Some(id)
  {
    hide RunOk, ReceiptOk, OneReportPerRun, OnePendingPerTask, RawFilesOk, RecordsOk;
  }

  function MarkedRunning(s: Server, id: string, startedAt: string): Server
    requires id in s.runs
  {
    s.(runs := s.runs[id := s.runs[id].(status := Running, startedAt := startedAt)])
  }

  /** The commit of a start is the atomic start of the pending run. */
  lemma StartCommit(s: Server, tx: Tx)
    requires ServerOk(s) && tx.StartMarked? && TxOk(s, tx)
    ensures var t := MarkedRunning(s, tx.id, tx.start.startedAt);
            && StartManual(s, tx.start) == (t, Started(StartAnswer(tx.id, false, Running)))
            && ServerOk(t) && Confined(s, t, tx)
  {
    hide ServerOk, HasReport, Calendar.IsRfc3339Utc;
    OneRun(s, tx.start.executionKey, tx.id);
    var run := s.runs[tx.id].(status := Running, startedAt := tx.start.startedAt);
    SettleKeepsServer(s, s.(runs := s.runs[tx.id := run]), tx.id, run);
  }

  lemma ToggleIsAtomic(s: Server, taskId: string, enabled: bool, settled: set<string>)
    requires taskId in s.tasks && settled == if enabled then {} else PendingRuns(s, taskId)
    ensures SetTaskEnabled(s, taskId, enabled, true) == WithFlag(Settled(s, settled), taskId, enabled)
  {
    assert Settled(s, settled).runs == (if enabled then s else FailPendingManualRuns(s, taskId)).runs;
  }

  lemma ToggledRow(s: Server, taskId: string, enabled: bool, settled: set<string>, id: string)
    requires taskId in s.tasks && settled == (if enabled then {} else PendingRuns(s, taskId)) && id in s.runs
    ensures RowGoesOn(s, WithFlag(Settled(s, settled), taskId, enabled), id)
  {
    hide HasReport;
  }

  lemma ToggleConfined(s: Server, tx: Tx)
    requires tx.ToggleWritten? && TxOk(s, tx)
    ensures Confined(s, WithFlag(Settled(s, tx.settled), tx.taskId, tx.enabled), tx)
  {
    hide RowGoesOn, PendingRuns;
    forall id | id in s.runs ensures RowGoesOn(s, WithFlag(Settled(s, tx.settled), tx.taskId, tx.enabled), id) {
      ToggledRow(s, tx.taskId, tx.enabled, tx.settled, id);
    }
  }

  /** The commit of a disable or an enable is the atomic one. */
  lemma ToggleCommit(s: Server, tx: Tx)
    requires ServerOk(s) && tx.ToggleWritten? && TxOk(s, tx)
    ensures var t := WithFlag(Settled(s, tx.settled), tx.taskId, tx.enabled);
            SetTaskEnabled(s, tx.taskId, tx.enabled, true) == t && ServerOk(t) && Confined(s, t, tx)
  {
    hide ServerOk, Confined, SetTaskEnabled, WithFlag, Settled, PendingRuns, Grows;
    ToggleIsAtomic(s, tx.taskId, tx.enabled, tx.settled);
    SetTaskEnabledKeepsServer(s, tx.taskId, tx.enabled, true);
    ToggleConfined(s, tx);
  }

  // ---- the commit of a report ----

  lemma ClaimAcquires(s: Server, p: ReportArgs)
    requires ClaimStands(s, p)
    ensures ClaimOf(s, p).Acquired?
  {
    hide ReportFingerprint;
    assert forall other :: !ReportReceiptOf(s, other, p.report.runId);
  }

  lemma AcquiredStands(s: Server, p: ReportArgs)
    requires ClaimOf(s, p).Acquired?
    ensures ClaimStands(s, p)
  {
    hide ReportFingerprint;
  }

  /** The content checks pass exactly when the report stands and its rules are usable. */
  lemma NothingRefused(s: Server, p: ReportArgs, rulesUsable: bool)
    requires p.report.runId in s.runs
    ensures ContentRefusal(s, p.report, rulesUsable).None? <==> ReportStands(s, p) && rulesUsable
  {
    hide FailedFilesValid, RecordStorable, IdsPresent;
  }

  /** What the atomic acceptance makes of a report whose claim stands. */
  lemma AcceptClaimed(s: Server, p: ReportArgs, rulesUsable: bool)
    requires ReportOwned(s, p) && ClaimStands(s, p)
    ensures var refusal := if Terminal(s.runs[p.report.runId].status) then Some(RunFinished)
                           else ContentRefusal(s, p.report, rulesUsable);
            AcceptReport(s, p.report, p.recordIds, p.qcIds, p.alertIds, rulesUsable)
            == if refusal.Some? then (s, Refused(refusal.value)) else (Reported(s, p), ReportDone(p))
  {
    hide ReportFingerprint, NewRecords, ContentRefusal, ClaimReceipt, HasReport, FinishedRun, ClaimStands;
    ClaimAcquires(s, p);
  }

  /** A claimed report can only find its run unfinished, or settled by a disable after it had read it as pending. */
  lemma ClaimedFinds(s: Server, p: ReportArgs, seen: RunStatus)
    requires ReadAs(s, p, seen) && ClaimStands(s, p) && !Terminal(seen)
    ensures var run := s.runs[p.report.runId];
            && (seen.Running? ==> run.status.Running?)
            && (Terminal(run.status) ==> seen.Pending? && SettledRow(run))
  {
    hide HasReport;
  }

  lemma ReportedRow(s: Server, p: ReportArgs, seen: RunStatus, id: string)
    requires ReadAs(s, p, seen) && ReportOwned(s, p) && ClaimStands(s, p) && !Terminal(seen) && id in s.runs
    ensures RowGoesOn(s, Reported(s, p), id)
  {
    hide ReportFingerprint, NewRecords, ClaimStands, ReadAs;
    var t := Reported(s, p);
    ClaimedFinds(s, p, seen);
    assert ReportReceiptOf(t, ReportReceiptId(p.report), p.report.runId);
  }

  lemma ReportConfined(s: Server, tx: Tx)
    requires tx.ReportWritten? && TxOk(s, tx)
    ensures Confined(s, Reported(s, tx.rep), tx)
  {
    hide ReportFingerprint, NewRecords, ReportStands, ClaimStands, ReadAs, RowGoesOn, HasReport;
    var p := tx.rep;
    WrittenOwned(s, p, tx.seen);
    UnderNoReceipt(s, p);
    forall id | id in s.runs ensures RowGoesOn(s, Reported(s, p), id) {
      ReportedRow(s, p, tx.seen, id);
    }
  }

  lemma WrittenOwned(s: Server, p: ReportArgs, seen: RunStatus)
    requires ReadAs(s, p, seen)
    ensures ReportOwned(s, p)
  {
    hide HasReport, ReportOwned;
  }

  lemma UnderNoReceipt(s: Server, p: ReportArgs)
    requires ClaimStands(s, p)
    ensures ReportReceiptId(p.report) !in s.receipts
  {
    hide HasReport;
  }

  /** The tables as they would be if the disable had left the run running. */
  function Revived(s: Server, id: string): Server
    requires id in s.runs
  {
    s.(runs := s.runs[id := s.runs[id].(status := Running, failedFiles := None)])
  }

  /** A settled run has no failures, so no retry repeats it. */
  lemma SettledHasNoChild(s: Server, id: string, child: string)
    requires id in s.runs && SettledRow(s.runs[id]) && child in s.runs && RunOk(s, child)
    ensures s.runs[child].trigger.Retry? ==> s.runs[child].retryOf != id
  {
    hide HasReport, TargetsDistinct, FailureKeepsTarget;
  }

  lemma ReviveKeepsRun(s: Server, id: string, other: string)
    requires id in s.runs && other in s.runs && SettledRow(s.runs[id]) && !HasReport(s, id)
    requires RunOk(s, other) && RunOk(s, id)
    ensures RunOk(Revived(s, id), other)
  {
    hide HasReport, TargetsDistinct, FailureKeepsTarget;
    HasReportFrame(s, Revived(s, id), other);
    SettledHasNoChild(s, id, other);
  }

  lemma ReviveKeepsReceipt(s: Server, id: string, receipt: ReceiptId)
    requires id in s.runs && !HasReport(s, id) && receipt in s.receipts && ReceiptOk(s, receipt)
    ensures ReceiptOk(Revived(s, id), receipt)
  {
    hide ManifestFingerprint, ReportFingerprint, NewRecords, RecordsOf;
    var t := Revived(s, id);
    if receipt.kind.ManifestKind? {
      var m :| ManifestAnswer(s, receipt, m);
      assert ManifestAnswer(t, receipt, m);
    } else {
      var r :| ReportAnswer(s, receipt, r);
      assert r.runId != id by { assert ReportReceiptOf(s, receipt, r.runId); }
      assert ReportAnswer(t, receipt, r);
    }
  }

  lemma ReviveKeepsServer(s: Server, id: string)
    requires ServerOk(s) && id in s.runs && SettledRow(s.runs[id]) && !HasReport(s, id)
    ensures ServerOk(Revived(s, id))
  {
    hide RunOk, ReceiptOk, HasReport;
    var t := Revived(s, id);
    forall other | other in t.runs ensures RunOk(t, other) {
      ReviveKeepsRun(s, id, other);
    }
    forall receipt | receipt in t.receipts ensures ReceiptOk(t, receipt) {
      ReviveKeepsReceipt(s, id, receipt);
    }
    forall a, b, runId | ReportReceiptOf(t, a, runId) && ReportReceiptOf(t, b, runId) ensures a == b {
      assert ReportReceiptOf(s, a, runId) && ReportReceiptOf(s, b, runId);
    }
    PendingFrame(s, t);
  }

  /** Overwriting a settled run gives the tables that the atomic report would have given, had it been running. */
  lemma OverwriteIsRevivedReport(s: Server, p: ReportArgs)
    requires ReportOwned(s, p) && ClaimStands(s, p) && ReportStands(s, p) && SettledRow(s.runs[p.report.runId])
    ensures AcceptReport(Revived(s, p.report.runId), p.report, p.recordIds, p.qcIds, p.alertIds, true)
         == (Reported(s, p), ReportDone(p))
  {
    hide ReportFingerprint, NewRecords, ReportStands, ContentRefusal, AcceptReport, FailedFilesValid;
    var t := Revived(s, p.report.runId);
    HasReportFrame(s, t, p.report.runId);
    RevivedStands(s, p);
    NothingRefused(t, p, true);
    AcceptClaimed(t, p, true);
    assert Reported(t, p).runs == Reported(s, p).runs;
  }

  lemma RevivedStands(s: Server, p: ReportArgs)
    requires ReportStands(s, p)
    ensures ReportStands(Revived(s, p.report.runId), p)
  {
    hide FailedFilesValid, RecordStorable, IdsPresent;
  }

  /** The commit of a report keeps the tables in order, and is the atomic acceptance if and only if the run is not
      finished at that moment. Otherwise a disable settled the run after the report had read it as pending, and the report
      overwrites the settled row. */
  lemma ReportCommit(s: Server, tx: Tx)
    requires ServerOk(s) && tx.ReportWritten? && TxOk(s, tx)
    ensures var p := tx.rep;
            && (AcceptReport(s, p.report, p.recordIds, p.qcIds, p.alertIds, true) == (Reported(s, p), ReportDone(p))
                <==> !Terminal(s.runs[p.report.runId].status))
            && (Terminal(s.runs[p.report.runId].status) ==> tx.seen.Pending? && SettledRow(s.runs[p.report.runId]))
            && ServerOk(Reported(s, p)) && Confined(s, Reported(s, p), tx)
  {
    hide ServerOk, ReportStands, Confined, AcceptReport, HasReport, ClaimStands, ContentRefusal, Reported;
    var p := tx.rep;
    WrittenOwned(s, p, tx.seen);
    ClaimedFinds(s, p, tx.seen);
    NothingRefused(s, p, true);
    AcceptClaimed(s, p, true);
    ReportConfined(s, tx);
    if Terminal(s.runs[p.report.runId].status) {
      UnclaimedHasNoReport(s, p);
      ReviveKeepsServer(s, p.report.runId);
      OverwriteIsRevivedReport(s, p);
      AcceptReportKeepsServer(Revived(s, p.report.runId), p.report, p.recordIds, p.qcIds, p.alertIds, true);
    } else {
      AcceptReportKeepsServer(s, p.report, p.recordIds, p.qcIds, p.alertIds, true);
    }
  }

  lemma UnclaimedHasNoReport(s: Server, p: ReportArgs)
    requires ClaimStands(s, p)
    ensures !HasReport(s, p.report.runId)
  {
    hide HasReport;
  }

  // ---- the answers ----

  /** What the same transaction would do and answer if it ran alone on these tables. */
  ghost function Alone(s: Server, tx: Tx, step: Step): (result: (Server, Outcome)) {
    match tx
    case ToggleWaits(taskId, enabled) => (SetTaskEnabled(s, taskId, enabled, true), Toggled(taskId in s.tasks))
    case ToggleLocked(taskId, enabled) => ToggleAlone(s, taskId, enabled, step.ToggleTakes? && step.executable)
    case ToggleWritten(taskId, enabled, _) => ToggleAlone(s, taskId, enabled, true)
    case StartReads(r) => StartAlone(s, r)
    case StartWaitsTask(r, _) => StartAlone(s, r)
    case StartWaitsRun(r, _) => StartAlone(s, r)
    case StartLocked(r, _) => StartAlone(s, r)
    case StartMarked(r, _) => StartAlone(s, r)
    case ReportReads(p) => ReportAlone(s, p, true)
    case ReportClaims(p, _) => ReportAlone(s, p, true)
    case ReportShares(p, _) => ReportAlone(s, p, true)
    case ReportChecks(p, _) => ReportAlone(s, p, step.ReportTakes? && step.rulesUsable)
    case ReportWrites(p, _) => ReportAlone(s, p, true)
    case ReportWritten(p, _) => ReportAlone(s, p, true)
    case RetryReads(r) => RetryAlone(s, r, "")
    case RetryParent(r) => RetryAlone(s, r, "")
    case RetryFiles(r) => RetryAlone(s, r, "")
    case _ => AcceptAlone(s, tx.args, if step.AcceptTakes? then step.newId else "")
  }

  ghost function StartAlone(s: Server, r: StartRequest): (Server, Outcome) {
    var (t, reply) := StartManual(s, r);
    (t, Answered(reply))
  }

  function ToggleAlone(s: Server, taskId: string, enabled: bool, executable: bool): (Server, Outcome) {
    (SetTaskEnabled(s, taskId, enabled, executable), Toggled(taskId in s.tasks && !(enabled && !executable)))
  }

  ghost function ReportAlone(s: Server, p: ReportArgs, rulesUsable: bool): (Server, Outcome) {
    if |p.recordIds| != |p.report.records| then (s, Answered(Refused(Invalid)))
    else
      var (t, reply) := AcceptReport(s, p.report, p.recordIds, p.qcIds, p.alertIds, rulesUsable);
      (t, Answered(reply))
  }

  /** Nothing that the transaction read before it had its locks has been changed against it: the key that an accept or a
      retry did not find is still unused, or used for the same request when it comes to the insert; and a run that a report
      did not find finished is not finished now. */
  ghost predicate Undisturbed(s: Server, tx: Tx) {
    match tx
    case RetryParent(r) => FindByExecutionKey(s, OperatorKey(r.token)).None?
    case RetryFiles(r) => FindByExecutionKey(s, OperatorKey(r.token)).None?
    case AcceptWaits(a) => FindByExecutionKey(s, KeyOf(a)).None?
    case AcceptChecks(a) => FindByExecutionKey(s, KeyOf(a)).None?
    case AcceptInserts(a) =>
      var found := FindByExecutionKey(s, KeyOf(a));
      found.Some? ==> SameRequest(s.runs[found.value], a)
    case ReportChecks(p, seen) => p.report.runId in s.runs && Terminal(s.runs[p.report.runId].status) ==> Terminal(seen)
    case ReportWritten(p, seen) => p.report.runId in s.runs && Terminal(s.runs[p.report.runId].status) ==> Terminal(seen)
    case _ => true
  }

  ghost predicate Ends(db: Db, after: Db, me: nat) { me in db.txs && me !in after.txs && me in after.outcomes }

  /** What the step did to the tables and answered is what the transaction alone would do and answer now. */
  ghost predicate AsAlone(db: Db, after: Db, me: nat, step: Step)
    requires me in db.txs && me in after.outcomes
  {
    Alone(db.server, db.txs[me], step) == (after.server, after.outcomes[me])
  }

  lemma AcceptAnswered(db: Db, after: Db, me: nat, newId: string)
    requires Inv(db) && AcceptStep(db, after, me, newId) && Ends(db, after, me)
    ensures AsAlone(db, after, me, AcceptTakes(newId)) <==> Undisturbed(db.server, db.txs[me])
  {
    hide Inv, ServerOk, RetryReady, TargetsDistinct, IsOperatorToken, AcceptAlone;
    var s, tx := db.server, db.txs[me];
    var a := tx.args;
    TxPart(db, me);
    AloneIsManual(s, a, newId);
    var found := FindByExecutionKey(s, KeyOf(a));
    if tx.AcceptInserted? {
      AcceptCommit(s, tx, newId);
      assert found.None?;
    } else if found.Some? {
      var reply := if SameRequest(s.runs[found.value], a) then ManualAccepted(found.value, s.runs[found.value].status, true)
                   else Refused(KeyReused);
      assert !tx.AcceptReads? || IsOperatorToken(a.token) ==>
          AcceptManual(s, a.trigger, a.taskId, a.retryOf, a.token, a.targets, a.executable, newId) == (s, reply);
    } else {
      assert forall id :: !RunHasKey(s, id, KeyOf(a));
      AcceptUnderNoKey(s, a, newId);
    }
  }

  /** With the key unused, the atomic acceptance refuses for the reason the checks give, in their order. */
  lemma AcceptUnderNoKey(s: Server, a: AcceptArgs, newId: string)
    requires forall id :: !RunHasKey(s, id, KeyOf(a))
    ensures AcceptRefusal(s, a).Some? && IsOperatorToken(a.token) ==>
              AcceptManual(s, a.trigger, a.taskId, a.retryOf, a.token, a.targets, a.executable, newId)
              == (s, Refused(AcceptRefusal(s, a).value))
    ensures CanAccept(s, a) && !NoPending(s, a.taskId) ==> AcceptRefusal(s, a) == Some(PendingExists)
  {
    hide IsOperatorToken;
    assert FindByExecutionKey(s, KeyOf(a)).None?;
    forall id | IsPendingManualOf(s, id, a.taskId) ensures s.runs[id].executionKey != KeyOf(a) {
      assert !RunHasKey(s, id, KeyOf(a));
    }
  }

  lemma RetryAnswered(db: Db, after: Db, me: nat)
    requires Inv(db) && RetryStep(db, after, me) && Ends(db, after, me)
    ensures AsAlone(db, after, me, RetryTakes) <==> Undisturbed(db.server, db.txs[me])
  {
    hide Inv, ServerOk, IsOperatorToken, ResolveRetryFiles;
    TxPart(db, me);
  }

  lemma StartAnswered(db: Db, after: Db, me: nat)
    requires Inv(db) && StartStep(db, after, me) && Ends(db, after, me)
    ensures AsAlone(db, after, me, StartTakes)
  {
    hide Inv, ServerOk, Confined, HasReport, Free;
    var s, tx := db.server, db.txs[me];
    TxPart(db, me);
    if tx.StartMarked? {
      StartCommit(s, tx);
    } else if !tx.StartReads? {
      OneRun(s, tx.start.executionKey, tx.id);
    }
  }

  lemma ToggleAnswered(db: Db, after: Db, me: nat, executable: bool)
    requires Inv(db) && ToggleStep(db, after, me, executable) && Ends(db, after, me)
    ensures AsAlone(db, after, me, ToggleTakes(executable))
  {
    hide Inv, ServerOk, Confined, Settled, WithFlag, Free;
    TxPart(db, me);
    if db.txs[me].ToggleWritten? {
      ToggleCommit(db.server, db.txs[me]);
    }
  }

  lemma ReportAnswered(db: Db, after: Db, me: nat, rulesUsable: bool)
    requires Inv(db) && ReportStep(db, after, me, rulesUsable) && Ends(db, after, me)
    ensures AsAlone(db, after, me, ReportTakes(rulesUsable)) <==> Undisturbed(db.server, db.txs[me])
  {
    hide Inv, ServerOk, Confined, Free, ReportStands, ContentRefusal, ClaimReceipt, ReportFingerprint, NewRecords,
      FinishedRun, ClaimStands, HasReport;
    var s, tx := db.server, db.txs[me];
    var p := tx.rep;
    TxPart(db, me);
    if tx.ReportChecks? {
      ContentReasons(s, p, rulesUsable);
      AcceptClaimed(s, p, rulesUsable);
    } else if tx.ReportWritten? {
      ReportCommit(s, tx);
      ClaimedFinds(s, p, tx.seen);
    }
  }

  lemma ContentReasons(s: Server, p: ReportArgs, rulesUsable: bool)
    requires p.report.runId in s.runs
    ensures ContentRefusal(s, p.report, rulesUsable) != Some(RunFinished)
  {
  }

  /** Every answer is the one the same transaction would give if it ran alone at the moment it ends, tables included, if
      and only if nothing it had read before it had its locks was changed against it. */
  lemma AnswerIsAtomicIff(db: Db, after: Db, me: nat, step: Step)
    requires Inv(db) && Takes(db, after, me, step) && Ends(db, after, me) && !step.AbortTakes?
    ensures AsAlone(db, after, me, step) <==> Undisturbed(db.server, db.txs[me])
  {
    hide Inv, RetryStep, AcceptStep, StartStep, ToggleStep, ReportStep, AsAlone;
    match step
    case BeginStep(_) =>
    case RetryTakes => RetryAnswered(db, after, me);
    case AcceptTakes(newId) => AcceptAnswered(db, after, me, newId);
    case StartTakes => StartUndisturbed(db, after, me);
    case ToggleTakes(executable) => ToggleUndisturbed(db, after, me, executable);
    case ReportTakes(rulesUsable) => ReportAnswered(db, after, me, rulesUsable);
    case AbortTakes =>
  }

  lemma StartUndisturbed(db: Db, after: Db, me: nat)
    requires Inv(db) && StartStep(db, after, me) && Ends(db, after, me)
    ensures AsAlone(db, after, me, StartTakes) && Undisturbed(db.server, db.txs[me])
  {
    hide Inv, AsAlone;
    StartAnswered(db, after, me);
  }

  lemma ToggleUndisturbed(db: Db, after: Db, me: nat, executable: bool)
    requires Inv(db) && ToggleStep(db, after, me, executable) && Ends(db, after, me)
    ensures AsAlone(db, after, me, ToggleTakes(executable)) && Undisturbed(db.server, db.txs[me])
  {
    hide Inv, AsAlone;
    ToggleAnswered(db, after, me, executable);
  }

  /** The insert that finds its key taken answers with the run that took it, without comparing the request. That is the
      answer of the atomic transaction if and only if trigger, task and parent agree. */
  lemma RacedInsertAnswer(db: Db, after: Db, me: nat, newId: string, id: string)
    requires Inv(db) && AcceptStep(db, after, me, newId) && db.txs[me].AcceptInserts?
    requires RunHasKey(db.server, id, KeyOf(db.txs[me].args))
    ensures Ends(db, after, me) && after.server == db.server
    ensures after.outcomes[me] == Answered(ManualAccepted(id, db.server.runs[id].status, true))
    ensures AsAlone(db, after, me, AcceptTakes(newId)) <==> SameRequest(db.server.runs[id], db.txs[me].args)
  {
    hide Inv, ServerOk, AsAlone, ArgsOk;
    TxPart(db, me);
    OneRun(db.server, KeyOf(db.txs[me].args), id);
    AcceptAnswered(db, after, me, newId);
  }

  // ---- every step ----

  datatype Atomic = AtomicAccept(args: AcceptArgs, newId: string) | AtomicStart(start: StartRequest, id: string)
                  | AtomicToggle(taskId: string, enabled: bool) | AtomicReport(rep: ReportArgs)

  /** One whole transaction, executed alone on the tables, and answered with success. */
  ghost predicate Atomically(s: Server, t: Server, op: Atomic) {
    match op
    case AtomicAccept(a, newId) =>
      newId !in s.runs && ArgsOk(s, a) && AcceptAlone(s, a, newId) == (t, Answered(ManualAccepted(newId, Pending, false)))
    case AtomicStart(r, id) => StartManual(s, r) == (t, Started(StartAnswer(id, false, Running)))
    case AtomicToggle(taskId, enabled) => taskId in s.tasks && t == SetTaskEnabled(s, taskId, enabled, true)
    case AtomicReport(p) =>
      && |p.recordIds| == |p.report.records|
      && AcceptReport(s, p.report, p.recordIds, p.qcIds, p.alertIds, true) == (t, ReportDone(p))
  }

  /** One atomic transaction on the tables as they are, or no change. */
  ghost predicate Serial(s: Server, t: Server) { t == s || exists op :: Atomically(s, t, op) }

  /** Likewise, with a report only for a run that is running: so a run goes from pending to running to finished, or from
      pending to failed when its task is disabled. */
  ghost predicate Orderly(s: Server, t: Server) {
    || t == s
    || exists op :: Atomically(s, t, op) && (op.AtomicReport? ==> OfRunning(s, op.rep))
  }

  /** The step commits a report. */
  ghost predicate Commits(db: Db, after: Db, me: nat, p: ReportArgs) {
    && me in db.txs && db.txs[me].ReportWritten? && db.txs[me].rep == p
    && me !in after.txs && me !in db.outcomes && me in after.outcomes
  }

  /** The step commits a report of a run that is finished already. */
  ghost predicate Overwrites(db: Db, after: Db) {
    exists me, p :: Commits(db, after, me, p) && OfFinished(db.server, p)
  }

  predicate OfFinished(s: Server, p: ReportArgs) { p.report.runId in s.runs && Terminal(s.runs[p.report.runId].status) }

  predicate OfRunning(s: Server, p: ReportArgs) { p.report.runId in s.runs && s.runs[p.report.runId].status.Running? }

  /** The step commits a report of a run that is not running. */
  ghost predicate CommitsEarly(db: Db, after: Db) {
    exists me, p :: Commits(db, after, me, p) && !OfRunning(db.server, p)
  }

  lemma BeginKeeps(db: Db, after: Db, me: nat, tx: Tx)
    requires Inv(db) && Begin(db, after, me, tx)
    ensures Inv(after) && after.server == db.server
  {
    hide Inv, ArgsOk;
    PutKeeps(db, me, tx);
  }

  lemma TxPart(db: Db, me: nat)
    requires Inv(db) && me in db.txs
    ensures ServerOk(db.server) && TxOk(db.server, db.txs[me])
  {
    hide ServerOk, TxOk;
  }

  /** A parent with failed files was reported, so no report of it is under way; and whoever starts it or retries it has its
      task locked. So the share that a retry takes on its parent is always free. */
  lemma RetryShareIsFree(db: Db, me: nat)
    requires Inv(db) && me in db.txs && db.txs[me].AcceptInserts? && db.txs[me].args.trigger.Retry?
    ensures Free(db, me, RunKey(db.txs[me].args.retryOf))
  {
    hide ServerOk, LocksOk, TxsOk, TxOk, HoldsKey;
    var a := db.txs[me].args;
    forall other | other in db.txs && other != me ensures !Holds(db.txs[other], RunKey(a.retryOf)) {
      if Holds(db.txs[other], RunKey(a.retryOf)) {
        TxPart(db, me);
        TxPart(db, other);
        SharerIsElsewhere(db, me, other);
      }
    }
  }

  lemma SharerIsElsewhere(db: Db, me: nat, other: nat)
    requires ServerOk(db.server) && LocksOk(db) && me in db.txs && other in db.txs && other != me
    requires TxOk(db.server, db.txs[me]) && TxOk(db.server, db.txs[other])
    requires db.txs[me].AcceptInserts? && db.txs[me].args.trigger.Retry?
    ensures !HoldsKey(db.txs[other], db.txs[me].args.retryOf)
  {
    hide ServerOk, IsOperatorToken, TargetsDistinct, StartValid, ReportStands, HasReport, ResolveRetryFiles, ReadAs;
    var a, tx := db.txs[me].args, db.txs[other];
    FailuresWereReported(db.server, a.retryOf);
    assert Holds(db.txs[me], TaskLock(a.taskId));
    assert HoldsKey(tx, a.retryOf) && !Claimed(tx) ==> Holds(tx, TaskLock(a.taskId));
  }

  lemma FailuresWereReported(s: Server, id: string)
    requires ServerOk(s)
    ensures id in s.runs && s.runs[id].failedFiles.Some? && s.runs[id].failedFiles.value != [] ==>
              s.runs[id].status.Failed? && HasReport(s, id)
  {
    hide ReceiptOk, HasReport, OneReportPerRun, KeysUnique, OnePendingPerTask, RawFilesOk, RecordsOk;
    assert id in s.runs ==> RunOk(s, id);
  }

  lemma RetryKeeps(db: Db, after: Db, me: nat)
    requires Inv(db) && RetryStep(db, after, me)
    ensures Inv(after) && after.server == db.server
  {
    hide Inv, ServerOk, ArgsOk, Free, IsOperatorToken, ResolveRetryFiles;
    var s, tx := db.server, db.txs[me];
    TxPart(db, me);
    if me in after.txs {
      if tx.RetryFiles? {
        var parent := s.runs[tx.retry.runId];
        ResolvedArgs(s, tx.retry, after.txs[me].args.targets);
      }
      PutKeeps(db, me, after.txs[me]);
    } else {
      EndKeeps(db, after, me);
    }
  }

  lemma ResolvedArgs(s: Server, r: RetryArgs, targets: seq<RetryFile>)
    requires ServerOk(s) && r.runId in s.runs && s.runs[r.runId].failedFiles.Some? && s.runs[r.runId].failedFiles.value != []
    requires var failed := s.runs[r.runId].failedFiles.value;
             ResolveRetryFiles(s, s.runs[r.runId], failed, |failed|) == Some(targets)
    ensures ArgsOk(s, Resolved(r, s.runs[r.runId], targets))
  {
    hide ReceiptOk, HasReport, OneReportPerRun, KeysUnique, OnePendingPerTask, RawFilesOk, RecordsOk, ResolveRetryFiles;
    assert RunOk(s, r.runId);
    var failed := s.runs[r.runId].failedFiles.value;
    ResolvedTargets(s, s.runs[r.runId], failed, |failed|);
  }

  lemma AcceptKeeps(db: Db, after: Db, me: nat, newId: string)
    requires Inv(db) && AcceptStep(db, after, me, newId)
    ensures Inv(after) && Orderly(db.server, after.server)
  {
    hide Inv, ServerOk, ArgsOk, Free, Confined, Atomically, NoPending, IsOperatorToken;
    var s, tx := db.server, db.txs[me];
    TxPart(db, me);
    if tx.AcceptInserted? {
      AcceptCommit(s, tx, newId);
      CommitKeeps(db, after, me);
      assert Atomically(s, after.server, AtomicAccept(tx.args, newId)) by { AcceptAtomically(s, tx, newId); }
    } else if me in after.txs {
      PutKeeps(db, me, after.txs[me]);
    } else {
      EndKeeps(db, after, me);
    }
  }

  lemma AcceptAtomically(s: Server, tx: Tx, newId: string)
    requires ServerOk(s) && tx.AcceptInserted? && TxOk(s, tx) && newId !in s.runs && newId != ""
    ensures Atomically(s, s.(runs := s.runs[newId := AcceptedRun(s, tx.args)]), AtomicAccept(tx.args, newId))
  {
    hide ServerOk, AcceptManual, Confined, ArgsOk;
    AcceptCommit(s, tx, newId);
  }

  lemma StartKeeps(db: Db, after: Db, me: nat)
    requires Inv(db) && StartStep(db, after, me)
    ensures Inv(after) && Orderly(db.server, after.server)
  {
    hide Inv, ServerOk, Free, Confined, StartManual, StartValid;
    var s, tx := db.server, db.txs[me];
    TxPart(db, me);
    if tx.StartMarked? {
      StartCommit(s, tx);
      CommitKeeps(db, after, me);
      assert Atomically(s, after.server, AtomicStart(tx.start, tx.id));
    } else if me in after.txs {
      if tx.StartReads? {
        PendingHasTask(s, after.txs[me].id);
      }
      PutKeeps(db, me, after.txs[me]);
    } else {
      EndKeeps(db, after, me);
    }
  }

  lemma PendingHasTask(s: Server, id: string)
    requires ServerOk(s)
    ensures id in s.runs && PendingManual(s.runs[id]) ==> s.runs[id].taskId in s.tasks
  {
    hide ReceiptOk, HasReport, OneReportPerRun, KeysUnique, OnePendingPerTask, RawFilesOk, RecordsOk;
    assert id in s.runs ==> RunOk(s, id);
  }

  lemma ToggleKeeps(db: Db, after: Db, me: nat, executable: bool)
    requires Inv(db) && ToggleStep(db, after, me, executable)
    ensures Inv(after) && Orderly(db.server, after.server)
  {
    hide Inv, ServerOk, Confined, SetTaskEnabled;
    var s, tx := db.server, db.txs[me];
    TxPart(db, me);
    if tx.ToggleWritten? {
      ToggleCommit(s, tx);
      CommitKeeps(db, after, me);
      assert Atomically(s, after.server, AtomicToggle(tx.taskId, tx.enabled));
    } else if me in after.txs {
      PutKeeps(db, me, after.txs[me]);
    } else {
      EndKeeps(db, after, me);
    }
  }

  lemma ReadNow(s: Server, p: ReportArgs)
    requires |p.recordIds| == |p.report.records| && p.report.key != "" && Terminal(p.report.status)
    requires Ownership(s, p.report.runId, p.report.node).None?
    ensures p.report.runId in s.runs && ReadAs(s, p, s.runs[p.report.runId].status)
  {
    hide HasReport;
  }

  lemma ReportKeeps(db: Db, after: Db, me: nat, rulesUsable: bool)
    requires Inv(db) && ReportStep(db, after, me, rulesUsable)
    ensures Inv(after) && (db.txs[me].ReportWritten? || after.server == db.server)
  {
    hide Inv, ServerOk, Confined, AcceptReport, Free, ReportStands, ReadAs, ClaimStands, ContentRefusal, ClaimReceipt,
      ReportFingerprint, Reported;
    var s, tx := db.server, db.txs[me];
    TxPart(db, me);
    if tx.ReportWritten? {
      ReportCommit(s, tx);
      CommitKeeps(db, after, me);
    } else if me in after.txs {
      if tx.ReportReads? {
        ReadNow(s, tx.rep);
      } else if tx.ReportClaims? {
        AcquiredStands(s, tx.rep);
      } else if tx.ReportChecks? {
        NothingRefused(s, tx.rep, rulesUsable);
      }
      PutKeeps(db, me, after.txs[me]);
    } else {
      EndKeeps(db, after, me);
    }
  }

  /** The receipt of a committed report names its run, so no other transaction could have written these tables. */
  lemma OnlyThatReport(s: Server, p: ReportArgs, op: Atomic)
    requires p.report.runId in s.runs && |p.recordIds| == |p.report.records| && ReportReceiptId(p.report) !in s.receipts
    requires Atomically(s, Reported(s, p), op)
    ensures op.AtomicReport? && op.rep.report.runId == p.report.runId && !Terminal(s.runs[p.report.runId].status)
  {
    hide ReportFingerprint, NewRecords, ArgsOk, StartValid, ContentRefusal, IsOperatorToken, FinishedRun, AcceptReport;
    var t := Reported(s, p);
    assert t.receipts != s.receipts;
    if op.AtomicReport? {
      AcceptedReportReceipt(s, t, op.rep);
      assert ReportReceiptId(p.report) in t.receipts;
    }
  }

  lemma AcceptedReportReceipt(s: Server, t: Server, p: ReportArgs)
    requires |p.recordIds| == |p.report.records|
    requires AcceptReport(s, p.report, p.recordIds, p.qcIds, p.alertIds, true) == (t, ReportDone(p))
    ensures p.report.runId in s.runs && !Terminal(s.runs[p.report.runId].status)
    ensures forall id :: id in t.receipts && id !in s.receipts ==> t.receipts[id].runId == p.report.runId
  {
    hide ReportFingerprint, NewRecords, ContentRefusal, FinishedRun;
  }

  lemma ReportSerialIff(db: Db, after: Db, me: nat, rulesUsable: bool)
    requires Inv(db) && ReportStep(db, after, me, rulesUsable) && db.txs[me].ReportWritten?
    ensures Commits(db, after, me, db.txs[me].rep)
    ensures Serial(db.server, after.server) <==> !OfFinished(db.server, db.txs[me].rep)
    ensures Orderly(db.server, after.server) <==> OfRunning(db.server, db.txs[me].rep)
  {
    hide LocksOk, TxsOk, ServerOk, Confined, AcceptReport, ReportStands, ReadAs, ClaimStands, Atomically, Reported;
    var s, p, t := db.server, db.txs[me].rep, after.server;
    TxPart(db, me);
    ReportCommit(s, db.txs[me]);
    WrittenOwned(s, p, db.txs[me].seen);
    UnderNoReceipt(s, p);
    assert t != s by { assert ReportReceiptId(p.report) in Reported(s, p).receipts by { HasReceipt(s, p); } }
    if !OfFinished(s, p) {
      assert Atomically(s, t, AtomicReport(p)) by { AtomicallyReported(s, p); }
    }
    forall op | Atomically(s, t, op) ensures op.AtomicReport? && op.rep.report.runId == p.report.runId && !OfFinished(s, p) {
      OnlyThatReport(s, p, op);
    }
  }

  lemma HasReceipt(s: Server, p: ReportArgs)
    requires p.report.runId in s.runs && |p.recordIds| == |p.report.records|
    ensures ReportReceiptId(p.report) in Reported(s, p).receipts
  {
  }

  lemma AtomicallyReported(s: Server, p: ReportArgs)
    requires p.report.runId in s.runs && |p.recordIds| == |p.report.records|
    requires AcceptReport(s, p.report, p.recordIds, p.qcIds, p.alertIds, true) == (Reported(s, p), ReportDone(p))
    ensures Atomically(s, Reported(s, p), AtomicReport(p))
  {
    hide AcceptReport;
  }

  lemma AbortKeeps(db: Db, after: Db, me: nat)
    requires Inv(db) && Abort(db, after, me)
    ensures Inv(after) && after.server == db.server
  {
    hide Inv;
    EndKeeps(db, after, me);
  }

  lemma OrderlyIsSerial(s: Server, t: Server)
    requires Orderly(s, t)
    ensures Serial(s, t)
  {
    hide Atomically;
    if t != s {
      var op :| Atomically(s, t, op) && (op.AtomicReport? ==> OfRunning(s, op.rep));
      assert Atomically(s, t, op);
    }
  }

  lemma OnlyReportsCommit(db: Db, after: Db, me: nat, step: Step)
    requires Takes(db, after, me, step) && !step.ReportTakes?
    ensures forall other, p :: !Commits(db, after, other, p)
  {
    hide Free, CanAccept, AcceptRefusal, StartValid, Matches, PendingRuns, Settled, WithFlag, ArgsOk;
  }

  lemma OneReportCommits(db: Db, after: Db, me: nat, rulesUsable: bool)
    requires ReportStep(db, after, me, rulesUsable)
    ensures me in db.txs
    ensures forall other, p :: Commits(db, after, other, p) ==>
              other == me && db.txs[me].ReportWritten? && db.txs[me].rep == p
  {
    hide Free, ClaimReceipt, ContentRefusal, Ownership, Reported;
  }

  lemma QuietStep(db: Db, after: Db)
    requires Orderly(db.server, after.server) && forall other, p :: !Commits(db, after, other, p)
    ensures Serial(db.server, after.server) && !Overwrites(db, after) && !CommitsEarly(db, after)
  {
    hide Orderly, Serial, Commits;
    OrderlyIsSerial(db.server, after.server);
  }

  lemma ReportStepSerial(db: Db, after: Db, me: nat, rulesUsable: bool)
    requires Inv(db) && ReportStep(db, after, me, rulesUsable)
    ensures Serial(db.server, after.server) <==> !Overwrites(db, after)
    ensures Orderly(db.server, after.server) <==> !CommitsEarly(db, after)
  {
    hide Inv, ReportStep, Serial, Orderly, Commits, OfFinished, OfRunning;
    OneReportCommits(db, after, me, rulesUsable);
    ReportKeeps(db, after, me, rulesUsable);
    if db.txs[me].ReportWritten? {
      ReportSerialIff(db, after, me, rulesUsable);
    } else {
      NothingMoves(db.server);
    }
  }

  lemma NothingMoves(s: Server)
    ensures Serial(s, s) && Orderly(s, s)
  {
  }

  /** Whatever step is taken by whatever transaction, the invariant is kept. */
  lemma StepKeeps(db: Db, after: Db)
    requires Inv(db) && Moves(db, after)
    ensures Inv(after)
  {
    hide Inv, Begin, RetryStep, AcceptStep, StartStep, ToggleStep, ReportStep, Abort, Orderly;
    var me, step :| Takes(db, after, me, step);
    match step
    case BeginStep(tx) => BeginKeeps(db, after, me, tx);
    case RetryTakes => RetryKeeps(db, after, me);
    case AcceptTakes(newId) => AcceptKeeps(db, after, me, newId);
    case StartTakes => StartKeeps(db, after, me);
    case ToggleTakes(executable) => ToggleKeeps(db, after, me, executable);
    case ReportTakes(rulesUsable) => ReportKeeps(db, after, me, rulesUsable);
    case AbortTakes => AbortKeeps(db, after, me);
  }

  /** The committed tables change by one atomic transaction if and only if the step does not commit a report of a finished
      run; and that transaction is an orderly one if and only if the step does not commit a report of a run that is not
      running. */
  lemma StepIsSerialIff(db: Db, after: Db)
    requires Inv(db) && Moves(db, after)
    ensures Serial(db.server, after.server) <==> !Overwrites(db, after)
    ensures Orderly(db.server, after.server) <==> !CommitsEarly(db, after)
  {
    hide Inv, Begin, RetryStep, AcceptStep, StartStep, ToggleStep, ReportStep, Abort, Orderly, Serial, Overwrites, CommitsEarly;
    var me, step :| Takes(db, after, me, step);
    NothingMoves(db.server);
    match step
    case ReportTakes(rulesUsable) => ReportStepSerial(db, after, me, rulesUsable);
    case _ =>
      OnlyReportsCommit(db, after, me, step);
      assert Orderly(db.server, after.server) by { OrderlyStep(db, after, me, step); }
      QuietStep(db, after);
  }

  lemma OrderlyStep(db: Db, after: Db, me: nat, step: Step)
    requires Inv(db) && Takes(db, after, me, step) && !step.ReportTakes?
    ensures Orderly(db.server, after.server)
  {
    hide Inv, Begin, RetryStep, AcceptStep, StartStep, ToggleStep, ReportStep, Abort, Orderly;
    NothingMoves(db.server);
    match step
    case BeginStep(tx) => BeginKeeps(db, after, me, tx);
    case RetryTakes => RetryKeeps(db, after, me);
    case AcceptTakes(newId) => AcceptKeeps(db, after, me, newId);
    case StartTakes => StartKeeps(db, after, me);
    case ToggleTakes(executable) => ToggleKeeps(db, after, me, executable);
    case ReportTakes(_) =>
    case AbortTakes => AbortKeeps(db, after, me);
  }

  lemma {:induction false} RunKeepsInvariant(trace: seq<Db>, i: nat)
    requires Run(trace) && i < |trace|
    ensures Inv(trace[i])
  {
    hide Inv, ServerOk, Moves;
    if i == 0 {
      StartsOk(trace[0]);
    } else {
      RunKeepsInvariant(trace, i - 1);
      assert Moves(trace[i - 1], trace[i - 1 + 1]);
      StepKeeps(trace[i - 1], trace[i]);
    }
  }

  lemma StartsOk(db: Db)
    requires ServerOk(db.server) && db.txs == map[]
    ensures Inv(db)
  {
    hide ServerOk;
  }

  // ---- the promises ----

  /** In every state of every interleaving: a disabled task has no pending manual run, and a task has at most one. */
  lemma PendingRunsAreGuarded(trace: seq<Db>, i: nat, taskId: string, a: string, b: string)
    requires Run(trace) && i < |trace| && IsPendingManualOf(trace[i].server, a, taskId)
    ensures taskId in trace[i].server.tasks && trace[i].server.tasks[taskId].enabled
    ensures IsPendingManualOf(trace[i].server, b, taskId) ==> a == b
  {
    hide Run, LocksOk, TxsOk, ReceiptOk, OneReportPerRun, KeysUnique, RawFilesOk, RecordsOk, HasReport;
    RunKeepsInvariant(trace, i);
    assert RunOk(trace[i].server, a);
  }

  /** How a row may change in one step. */
  predicate RunMoves(a: RunRow, b: RunRow) {
    || b == a
    || (a.status.Pending? && (b.status.Running? || SettledRow(b)))
    || (!Terminal(a.status) && Terminal(b.status))
  }

  /** The step commits a report of the run, which is finished already, with another outcome. */
  ghost predicate Rewrites(db: Db, after: Db, id: string) {
    exists me, p :: Commits(db, after, me, p) && Replaces(db.server, p, id)
  }

  predicate Replaces(s: Server, p: ReportArgs, id: string) {
    && p.report.runId == id && id in s.runs && Terminal(s.runs[id].status)
    && FinishedRun(s.runs[id], p.report) != s.runs[id]
  }

  lemma RowInReport(db: Db, after: Db, me: nat, rulesUsable: bool, id: string)
    requires Inv(db) && ReportStep(db, after, me, rulesUsable) && id in db.server.runs
    ensures id in after.server.runs
    ensures Terminal(db.server.runs[id].status) ==> Terminal(after.server.runs[id].status)
    ensures Terminal(db.server.runs[id].status) ==>
              (after.server.runs[id] != db.server.runs[id] <==> Rewrites(db, after, id))
    ensures !Terminal(db.server.runs[id].status) ==> RunMoves(db.server.runs[id], after.server.runs[id])
  {
    hide LocksOk, TxsOk, ServerOk, Free, ClaimReceipt, ContentRefusal, Ownership, NewRecords, ReportFingerprint, ReadAs, ReportStands,
      ClaimStands;
    TxPart(db, me);
    if db.txs[me].ReportWritten? {
      WrittenOwned(db.server, db.txs[me].rep, db.txs[me].seen);
      assert Commits(db, after, me, db.txs[me].rep);
    }
  }

  lemma RowInOther(db: Db, after: Db, me: nat, step: Step, id: string)
    requires Inv(db) && Takes(db, after, me, step) && !step.ReportTakes? && id in db.server.runs
    ensures id in after.server.runs && RunMoves(db.server.runs[id], after.server.runs[id])
  {
    hide Inv, ServerOk, Free, AcceptRefusal, NoPending, ArgsOk, StartValid, ReadAs, ReportStands, ClaimStands, HasReport;
    if me in db.txs {
      TxPart(db, me);
    }
  }

  /** A finished row changes in a step if and only if the step commits a report of that run with another outcome; and a
      run that is not finished moves from pending to running, from pending to failed, or to the outcome of a report. */
  lemma FinishedRowChangesIff(db: Db, after: Db, id: string)
    requires Inv(db) && Moves(db, after) && id in db.server.runs
    ensures id in after.server.runs
    ensures Terminal(db.server.runs[id].status) ==> Terminal(after.server.runs[id].status)
    ensures Terminal(db.server.runs[id].status) ==>
              (after.server.runs[id] != db.server.runs[id] <==> Rewrites(db, after, id))
    ensures !Terminal(db.server.runs[id].status) ==> RunMoves(db.server.runs[id], after.server.runs[id])
  {
    hide Inv, Begin, RetryStep, AcceptStep, StartStep, ToggleStep, ReportStep, Abort, Commits, Replaces;
    var me, step :| Takes(db, after, me, step);
    match step
    case ReportTakes(rulesUsable) => RowInReport(db, after, me, rulesUsable, id);
    case _ =>
      RowInOther(db, after, me, step, id);
      OnlyReportsCommit(db, after, me, step);
  }

  /** No step between the two states commits a report of the run when it is finished. */
  ghost predicate NeverRewritten(trace: seq<Db>, i: nat, j: nat, id: string)
    requires j < |trace|
  {
    forall k {:trigger trace[k]} :: i <= k < j ==> !Rewrites(trace[k], trace[k + 1], id)
  }

  /** Between any two states of an interleaving: a finished run has not changed, unless a step rewrote it; and a run that
      has left pending never returns to it. */
  lemma {:induction false} TerminalIsAbsorbing(trace: seq<Db>, i: nat, j: nat, id: string)
    requires Run(trace) && i <= j < |trace| && id in trace[i].server.runs
    ensures id in trace[j].server.runs
    ensures Terminal(trace[i].server.runs[id].status) ==> Terminal(trace[j].server.runs[id].status)
    ensures Terminal(trace[i].server.runs[id].status) && NeverRewritten(trace, i, j, id) ==>
              trace[j].server.runs[id] == trace[i].server.runs[id]
    ensures !trace[i].server.runs[id].status.Pending? ==> !trace[j].server.runs[id].status.Pending?
    decreases j - i
  {
    hide Inv, ServerOk, Moves, Rewrites;
    if i < j {
      TerminalIsAbsorbing(trace, i, j - 1, id);
      RunKeepsInvariant(trace, j - 1);
      assert Moves(trace[j - 1], trace[j - 1 + 1]);
      FinishedRowChangesIff(trace[j - 1], trace[j], id);
      if NeverRewritten(trace, i, j, id) {
        assert NeverRewritten(trace, i, j - 1, id);
        assert !Rewrites(trace[j - 1], trace[j - 1 + 1], id);
      }
    }
  }

  /** A report that read its run as running finds it running when it commits; only one that read it as pending can come
      early, or find it settled. */
  lemma ReadRunningFindsRunning(db: Db, me: nat)
    requires Inv(db) && me in db.txs && db.txs[me].ReportWritten?
    ensures db.txs[me].seen.Running? ==> OfRunning(db.server, db.txs[me].rep)
    ensures !OfRunning(db.server, db.txs[me].rep) ==> db.txs[me].seen.Pending?
    ensures OfFinished(db.server, db.txs[me].rep) ==> SettledRow(db.server.runs[db.txs[me].rep.report.runId])
  {
    hide Inv, ServerOk, ReportStands, ClaimStands;
    TxPart(db, me);
    WrittenOwned(db.server, db.txs[me].rep, db.txs[me].seen);
    ClaimedFinds(db.server, db.txs[me].rep, db.txs[me].seen);
  }

  /** Every report that gets as far as writing had read its run as running. */
  ghost predicate AllReadRunning(trace: seq<Db>) {
    forall k, me :: 0 <= k < |trace| && me in trace[k].txs && trace[k].txs[me].ReportWritten? ==>
      trace[k].txs[me].seen.Running?
  }

  /** Then every step of the interleaving is orderly, and a finished run never changes. */
  lemma ReadRunningKeepsOrder(trace: seq<Db>, k: nat, id: string)
    requires Run(trace) && AllReadRunning(trace) && k < |trace| - 1
    ensures Orderly(trace[k].server, trace[k + 1].server) && !Rewrites(trace[k], trace[k + 1], id)
  {
    hide Inv, ServerOk, Moves, Orderly, Serial, OfRunning, Commits;
    var db, after := trace[k], trace[k + 1];
    RunKeepsInvariant(trace, k);
    StepIsSerialIff(db, after);
    forall me, p | Commits(db, after, me, p) ensures OfRunning(db.server, p) {
      CommitIsWritten(db, after, me, p);
      ReadRunningFindsRunning(db, me);
    }
    if Rewrites(db, after, id) {
      var me, p :| Commits(db, after, me, p) && Replaces(db.server, p, id);
      FinishedIsNotRunning(db.server, p);
    }
  }

  lemma CommitIsWritten(db: Db, after: Db, me: nat, p: ReportArgs)
    requires Commits(db, after, me, p)
    ensures me in db.txs && db.txs[me].ReportWritten? && db.txs[me].rep == p
  {
  }

  lemma FinishedIsNotRunning(s: Server, p: ReportArgs)
    ensures !(OfFinished(s, p) && OfRunning(s, p))
  {
  }

  // ---- the lock order admits no deadlock ----

  /** What the next step of a transaction has to acquire. */
  ghost predicate Wants(db: Db, tx: Tx, res: Resource) {
    match tx
    case AcceptWaits(a) => res == TaskLock(a.taskId)
    case AcceptInserts(a) => res == KeyIndex(KeyOf(a)) || (a.trigger.Retry? && res == RunKey(a.retryOf))
    case StartWaitsTask(r, _) => res == TaskLock(r.taskId)
    case StartWaitsRun(_, id) => res == RunLock(id) || res == RunKey(id)
    case ToggleWaits(taskId, _) => res == TaskLock(taskId)
    case ToggleLocked(taskId, enabled) => !enabled && res.RunLock? && res.runId in PendingRuns(db.server, taskId)
    case ReportClaims(p, _) => res == ReceiptIndex(ReportReceiptId(p.report)) || res == ReportIndex(p.report.runId)
    case ReportShares(p, _) => res == RunKey(p.report.runId)
    case ReportWrites(p, _) => res == RunLock(p.report.runId)
    case _ => false
  }

  ghost predicate WaitsFor(db: Db, a: nat, b: nat) {
    a in db.txs && b in db.txs && a != b && exists res :: Wants(db, db.txs[a], res) && Holds(db.txs[b], res)
  }

  /** How far a transaction is on the one order of its waits: a task row or a receipt first, then a run row or a key, and
      the row that a claimed report updates last. */
  function Rank(tx: Tx): nat {
    match tx
    case AcceptWaits(_) => 0
    case StartWaitsTask(_, _) => 0
    case ToggleWaits(_, _) => 0
    case ReportClaims(_, _) => 0
    case AcceptInserts(_) => 1
    case StartWaitsRun(_, _) => 1
    case ToggleLocked(_, _) => 1
    case ReportShares(_, _) => 1
    case ReportChecks(_, _) => 2
    case ReportWrites(_, _) => 2
    case _ => 3
  }

  lemma WaitingClimbs(db: Db, a: nat, b: nat)
    requires WaitsFor(db, a, b)
    ensures Rank(db.txs[a]) < Rank(db.txs[b])
  {
  }

  lemma {:induction false} ChainClimbs(db: Db, chain: seq<nat>, n: nat)
    requires n < |chain| && forall i :: 0 <= i < |chain| - 1 ==> WaitsFor(db, chain[i], chain[i + 1])
    requires chain[0] in db.txs
    ensures chain[n] in db.txs && Rank(db.txs[chain[n]]) >= Rank(db.txs[chain[0]]) + n
  {
    hide WaitsFor;
    if n > 0 {
      ChainClimbs(db, chain, n - 1);
      assert WaitsFor(db, chain[n - 1], chain[n - 1 + 1]);
      Waiters(db, chain[n - 1], chain[n]);
      WaitingClimbs(db, chain[n - 1], chain[n]);
    }
  }

  lemma Waiters(db: Db, a: nat, b: nat)
    requires WaitsFor(db, a, b)
    ensures a in db.txs && b in db.txs && a != b
  {
  }

  /** No cycle of transactions waits for each other, in any state whatsoever. */
  lemma NoWaitCycle(db: Db, cycle: seq<nat>)
    requires |cycle| > 1 && cycle[0] == cycle[|cycle| - 1] && cycle[0] in db.txs
    ensures exists i :: 0 <= i < |cycle| - 1 && !WaitsFor(db, cycle[i], cycle[i + 1])
  {
    hide WaitsFor;
    if forall i :: 0 <= i < |cycle| - 1 ==> WaitsFor(db, cycle[i], cycle[i + 1]) {
      ChainClimbs(db, cycle, |cycle| - 1);
    }
  }
}
