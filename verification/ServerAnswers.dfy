/** What each transaction of the control plane answers and writes, stated apart from how it is computed: its checks in their
    order, the one reason it is refused for, and the rows it leaves, field by field. */
module ServerAnswers {
  import opened Messages
  import opened Fingerprint
  import opened Calendar
  import opened ControlPlane
  import opened ServerInvariant

  // ---- checks in order ----

  datatype Check = Check(passed: bool, reason: Refusal)

  ghost predicate AllPass(checks: seq<Check>) { forall i :: 0 <= i < |checks| ==> checks[i].passed }

  ghost predicate FirstFailsAt(checks: seq<Check>, i: nat) {
    i < |checks| && !checks[i].passed && forall j :: 0 <= j < i ==> checks[j].passed
  }

  /** Refused for the first check that fails, with nothing written. */
  ghost predicate RefusedInOrder(s: Server, t: Server, reply: Reply, checks: seq<Check>) {
    forall i: nat :: FirstFailsAt(checks, i) ==> t == s && reply == Refused(checks[i].reason)
  }

  ghost predicate KeyUsed(s: Server, key: string) { exists id :: RunHasKey(s, id, key) }

  lemma FoundIsTheRun(s: Server, key: string, id: string)
    requires KeysUnique(s) && RunHasKey(s, id, key)
    ensures FindByExecutionKey(s, key) == Some(id)
  {
  }

  lemma NoneIsFound(s: Server, key: string)
    requires !KeyUsed(s, key)
    ensures FindByExecutionKey(s, key).None?
  {
  }

  // ---- start ----

  ghost predicate SlotFits(s: Server, req: StartRequest) {
    forall id :: RunHasKey(s, id, req.executionKey) ==>
      s.runs[id].taskId == req.taskId && s.runs[id].scheduledFor == req.scheduledFor
  }

  ghost function ScheduledChecks(s: Server, req: StartRequest): seq<Check> {
    [Check(req.node != "" && req.taskId != "", Invalid),
     Check(req.executionKey != "" && IsRfc3339Utc(req.scheduledFor) && IsRfc3339Utc(req.startedAt), Invalid),
     Check(req.taskId in s.tasks, NotFound),
     Check(req.taskId in s.tasks && s.tasks[req.taskId].enabled, TaskDisabled),
     Check(req.taskId in s.tasks && s.tasks[req.taskId].node == req.node, WrongNode),
     Check(SlotFits(s, req), KeyReused)]
  }

  function StartedRow(req: StartRequest): RunRow {
    RunRow(req.taskId, req.node, Scheduled, req.executionKey, req.scheduledFor, Running, "", None, None, req.startedAt, "",
           0, 0, 0, "")
  }

  /** A scheduled start: if any check fails, nothing is written; otherwise a used key is answered with its run, and an unused
      one with a new running run. */
  lemma ScheduledStart(s: Server, req: StartRequest, newId: string)
    requires KeysUnique(s) && req.trigger.Scheduled?
    ensures var (t, reply) := Start(s, req, newId);
            && RefusedInOrder(s, t, reply, ScheduledChecks(s, req))
            && (AllPass(ScheduledChecks(s, req)) && KeyUsed(s, req.executionKey) ==>
                  t == s && exists id :: RunHasKey(s, id, req.executionKey) && reply == Started(StartAnswer(id, true, Running)))
            && (AllPass(ScheduledChecks(s, req)) && !KeyUsed(s, req.executionKey) ==>
                  t == s.(runs := s.runs[newId := StartedRow(req)]) && reply == Started(StartAnswer(newId, false, Running)))
  {
    hide IsRfc3339Utc;
    var checks := ScheduledChecks(s, req);
    if id :| RunHasKey(s, id, req.executionKey) {
      FoundIsTheRun(s, req.executionKey, id);
    } else {
      NoneIsFound(s, req.executionKey);
    }
    forall i: nat | FirstFailsAt(checks, i)
      ensures Start(s, req, newId) == (s, Refused(checks[i].reason))
    {
      assert i == 0 || i == 1 || i == 2 || i == 3 || i == 4 || i == 5;
      assert 0 < i ==> checks[0].passed;
      assert 1 < i ==> checks[1].passed;
      assert 2 < i ==> checks[2].passed;
      assert 3 < i ==> checks[3].passed;
      assert 4 < i ==> checks[4].passed;
    }
    if AllPass(checks) {
      assert checks[0].passed && checks[1].passed && checks[2].passed && checks[3].passed && checks[4].passed && checks[5].passed;
    }
  }

  /** So a scheduled start creates a run if and only if its texts are valid, its task exists, is enabled and belongs to the
      node, and its key is unused. */
  lemma ScheduledStartCreatesIff(s: Server, req: StartRequest, newId: string)
    requires KeysUnique(s) && req.trigger.Scheduled? && newId !in s.runs
    ensures newId in Start(s, req, newId).0.runs
            <==> && req.node != "" && req.taskId != "" && req.executionKey != ""
                 && IsRfc3339Utc(req.scheduledFor) && IsRfc3339Utc(req.startedAt)
                 && req.taskId in s.tasks && s.tasks[req.taskId].enabled && s.tasks[req.taskId].node == req.node
                 && !KeyUsed(s, req.executionKey)
  {
    hide IsRfc3339Utc, Start;
    var checks := ScheduledChecks(s, req);
    ScheduledStart(s, req, newId);
    FirstFailure(checks);
    if AllPass(checks) {
      assert checks[0].passed && checks[1].passed && checks[2].passed && checks[3].passed && checks[4].passed && checks[5].passed;
    } else {
      assert !KeyUsed(s, req.executionKey) ==> checks[5].passed;
    }
  }

  lemma FirstFailure(checks: seq<Check>)
    ensures AllPass(checks) || exists i: nat :: FirstFailsAt(checks, i)
  {
    if !AllPass(checks) {
      var i := 0;
      while checks[i].passed
        invariant i < |checks| && forall j :: 0 <= j < i ==> checks[j].passed
        decreases |checks| - i
      {
        i := i + 1;
      }
      assert FirstFailsAt(checks, i);
    }
  }

  ghost predicate AcceptedFor(s: Server, req: StartRequest) {
    forall id :: RunHasKey(s, id, req.executionKey) ==>
      s.runs[id].node == req.node && s.runs[id].taskId == req.taskId && s.runs[id].trigger == req.trigger
  }

  ghost predicate TaskRemains(s: Server, key: string) {
    forall id :: RunHasKey(s, id, key) && s.runs[id].status.Pending? ==> s.runs[id].taskId in s.tasks
  }

  ghost function ManualStartChecks(s: Server, req: StartRequest): seq<Check> {
    [Check(req.node != "" && req.taskId != "", Invalid),
     Check(req.executionKey != "" && req.scheduledFor == "" && IsRfc3339Utc(req.startedAt), Invalid),
     Check(KeyUsed(s, req.executionKey), NotAccepted),
     Check(AcceptedFor(s, req), NotAccepted),
     Check(TaskRemains(s, req.executionKey), NotFound)]
  }

  /** A manual or retry start: if no check fails, the run that was accepted under the key is answered as it is, unless it is
      pending; then it is running from now on, and nothing else is changed. */
  lemma ManualStart(s: Server, req: StartRequest, newId: string)
    requires KeysUnique(s) && OperatorStarted(req.trigger)
    ensures var (t, reply) := Start(s, req, newId);
            && RefusedInOrder(s, t, reply, ManualStartChecks(s, req))
            && (AllPass(ManualStartChecks(s, req)) ==>
                  exists id :: RunHasKey(s, id, req.executionKey)
                    && if s.runs[id].status.Pending? then
                         && t == s.(runs := s.runs[id := s.runs[id].(status := Running, startedAt := req.startedAt)])
                         && reply == Started(StartAnswer(id, false, Running))
                       else t == s && reply == Started(StartAnswer(id, true, s.runs[id].status)))
  {
    hide IsRfc3339Utc;
    var checks := ManualStartChecks(s, req);
    if id :| RunHasKey(s, id, req.executionKey) {
      FoundIsTheRun(s, req.executionKey, id);
    } else {
      NoneIsFound(s, req.executionKey);
    }
    forall i: nat | FirstFailsAt(checks, i)
      ensures Start(s, req, newId) == (s, Refused(checks[i].reason))
    {
      assert i == 0 || i == 1 || i == 2 || i == 3 || i == 4;
      assert 0 < i ==> checks[0].passed;
      assert 1 < i ==> checks[1].passed;
      assert 2 < i ==> checks[2].passed;
      assert 3 < i ==> checks[3].passed;
    }
    if AllPass(checks) {
      assert checks[0].passed && checks[1].passed && checks[2].passed && checks[3].passed && checks[4].passed;
      var id :| RunHasKey(s, id, req.executionKey);
      FoundIsTheRun(s, req.executionKey, id);
    }
  }

  // ---- accepting manual and retry runs ----

  ghost predicate SameRequest(s: Server, key: string, trigger: Trigger, taskId: string, retryOf: string) {
    forall id :: RunHasKey(s, id, key) ==>
      s.runs[id].trigger == trigger && s.runs[id].taskId == taskId && s.runs[id].retryOf == retryOf
  }

  ghost predicate HasPending(s: Server, taskId: string) { exists id :: IsPendingManualOf(s, id, taskId) }

  /** What is asked of a request only while its key is unused. */
  ghost function AcceptChecks(s: Server, trigger: Trigger, taskId: string, retryOf: string, token: string,
                              executable: bool): seq<Check>
  {
    var used := KeyUsed(s, OperatorKey(token));
    [Check(IsOperatorToken(token), Invalid),
     Check(SameRequest(s, OperatorKey(token), trigger, taskId, retryOf), KeyReused),
     Check(used || taskId in s.tasks, NotFound),
     Check(used || (taskId in s.tasks && s.tasks[taskId].enabled), TaskDisabled),
     Check(used || executable, NotExecutable),
     Check(used || !HasPending(s, taskId), PendingExists)]
  }

  function AcceptedRow(node: string, trigger: Trigger, taskId: string, retryOf: string, token: string,
                       targets: seq<RetryFile>): RunRow
  {
    RunRow(taskId, node, trigger, "operator:" + token, "", Pending, retryOf, if targets == [] then None else Some(targets),
           None, "", "", 0, 0, 0, "")
  }

  ghost predicate ReplayedRun(s: Server, t: Server, reply: Reply, key: string) {
    t == s && exists id :: RunHasKey(s, id, key) && reply == ManualAccepted(id, s.runs[id].status, true)
  }

  ghost predicate CreatedRun(s: Server, t: Server, reply: Reply, newId: string, run: RunRow) {
    t == s.(runs := s.runs[newId := run]) && reply == ManualAccepted(newId, Pending, false)
  }

  /** A manual request, or a retry once its targets are resolved: refused in order, replayed under a used key, or a new
      pending run on the node of its task. */
  lemma ManualAccept(s: Server, trigger: Trigger, taskId: string, retryOf: string, token: string, targets: seq<RetryFile>,
                     executable: bool, newId: string)
    requires KeysUnique(s)
    ensures var (t, reply) := AcceptManual(s, trigger, taskId, retryOf, token, targets, executable, newId);
            var checks := AcceptChecks(s, trigger, taskId, retryOf, token, executable);
            && RefusedInOrder(s, t, reply, checks)
            && (AllPass(checks) && KeyUsed(s, OperatorKey(token)) ==> ReplayedRun(s, t, reply, OperatorKey(token)))
            && (AllPass(checks) && !KeyUsed(s, OperatorKey(token)) ==>
                  taskId in s.tasks
                  && CreatedRun(s, t, reply, newId, AcceptedRow(s.tasks[taskId].node, trigger, taskId, retryOf, token, targets)))
  {
    hide IsOperatorToken;
    var key := OperatorKey(token);
    var checks := AcceptChecks(s, trigger, taskId, retryOf, token, executable);
    if id :| RunHasKey(s, id, key) {
      FoundIsTheRun(s, key, id);
    } else {
      NoneIsFound(s, key);
    }
    forall i: nat | FirstFailsAt(checks, i)
      ensures AcceptManual(s, trigger, taskId, retryOf, token, targets, executable, newId) == (s, Refused(checks[i].reason))
    {
      assert i == 0 || i == 1 || i == 2 || i == 3 || i == 4 || i == 5;
      assert 0 < i ==> checks[0].passed;
      assert 1 < i ==> checks[1].passed;
      assert 2 < i ==> checks[2].passed;
      assert 3 < i ==> checks[3].passed;
      assert 4 < i ==> checks[4].passed;
    }
    if AllPass(checks) {
      assert checks[0].passed && checks[1].passed && checks[2].passed && checks[3].passed && checks[4].passed && checks[5].passed;
    }
  }

  // ---- resolving a retry ----

  /** The failed file names its target; and the archive it refers to, if any, is recorded with path and hash for the node and
      the task of the parent. */
  ghost predicate Resolvable(s: Server, parent: RunRow, f: FailedFile) {
    && f.sourcePath != "" && f.originalName != ""
    && (f.archiveRef != "" ==>
          && f.archiveRef in s.rawFiles
          && var raw := s.rawFiles[f.archiveRef];
             && raw.node == parent.node && raw.runId in s.runs && s.runs[raw.runId].taskId == parent.taskId
             && raw.storagePath != "" && raw.fileHash != "")
  }

  /** A list resolves if and only if each of its files does; and each target is then the only one its file can call for. */
  lemma {:induction false} ResolvesIff(s: Server, parent: RunRow, failed: seq<FailedFile>, n: nat)
    requires n <= |failed|
    ensures ResolveRetryFiles(s, parent, failed, n).Some? <==> forall i :: 0 <= i < n ==> Resolvable(s, parent, failed[i])
  {
    if n > 0 {
      ResolvesIff(s, parent, failed, n - 1);
    }
  }

  lemma TargetIsDetermined(s: Server, parent: RunRow, a: RetryFile, b: RetryFile, f: FailedFile)
    requires TargetOf(s, parent, a, f) && TargetOf(s, parent, b, f)
    ensures a == b
  {
  }

  ghost predicate RetryOfRun(s: Server, key: string, runId: string) {
    forall id :: RunHasKey(s, id, key) ==> s.runs[id].trigger.Retry? && s.runs[id].retryOf == runId
  }

  ghost predicate HasFailedFiles(s: Server, runId: string) {
    runId in s.runs && s.runs[runId].failedFiles.Some? && s.runs[runId].failedFiles.value != []
  }

  ghost predicate AllResolvable(s: Server, runId: string) {
    HasFailedFiles(s, runId) && forall f :: f in s.runs[runId].failedFiles.value ==> Resolvable(s, s.runs[runId], f)
  }

  ghost function RetryChecks(s: Server, runId: string, token: string, executable: bool): seq<Check> {
    var used := KeyUsed(s, OperatorKey(token));
    [Check(IsOperatorToken(token), Invalid),
     Check(RetryOfRun(s, OperatorKey(token), runId), KeyReused),
     Check(used || runId != "", Invalid),
     Check(used || runId in s.runs, NotFound),
     Check(used || (runId in s.runs && s.runs[runId].status.Failed?), NotRetryable),
     Check(used || HasFailedFiles(s, runId), NotRetryable),
     Check(used || AllResolvable(s, runId), NotRetryable),
     Check(used || (runId in s.runs && s.runs[runId].taskId in s.tasks), NotFound),
     Check(used || (runId in s.runs && s.runs[runId].taskId in s.tasks && s.tasks[s.runs[runId].taskId].enabled), TaskDisabled),
     Check(used || executable, NotExecutable),
     Check(used || (runId in s.runs && !HasPending(s, s.runs[runId].taskId)), PendingExists)]
  }

  /** The targets are those of the failed files of the parent, one by one. */
  ghost predicate TargetsOf(s: Server, parent: RunRow, targets: seq<RetryFile>) {
    && parent.failedFiles.Some? && |targets| == |parent.failedFiles.value|
    && forall i :: 0 <= i < |targets| ==> TargetOf(s, parent, targets[i], parent.failedFiles.value[i])
  }

  lemma ResolvedAll(s: Server, runId: string)
    requires HasFailedFiles(s, runId)
    ensures var failed := s.runs[runId].failedFiles.value;
            var resolved := ResolveRetryFiles(s, s.runs[runId], failed, |failed|);
            && (resolved.Some? <==> AllResolvable(s, runId))
            && (resolved.Some? ==> TargetsOf(s, s.runs[runId], resolved.value) && resolved.value != [])
  {
    hide TargetOf, Resolvable;
    var failed := s.runs[runId].failedFiles.value;
    ResolvesIff(s, s.runs[runId], failed, |failed|);
    if ResolveRetryFiles(s, s.runs[runId], failed, |failed|).Some? {
      ResolvedTargets(s, s.runs[runId], failed, |failed|);
    }
  }

  /** The targets of the retry that is created. */
  ghost predicate CreatedRetry(s: Server, t: Server, reply: Reply, runId: string, token: string, newId: string) {
    && runId in s.runs && s.runs[runId].taskId in s.tasks
    && exists targets :: TargetsOf(s, s.runs[runId], targets)
         && CreatedRun(s, t, reply, newId,
                       AcceptedRow(s.tasks[s.runs[runId].taskId].node, Retry, s.runs[runId].taskId, runId, token, targets))
  }

  lemma UsedRetryKey(s: Server, runId: string, token: string, executable: bool, newId: string)
    requires KeysUnique(s) && KeyUsed(s, OperatorKey(token))
    ensures var (t, reply) := RequestRetryRun(s, runId, token, executable, newId);
            && RefusedInOrder(s, t, reply, RetryChecks(s, runId, token, executable))
            && (AllPass(RetryChecks(s, runId, token, executable)) ==> ReplayedRun(s, t, reply, OperatorKey(token)))
  {
    hide IsOperatorToken, AcceptManual, ResolveRetryFiles, AllResolvable, HasPending;
    var checks := RetryChecks(s, runId, token, executable);
    var id :| RunHasKey(s, id, OperatorKey(token));
    FoundIsTheRun(s, OperatorKey(token), id);
    forall i: nat | FirstFailsAt(checks, i)
      ensures RequestRetryRun(s, runId, token, executable, newId) == (s, Refused(checks[i].reason))
    {
      assert i == 0 || i == 1;
      assert 0 < i ==> checks[0].passed;
    }
    if AllPass(checks) {
      assert checks[0].passed && checks[1].passed;
    }
  }

  /** The first seven checks of a retry under an unused key are its own, the others those of the acceptance. */
  lemma FreshRetryChecks(s: Server, runId: string, token: string, executable: bool, i: nat)
    requires !KeyUsed(s, OperatorKey(token)) && runId in s.runs
    requires i < 11 && forall j :: 0 <= j < 7 ==> RetryChecks(s, runId, token, executable)[j].passed
    ensures var accept := AcceptChecks(s, Retry, s.runs[runId].taskId, runId, token, executable);
            && (i >= 7 && FirstFailsAt(RetryChecks(s, runId, token, executable), i) ==>
                  FirstFailsAt(accept, i - 5) && accept[i - 5] == RetryChecks(s, runId, token, executable)[i])
            && (AllPass(RetryChecks(s, runId, token, executable)) ==> AllPass(accept))
  {
    hide IsOperatorToken, AllResolvable, HasPending, HasFailedFiles;
    var checks := RetryChecks(s, runId, token, executable);
    var accept := AcceptChecks(s, Retry, s.runs[runId].taskId, runId, token, executable);
    assert checks[0].passed;
    assert accept[0].passed && accept[1].passed;
    assert accept[2] == checks[7] && accept[3] == checks[8] && accept[4] == checks[9] && accept[5] == checks[10];
  }

  /** A retry request under an unused key: refused in order, or a new pending run with the targets of its parent. */
  lemma FreshRetry(s: Server, runId: string, token: string, executable: bool, newId: string)
    requires KeysUnique(s) && !KeyUsed(s, OperatorKey(token))
    ensures var (t, reply) := RequestRetryRun(s, runId, token, executable, newId);
            && RefusedInOrder(s, t, reply, RetryChecks(s, runId, token, executable))
            && (AllPass(RetryChecks(s, runId, token, executable)) ==> CreatedRetry(s, t, reply, runId, token, newId))
  {
    hide IsOperatorToken, AcceptManual, ResolveRetryFiles, AllResolvable, HasPending, AcceptChecks, TargetsOf;
    var checks := RetryChecks(s, runId, token, executable);
    NoneIsFound(s, OperatorKey(token));
    if HasFailedFiles(s, runId) {
      ResolvedAll(s, runId);
    }
    if forall j :: 0 <= j < 7 ==> checks[j].passed {
      assert checks[0].passed && checks[2].passed && checks[3].passed && checks[4].passed && checks[5].passed && checks[6].passed;
      var parent := s.runs[runId];
      var targets := ResolveRetryFiles(s, parent, parent.failedFiles.value, |parent.failedFiles.value|).value;
      ManualAccept(s, Retry, parent.taskId, runId, token, targets, executable, newId);
      forall i: nat | FirstFailsAt(checks, i)
        ensures RequestRetryRun(s, runId, token, executable, newId) == (s, Refused(checks[i].reason))
      {
        FreshRetryChecks(s, runId, token, executable, i);
      }
      FreshRetryChecks(s, runId, token, executable, 0);
    } else {
      forall i: nat | FirstFailsAt(checks, i)
        ensures RequestRetryRun(s, runId, token, executable, newId) == (s, Refused(checks[i].reason))
      {
        EarlyRetryRefusal(s, runId, token, executable, newId, i);
      }
    }
  }

  lemma EarlyRetryRefusal(s: Server, runId: string, token: string, executable: bool, newId: string, i: nat)
    requires !KeyUsed(s, OperatorKey(token)) && FirstFailsAt(RetryChecks(s, runId, token, executable), i)
    requires !forall j :: 0 <= j < 7 ==> RetryChecks(s, runId, token, executable)[j].passed
    ensures RequestRetryRun(s, runId, token, executable, newId)
            == (s, Refused(RetryChecks(s, runId, token, executable)[i].reason))
  {
    hide IsOperatorToken, AcceptManual, ResolveRetryFiles, AllResolvable, HasPending;
    var checks := RetryChecks(s, runId, token, executable);
    NoneIsFound(s, OperatorKey(token));
    if HasFailedFiles(s, runId) {
      ResolvedAll(s, runId);
    }
    assert i < 7;
    assert checks[1].passed;
    assert 0 < i ==> checks[0].passed;
    assert 2 < i ==> checks[2].passed;
    assert 3 < i ==> checks[3].passed;
    assert 4 < i ==> checks[4].passed;
    assert 5 < i ==> checks[5].passed;
  }

  /** A retry request: refused in order, replayed under a used key, or a new pending run whose targets are those that the
      failed files of the parent call for. */
  lemma RetryAccept(s: Server, runId: string, token: string, executable: bool, newId: string)
    requires KeysUnique(s)
    ensures var (t, reply) := RequestRetryRun(s, runId, token, executable, newId);
            var checks := RetryChecks(s, runId, token, executable);
            && RefusedInOrder(s, t, reply, checks)
            && (AllPass(checks) && KeyUsed(s, OperatorKey(token)) ==> ReplayedRun(s, t, reply, OperatorKey(token)))
            && (AllPass(checks) && !KeyUsed(s, OperatorKey(token)) ==> CreatedRetry(s, t, reply, runId, token, newId))
  {
    hide RetryChecks, CreatedRetry, ReplayedRun, RequestRetryRun, FirstFailsAt;
    if KeyUsed(s, OperatorKey(token)) {
      UsedRetryKey(s, runId, token, executable, newId);
    } else {
      FreshRetry(s, runId, token, executable, newId);
    }
  }

  // ---- enabling and disabling ----

  /** Disabling fails every pending manual run of the task and touches no other row; the flag is set unless the task is to be
      enabled and cannot be. */
  lemma Toggle(s: Server, taskId: string, enabled: bool, executable: bool)
    ensures var t := SetTaskEnabled(s, taskId, enabled, executable);
            && t == s.(tasks := t.tasks, runs := t.runs) && t.runs.Keys == s.runs.Keys
            && (taskId !in s.tasks || (enabled && !executable) ==> t == s)
            && (taskId in s.tasks && (executable || !enabled) ==>
                  t.tasks == s.tasks[taskId := TaskRow(s.tasks[taskId].node, enabled)])
            && forall id :: id in s.runs ==>
                 t.runs[id] == if taskId in s.tasks && !enabled && IsPendingManualOf(s, id, taskId)
                               then s.runs[id].(status := Failed, failedFiles := Some([])) else s.runs[id]
  {
    var t := SetTaskEnabled(s, taskId, enabled, executable);
    if taskId in s.tasks && !(enabled && !executable) {
      assert t.tasks[taskId] == TaskRow(s.tasks[taskId].node, enabled);
    }
  }

  // ---- receipts ----

  /** The receipt under the id, if there is one, was claimed for the same content. */
  ghost predicate SameContent(s: Server, id: ReceiptId, fingerprint: string) {
    id in s.receipts ==> s.receipts[id].fingerprint == fingerprint
  }

  ghost predicate Answerable(s: Server, id: ReceiptId) { id in s.receipts ==> s.receipts[id].response.Some? }

  // ---- manifest ----

  ghost function ManifestChecks(s: Server, req: ManifestRequest): seq<Check> {
    var id := ReceiptId(req.node, ManifestKind, req.key);
    [Check(req.key != "", Invalid),
     Check(req.runId != "" && req.node != "", Invalid),
     Check(req.runId in s.runs, NotFound),
     Check(req.runId in s.runs && s.runs[req.runId].node == req.node, WrongNode),
     Check(SameContent(s, id, ManifestFingerprint(req)), IdempotencyConflict),
     Check(Answerable(s, id), IncompleteReceipt),
     Check(id in s.receipts || forall i :: 0 <= i < |req.files| ==> EntryValid(req.files[i]), Invalid)]
  }

  /** The raw files that were there, and one for each entry, in order, with what the entry says. */
  ghost predicate RawFilesAdded(s: Server, t: Server, req: ManifestRequest, ids: seq<string>) {
    && |ids| == |req.files|
    && (forall id :: id in t.rawFiles <==> id in s.rawFiles || id in ids)
    && (forall id :: id in s.rawFiles && id in t.rawFiles ==> t.rawFiles[id] == s.rawFiles[id])
    && forall i :: 0 <= i < |ids| ==> ids[i] in t.rawFiles && EntryStored(t.rawFiles[ids[i]], req, req.files[i])
  }

  predicate EntryStored(raw: RawFileRow, req: ManifestRequest, e: ManifestEntry) {
    && raw.runId == req.runId && raw.node == req.node && raw.originalName == e.originalName && raw.fileHash == e.fileHash
    && raw.storagePath == e.storagePath && raw.sizeBytes == e.sizeBytes && raw.sourceMtime == e.sourceMtime
    && raw.ingestStatus == (if e.ingestStatus == "" then "collected" else e.ingestStatus)
  }

  ghost predicate ManifestStored(s: Server, t: Server, req: ManifestRequest, ids: seq<string>) {
    && RawFilesAdded(s, t, req, ids) && t == s.(rawFiles := t.rawFiles, receipts := t.receipts)
    && t.receipts == s.receipts[ReceiptId(req.node, ManifestKind, req.key) :=
         Receipt(req.runId, ManifestFingerprint(req), Some(Response(ids, [], [], [])))]
  }

  lemma {:induction false} AddedExactly(rawFiles: map<string, RawFileRow>, req: ManifestRequest, ids: seq<string>, n: nat)
    requires n <= |req.files| == |ids|
    ensures forall id :: id in AddRawFiles(rawFiles, req, ids, n) <==> id in rawFiles || id in ids[..n]
  {
    if n > 0 {
      AddedExactly(rawFiles, req, ids, n - 1);
      assert ids[..n] == ids[..n - 1] + [ids[n - 1]];
    }
  }

  lemma AddedRows(s: Server, t: Server, req: ManifestRequest, ids: seq<string>)
    requires |ids| == |req.files| && FreshRawFileIds(s, ids) && t.rawFiles == AddRawFiles(s.rawFiles, req, ids, |ids|)
    ensures RawFilesAdded(s, t, req, ids)
  {
    AddedRawFiles(s, req, ids, |ids|);
    AddedExactly(s.rawFiles, req, ids, |ids|);
    assert ids[..|ids|] == ids;
  }

  /** A manifest: refused in order, answered again with the ids of its receipt, or recorded entry by entry. */
  lemma ManifestAnswered(s: Server, req: ManifestRequest, ids: seq<string>)
    requires |ids| == |req.files| && FreshRawFileIds(s, ids)
    ensures var (t, reply) := AcceptManifest(s, req, ids);
            var checks := ManifestChecks(s, req);
            var id := ReceiptId(req.node, ManifestKind, req.key);
            && RefusedInOrder(s, t, reply, checks)
            && (AllPass(checks) && id in s.receipts ==>
                  && s.receipts[id].response.Some? && t == s
                  && reply == ManifestAccepted(s.receipts[id].response.value.rawFileIds, true))
            && (AllPass(checks) && id !in s.receipts ==> ManifestStored(s, t, req, ids) && reply == ManifestAccepted(ids, false))
  {
    hide ManifestFingerprint, AddRawFiles, EntryValid, FreshRawFileIds, RawFilesAdded;
    var checks := ManifestChecks(s, req);
    forall i: nat | FirstFailsAt(checks, i) ensures AcceptManifest(s, req, ids) == (s, Refused(checks[i].reason)) {
      assert i == 0 || i == 1 || i == 2 || i == 3 || i == 4 || i == 5 || i == 6;
      assert 0 < i ==> checks[0].passed;
      assert 1 < i ==> checks[1].passed;
      assert 2 < i ==> checks[2].passed;
      assert 3 < i ==> checks[3].passed;
      assert 4 < i ==> checks[4].passed;
      assert 5 < i ==> checks[5].passed;
    }
    if AllPass(checks) {
      assert checks[0].passed && checks[1].passed && checks[2].passed && checks[3].passed && checks[4].passed;
      assert checks[5].passed && checks[6].passed;
      var t := AcceptManifest(s, req, ids).0;
      if ManifestReceiptId(req) !in s.receipts {
        AddedRows(s, t, req, ids);
      }
    }
  }

  // ---- report ----

  ghost predicate OfThisRun(rawFiles: map<string, RawFileRow>, runId: string, ref: string) {
    ref in rawFiles && rawFiles[ref].runId == runId
  }

  /** What the failed file may be and refer to when the target is the one with its path. */
  ghost predicate FitsTarget(rawFiles: map<string, RawFileRow>, runId: string, t: RetryFile, f: FailedFile) {
    if t.inputType.ArchiveInput? then
      f.archiveRef != "" && (f.archiveRef == t.archiveRef || OfThisRun(rawFiles, runId, f.archiveRef))
    else f.archiveRef == "" || OfThisRun(rawFiles, runId, f.archiveRef)
  }

  ghost predicate FitsSomeTarget(rawFiles: map<string, RawFileRow>, runId: string, targets: seq<RetryFile>, f: FailedFile) {
    exists i :: 0 <= i < |targets| && targets[i].sourcePath == f.sourcePath && FitsTarget(rawFiles, runId, targets[i], f)
  }

  lemma FileAllowedIff(rawFiles: map<string, RawFileRow>, runId: string, targets: seq<RetryFile>, f: FailedFile)
    requires TargetsDistinct(targets)
    ensures FailedFileAllowed(rawFiles, runId, Some(targets), f) <==> FitsSomeTarget(rawFiles, runId, targets, f)
  {
    if HasTarget(targets, f.sourcePath) {
      var i :| 0 <= i < |targets| && targets[i].sourcePath == f.sourcePath;
      var found := FindTarget(targets, f.sourcePath).value;
      var k :| 0 <= k < |targets| && targets[k] == found;
      assert k == i;
    }
  }

  /** A failure list is accepted if and only if it is empty for a success, names no path twice, and refers to archives of this
      run only, or to that of the target with its path; and in a retry every file is a target, and none that replays an
      archive has lost its reference. */
  lemma FailureListIff(rawFiles: map<string, RawFileRow>, runId: string, retryFiles: Option<seq<RetryFile>>, status: RunStatus,
                       failures: seq<FailedFile>)
    requires retryFiles.Some? ==> TargetsDistinct(retryFiles.value)
    ensures FailedFilesValid(rawFiles, runId, retryFiles, status, failures)
            <==> && (status.Succeeded? ==> failures == [])
                 && (forall i, j :: 0 <= i < |failures| && 0 <= j < |failures| && failures[i].sourcePath == failures[j].sourcePath
                       ==> i == j)
                 && forall f :: f in failures ==>
                      if retryFiles.Some? then FitsSomeTarget(rawFiles, runId, retryFiles.value, f)
                      else f.archiveRef == "" || OfThisRun(rawFiles, runId, f.archiveRef)
  {
    hide FailedFileAllowed, FitsSomeTarget, TargetsDistinct;
    forall i | 0 <= i < |failures|
      ensures FailedFileAllowed(rawFiles, runId, retryFiles, failures[i])
              <==> if retryFiles.Some? then FitsSomeTarget(rawFiles, runId, retryFiles.value, failures[i])
                   else failures[i].archiveRef == "" || OfThisRun(rawFiles, runId, failures[i].archiveRef)
    {
      if retryFiles.Some? {
        FileAllowedIff(rawFiles, runId, retryFiles.value, failures[i]);
      } else {
        NoSnapshot(rawFiles, runId, failures[i]);
      }
    }
  }

  lemma NoSnapshot(rawFiles: map<string, RawFileRow>, runId: string, f: FailedFile)
    ensures FailedFileAllowed(rawFiles, runId, None, f) <==> f.archiveRef == "" || OfThisRun(rawFiles, runId, f.archiveRef)
  {
  }

  predicate RecordStoredAs(row: RecordRow, req: ReportRequest, r: ReportRecord, id: string) {
    && row.id == id && row.runId == req.runId && row.rawFileId == r.rawFileId && row.record == r.record
    && row.parseStatus == (if r.parseStatus == "" then "parsed" else r.parseStatus)
  }

  /** The records of the report follow those that were there, in order. */
  ghost predicate RecordsAdded(s: Server, t: Server, req: ReportRequest, ids: seq<string>) {
    && |ids| == |req.records| && |t.records| == |s.records| + |ids| && s.records <= t.records
    && forall i :: 0 <= i < |ids| ==> RecordStoredAs(t.records[|s.records| + i], req, req.records[i], ids[i])
  }

  lemma {:induction false} NewRecordFields(req: ReportRequest, ids: seq<string>, n: nat)
    requires n <= |req.records| == |ids|
    ensures forall i :: 0 <= i < n ==> RecordStoredAs(NewRecords(req, ids, n)[i], req, req.records[i], ids[i])
  {
    if n > 0 {
      NewRecordFields(req, ids, n - 1);
    }
  }

  ghost predicate ReportStored(s: Server, t: Server, req: ReportRequest, recordIds: seq<string>, response: Response) {
    && RecordsAdded(s, t, req, recordIds) && req.runId in s.runs && req.runId in t.runs
    && t == s.(records := t.records, runs := t.runs, receipts := t.receipts)
    && t.runs == s.runs[req.runId := t.runs[req.runId]] && Outcome(t.runs[req.runId], req)
    && RunAdvances(s.runs[req.runId], t.runs[req.runId]) && t.runs[req.runId].startedAt == s.runs[req.runId].startedAt
    && t.receipts == s.receipts[ReceiptId(req.node, ReportKind, req.key) :=
         Receipt(req.runId, ReportFingerprint(req), Some(response))]
  }

  ghost function ReportChecks(s: Server, req: ReportRequest, rulesUsable: bool): seq<Check> {
    var id := ReceiptId(req.node, ReportKind, req.key);
    var known := id in s.receipts;
    [Check(req.key != "", Invalid),
     Check(req.runId != "" && req.node != "", Invalid),
     Check(req.runId in s.runs, NotFound),
     Check(req.runId in s.runs && s.runs[req.runId].node == req.node, WrongNode),
     Check(req.status.Succeeded? || req.status.Failed?, Invalid),
     Check(SameContent(s, id, ReportFingerprint(req)), IdempotencyConflict),
     Check(Answerable(s, id), IncompleteReceipt),
     Check(known || !HasReport(s, req.runId), TaskRunConflict),
     Check(known || (req.runId in s.runs && !Terminal(s.runs[req.runId].status)), RunFinished),
     Check(known || forall i :: 0 <= i < |req.records| ==> IdsPresent(req.records[i]), Invalid),
     Check(known || rulesUsable, RuleUnavailable),
     Check(known || req.failedFiles.None?
           || (req.runId in s.runs && FailedFilesValid(s.rawFiles, req.runId, s.runs[req.runId].retryFiles, req.status,
                                                       req.failedFiles.value)), BadFailedFiles),
     Check(known || forall i :: 0 <= i < |req.records| ==> RecordStorable(s.rawFiles, req.runId, req.records[i]), BadRecords)]
  }

  lemma ReportRefused(s: Server, req: ReportRequest, recordIds: seq<string>, qcIds: seq<string>, alertIds: seq<string>,
                      rulesUsable: bool, i: nat)
    requires |recordIds| == |req.records| && FirstFailsAt(ReportChecks(s, req, rulesUsable), i)
    ensures AcceptReport(s, req, recordIds, qcIds, alertIds, rulesUsable)
            == (s, Refused(ReportChecks(s, req, rulesUsable)[i].reason))
  {
    hide ReportFingerprint, NewRecords, FailedFilesValid, RecordStorable, IdsPresent;
    var checks := ReportChecks(s, req, rulesUsable);
    assert i < 13;
    assert 0 < i ==> checks[0].passed;
    assert 1 < i ==> checks[1].passed;
    assert 2 < i ==> checks[2].passed;
    assert 3 < i ==> checks[3].passed;
    assert 4 < i ==> checks[4].passed;
    assert 5 < i ==> checks[5].passed;
    assert 6 < i ==> checks[6].passed;
    assert 7 < i ==> checks[7].passed;
    assert 8 < i ==> checks[8].passed;
    assert 9 < i ==> checks[9].passed;
    assert 10 < i ==> checks[10].passed;
    assert 11 < i ==> checks[11].passed;
  }

  /** A report: refused in order, answered again as its receipt says, or stored: records, outcome and receipt. */
  lemma ReportAnswered(s: Server, req: ReportRequest, recordIds: seq<string>, qcIds: seq<string>, alertIds: seq<string>,
                       rulesUsable: bool)
    requires |recordIds| == |req.records|
    ensures var (t, reply) := AcceptReport(s, req, recordIds, qcIds, alertIds, rulesUsable);
            var checks := ReportChecks(s, req, rulesUsable);
            var id := ReceiptId(req.node, ReportKind, req.key);
            var response := Response([], recordIds, qcIds, alertIds);
            && RefusedInOrder(s, t, reply, checks)
            && (AllPass(checks) && id in s.receipts ==>
                  s.receipts[id].response.Some? && t == s && reply == ReportAccepted(s.receipts[id].response.value, true))
            && (AllPass(checks) && id !in s.receipts ==>
                  ReportStored(s, t, req, recordIds, response) && reply == ReportAccepted(response, false))
  {
    hide ReportFingerprint, NewRecords, FailedFilesValid, RecordStorable, IdsPresent, AcceptReport;
    var checks := ReportChecks(s, req, rulesUsable);
    forall i: nat | FirstFailsAt(checks, i)
      ensures AcceptReport(s, req, recordIds, qcIds, alertIds, rulesUsable) == (s, Refused(checks[i].reason))
    {
      ReportRefused(s, req, recordIds, qcIds, alertIds, rulesUsable, i);
    }
    if AllPass(checks) {
      ReportPasses(s, req, recordIds, qcIds, alertIds, rulesUsable);
    }
  }

  lemma ReportPasses(s: Server, req: ReportRequest, recordIds: seq<string>, qcIds: seq<string>, alertIds: seq<string>,
                     rulesUsable: bool)
    requires |recordIds| == |req.records| && AllPass(ReportChecks(s, req, rulesUsable))
    ensures var (t, reply) := AcceptReport(s, req, recordIds, qcIds, alertIds, rulesUsable);
            var id := ReceiptId(req.node, ReportKind, req.key);
            var response := Response([], recordIds, qcIds, alertIds);
            if id in s.receipts then
              s.receipts[id].response.Some? && t == s && reply == ReportAccepted(s.receipts[id].response.value, true)
            else ReportStored(s, t, req, recordIds, response) && reply == ReportAccepted(response, false)
  {
    hide ReportFingerprint, NewRecords, FailedFilesValid, RecordStorable, IdsPresent;
    var checks := ReportChecks(s, req, rulesUsable);
    assert checks[0].passed && checks[1].passed && checks[2].passed && checks[3].passed && checks[4].passed && checks[5].passed;
    assert checks[6].passed && checks[7].passed && checks[8].passed && checks[9].passed && checks[10].passed && checks[11].passed;
    assert checks[12].passed;
    NewRecordFields(req, recordIds, |recordIds|);
    assert HasReport(s, req.runId) <==> exists other :: ReportReceiptOf(s, other, req.runId);
  }
}
