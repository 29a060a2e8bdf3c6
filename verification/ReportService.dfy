/** The report service over the tables: receipts are claimed first and completed last, and a refusal rolls all of it
    back. */
module ReportService {
  import opened Messages
  import opened Fingerprint
  import opened ControlPlane

  function QcCount(records: seq<ReportRecord>, n: nat): nat
    requires n <= |records|
  {
    if n == 0 then 0 else QcCount(records, n - 1) + |records[n - 1].qc|
  }

  lemma {:induction false} QcCountGrows(records: seq<ReportRecord>, m: nat, n: nat)
    requires m <= n <= |records|
    ensures QcCount(records, m) <= QcCount(records, n)
  {
    if m < n {
      QcCountGrows(records, m, n - 1);
    }
  }

  /** The alerts that were raised: a QC result without one has an empty id here. */
  function Raised(alerts: seq<string>, n: nat): seq<string>
    requires n <= |alerts|
  {
    if n == 0 then [] else Raised(alerts, n - 1) + (if alerts[n - 1] != "" then [alerts[n - 1]] else [])
  }

  /** rules maps a QC rule to whether it is enabled. */
  predicate RulesUsable(rules: map<string, bool>, records: seq<ReportRecord>) {
    forall i, j :: 0 <= i < |records| && 0 <= j < |records[i].qc| ==>
      records[i].qc[j].ruleId in rules && rules[records[i].qc[j].ruleId]
  }

  class AgentReportService {
    const tasks: map<string, TaskRow>
    var runs: map<string, RunRow>
    var rawFiles: map<string, RawFileRow>
    var records: seq<RecordRow>
    var receipts: map<ReceiptId, Receipt>

    constructor (s: Server)
      ensures State() == s
    {
      tasks := s.tasks;
      runs := s.runs;
      rawFiles := s.rawFiles;
      records := s.records;
      receipts := s.receipts;
    }

    function State(): Server
      reads this
    {
      Server(tasks, runs, rawFiles, records, receipts)
    }

    method Rollback(s: Server)
      requires s.tasks == tasks
      modifies this
      ensures State() == s
    {
      runs := s.runs;
      rawFiles := s.rawFiles;
      records := s.records;
      receipts := s.receipts;
    }

    /** Inserts an incomplete receipt unless a unique index forbids it; then says why. */
    method Claim(id: ReceiptId, runId: string, fingerprint: string) returns (claim: Claim)
      modifies this
      ensures claim == ClaimReceipt(old(State()), id, runId, fingerprint)
      ensures State() == if claim.Acquired? then old(State()).(receipts := old(receipts)[id := Receipt(runId, fingerprint, None)])
                         else old(State())
    {
      var sameReport := exists other :: other in receipts && other.kind.ReportKind? && receipts[other].runId == runId;
      assert sameReport <==> exists other :: ReportReceiptOf(State(), other, runId) by {
        if sameReport {
          var other :| other in receipts && other.kind.ReportKind? && receipts[other].runId == runId;
          assert ReportReceiptOf(State(), other, runId);
        }
        if other :| ReportReceiptOf(State(), other, runId) {
          assert other in receipts;
        }
      }
      if id !in receipts && !(id.kind.ReportKind? && sameReport) {
        receipts := receipts[id := Receipt(runId, fingerprint, None)];
        return Acquired;
      }
      if id in receipts {
        if receipts[id].fingerprint != fingerprint {
          return Conflict(IdempotencyConflict);
        }
        if receipts[id].response.None? {
          return Conflict(IncompleteReceipt);
        }
        return Replay(receipts[id].response.value);
      }
      return Conflict(TaskRunConflict);
    }

    method Complete(id: ReceiptId, response: Response)
      requires id in receipts
      modifies this`receipts
      ensures receipts == old(receipts)[id := old(receipts)[id].(response := Some(response))]
    {
      receipts := receipts[id := receipts[id].(response := Some(response))];
    }

    /** One transaction: the raw files and the completed receipt, or nothing. drawn holds the ids the table would draw. */
    method AcceptRawFileManifest(req: ManifestRequest, drawn: seq<string>) returns (reply: Reply)
      requires |drawn| == |req.files|
      modifies this
      ensures (State(), reply) == ControlPlane.AcceptManifest(old(State()), req, drawn)
    {
      hide ManifestFingerprint;
      var before := State();
      if req.key == "" {
        return Refused(Invalid);
      }
      var ownership := Ownership(before, req.runId, req.node);
      if ownership.Some? {
        return Refused(ownership.value);
      }
      var id := ManifestReceiptId(req);
      var claim := Claim(id, req.runId, ManifestFingerprint(req));
      if claim.Replay? {
        return ManifestAccepted(claim.response.rawFileIds, true);
      }
      if claim.Conflict? {
        return Refused(claim.reason);
      }
      var ids: seq<string> := [];
      for i := 0 to |req.files|
        invariant ids == drawn[..i]
        invariant forall k :: 0 <= k < i ==> EntryValid(req.files[k])
        invariant State() == before.(rawFiles := AddRawFiles(before.rawFiles, req, drawn, i),
                                     receipts := before.receipts[id := Receipt(req.runId, ManifestFingerprint(req), None)])
      {
        if !EntryValid(req.files[i]) {
          Rollback(before);
          return Refused(Invalid);
        }
        rawFiles := rawFiles[drawn[i] := RawFileOf(req, req.files[i])];
        ids := ids + [drawn[i]];
      }
      assert drawn[..|req.files|] == drawn;
      Complete(id, ManifestResponse(ids));
      assert receipts == before.receipts[id := Receipt(req.runId, ManifestFingerprint(req), Some(ManifestResponse(drawn)))];
      return ManifestAccepted(ids, false);
    }

    /** The checks on a failure list, entry by entry, in the order the service makes them. */
    method ValidateFailedFiles(req: ReportRequest) returns (ok: bool)
      requires req.runId in runs && req.failedFiles.Some?
      ensures ok <==> FailedFilesValid(rawFiles, req.runId, runs[req.runId].retryFiles, req.status, req.failedFiles.value)
    {
      var failures, retryFiles := req.failedFiles.value, runs[req.runId].retryFiles;
      if req.status.Succeeded? && failures != [] {
        return false;
      }
      var seen: set<string> := {};
      for i := 0 to |failures|
        invariant forall path :: path in seen <==> exists k :: 0 <= k < i && failures[k].sourcePath == path
        invariant forall k, l :: 0 <= k < l < i ==> failures[k].sourcePath != failures[l].sourcePath
        invariant forall k :: 0 <= k < i ==> FailedFileAllowed(rawFiles, req.runId, retryFiles, failures[k])
      {
        var failed := failures[i];
        if retryFiles.Some? && !HasTarget(retryFiles.value, failed.sourcePath) {
          assert !FailedFileAllowed(rawFiles, req.runId, retryFiles, failures[i]);
          return false;
        }
        if failed.sourcePath in seen {
          var k :| 0 <= k < i && failures[k].sourcePath == failed.sourcePath;
          return false;
        }
        seen := seen + {failed.sourcePath};
        var target := if retryFiles.Some? then FindTarget(retryFiles.value, failed.sourcePath) else None;
        if failed.archiveRef == "" {
          if target.Some? && target.value.inputType.ArchiveInput? {
            assert !FailedFileAllowed(rawFiles, req.runId, retryFiles, failures[i]);
            return false;
          }
          continue;
        }
        if failed.archiveRef in rawFiles && rawFiles[failed.archiveRef].runId == req.runId {
          continue;
        }
        var inherited := target.Some? && target.value.inputType.ArchiveInput? && target.value.archiveRef == failed.archiveRef;
        if !inherited {
          assert !FailedFileAllowed(rawFiles, req.runId, retryFiles, failures[i]);
          return false;
        }
      }
      return true;
    }

    /** The checks made after the receipt is claimed and before anything is written. */
    method CheckReport(req: ReportRequest, rules: map<string, bool>) returns (refusal: Option<Refusal>)
      requires req.runId in runs
      ensures var full := ReportRefusal(State(), req, RulesUsable(rules, req.records));
              refusal == if full == Some(BadRecords) then None else full
    {
      if Terminal(runs[req.runId].status) {
        return Some(RunFinished);
      }
      for i := 0 to |req.records|
        invariant forall k :: 0 <= k < i ==> IdsPresent(req.records[k])
      {
        if req.records[i].rawFileId == "" {
          assert !IdsPresent(req.records[i]);
          return Some(Invalid);
        }
        for j := 0 to |req.records[i].qc|
          invariant forall l :: 0 <= l < j ==> req.records[i].qc[l].ruleId != ""
        {
          if req.records[i].qc[j].ruleId == "" {
            assert !IdsPresent(req.records[i]);
            return Some(Invalid);
          }
        }
      }
      var checked: set<string> := {};
      for i := 0 to |req.records|
        invariant forall id :: id in checked ==> id in rules && rules[id]
        invariant forall k, l :: 0 <= k < i && 0 <= l < |req.records[k].qc| ==> req.records[k].qc[l].ruleId in checked
      {
        for j := 0 to |req.records[i].qc|
          invariant forall id :: id in checked ==> id in rules && rules[id]
          invariant forall k, l :: 0 <= k < i && 0 <= l < |req.records[k].qc| ==> req.records[k].qc[l].ruleId in checked
          invariant forall l :: 0 <= l < j ==> req.records[i].qc[l].ruleId in checked
        {
          var rule := req.records[i].qc[j].ruleId;
          if rule in checked {
            continue;
          }
          if rule !in rules || !rules[rule] {
            return Some(RuleUnavailable);
          }
          checked := checked + {rule};
        }
      }
      if req.failedFiles.Some? {
        var valid := ValidateFailedFiles(req);
        if !valid {
          return Some(BadFailedFiles);
        }
      }
      return None;
    }

    /** One transaction: records, outcome of the run and the completed receipt, or nothing. */
    method AcceptTaskRunReport(req: ReportRequest, recordIds: seq<string>, qcDrawn: seq<string>, alerts: seq<string>,
                               rules: map<string, bool>)
      returns (reply: Reply)
      requires |recordIds| == |req.records| && |qcDrawn| == |alerts| == QcCount(req.records, |req.records|)
      modifies this
      ensures (State(), reply) == ControlPlane.AcceptReport(old(State()), req, recordIds, qcDrawn, Raised(alerts, |alerts|),
                                                            RulesUsable(rules, req.records))
    {
      hide ReportFingerprint, RulesUsable, FailedFilesValid, IdsPresent;
      var before := State();
      if req.key == "" {
        return Refused(Invalid);
      }
      var ownership := Ownership(before, req.runId, req.node);
      if ownership.Some? {
        return Refused(ownership.value);
      }
      if !Terminal(req.status) {
        return Refused(Invalid);
      }
      var id := ReportReceiptId(req);
      var claim := Claim(id, req.runId, ReportFingerprint(req));
      if claim.Replay? {
        return ReportAccepted(claim.response, true);
      }
      if claim.Conflict? {
        return Refused(claim.reason);
      }
      ghost var claimed := State();
      var refusal := CheckReport(req, rules);
      assert ReportRefusal(State(), req, RulesUsable(rules, req.records)) == ReportRefusal(before, req, RulesUsable(rules, req.records));
      if refusal.Some? {
        Rollback(before);
        return Refused(refusal.value);
      }
      var stored, response := StoreRecords(req, recordIds, qcDrawn, alerts);
      if !stored {
        Rollback(before);
        return Refused(BadRecords);
      }
      runs := runs[req.runId := FinishedRun(runs[req.runId], req)];
      Complete(id, response);
      assert receipts == before.receipts[id := Receipt(req.runId, ReportFingerprint(req), Some(response))];
      return ReportAccepted(response, false);
    }

    /** Records the QC results of one record, each followed by the alert it raises. */
    method StoreQcResults(count: nat, response: Response, qcDrawn: seq<string>,
                          alerts: seq<string>) returns (extended: Response)
      requires |response.qcIds| + count <= |qcDrawn| == |alerts|
      requires response.qcIds == qcDrawn[..|response.qcIds|] && response.alertIds == Raised(alerts, |response.qcIds|)
      ensures extended == response.(qcIds := qcDrawn[..|response.qcIds| + count], alertIds := Raised(alerts, |response.qcIds| + count))
    {
      extended := response;
      for j := 0 to count
        invariant extended == response.(qcIds := qcDrawn[..|response.qcIds| + j], alertIds := Raised(alerts, |response.qcIds| + j))
      {
        var at := |extended.qcIds|;
        extended := extended.(qcIds := extended.qcIds + [qcDrawn[at]]);
        if alerts[at] != "" {
          extended := extended.(alertIds := extended.alertIds + [alerts[at]]);
        }
      }
    }

    /** Writes the records one by one, each with its QC results and alerts, and collects the ids in that order. */
    method StoreRecords(req: ReportRequest, recordIds: seq<string>, qcDrawn: seq<string>, alerts: seq<string>)
      returns (stored: bool, response: Response)
      requires |recordIds| == |req.records| && |qcDrawn| == |alerts| == QcCount(req.records, |req.records|)
      modifies this`records
      ensures stored <==> forall i :: 0 <= i < |req.records| ==> RecordStorable(rawFiles, req.runId, req.records[i])
      ensures stored ==> records == old(records) + NewRecords(req, recordIds, |recordIds|)
      ensures stored ==> response == ReportResponse(recordIds, qcDrawn, Raised(alerts, |alerts|))
    {
      hide RecordStorable, RecordOf;
      var stored0 := records;
      response := ReportResponse([], [], []);
      for i := 0 to |req.records|
        invariant forall k :: 0 <= k < i ==> RecordStorable(rawFiles, req.runId, req.records[k])
        invariant records == stored0 + NewRecords(req, recordIds, i)
        invariant QcCount(req.records, i) <= |qcDrawn|
        invariant response == ReportResponse(recordIds[..i], qcDrawn[..QcCount(req.records, i)],
                                             Raised(alerts, QcCount(req.records, i)))
      {
        var parsed := req.records[i];
        if !RecordStorable(rawFiles, req.runId, parsed) {
          return false, response;
        }
        QcCountGrows(req.records, i + 1, |req.records|);
        records := records + [RecordOf(req, parsed, recordIds[i])];
        response := response.(recordIds := response.recordIds + [recordIds[i]]);
        response := StoreQcResults(|parsed.qc|, response, qcDrawn, alerts);
      }
      return true, response;
    }
  }
}
