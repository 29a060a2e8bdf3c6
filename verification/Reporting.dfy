/** Building the final report of a job from its archived files, and the report of a run-level collection failure. */
module Reporting {
  import opened Messages
  import opened Decimals
  import opened QueueModel
  import ControlPlane

  // ---- error summary ----

  const MAX_ERROR_DETAILS := 5
  const MAX_SUMMARY_BYTES := 512

  function Details(errors: seq<string>, n: nat): string
    requires n <= |errors|
  {
    if n == 0 then "" else Details(errors, n - 1) + "; " + errors[n - 1]
  }

  function SummaryText(errors: seq<string>): (text: string)
    ensures |text| <= MAX_SUMMARY_BYTES
    ensures errors == [] <==> text == ""
  {
    if errors == [] then ""
    else
      var shown := if |errors| < MAX_ERROR_DETAILS then |errors| else MAX_ERROR_DETAILS;
      var full := Show(|errors|) + " error(s)" + Details(errors, shown)
                  + (if |errors| > shown then "; " + Show(|errors| - shown) + " additional error(s) omitted" else "");
      if |full| > MAX_SUMMARY_BYTES then full[..MAX_SUMMARY_BYTES - 3] + "..." else full
  }

  // ---- what parsing one archived file gives ----

  datatype ParseOutcome = ParseFailed(message: string) | Parsed(records: seq<ParsedRecord>, errors: seq<string>)

  predicate CleanParse(outcome: ParseOutcome) { outcome.Parsed? && outcome.errors == [] }

  /** The files that take part in parsing: archived and acknowledged by the control plane. */
  predicate Parsable(file: FileRow) { file.errorDetail == "" && file.rawFileId != "" }

  datatype Tally = Tally(total: int, success: int, failed: int, errors: seq<string>, failures: seq<FailedFile>,
                         clean: seq<bool>, records: seq<ReportRecord>)

  function FailureTexts(failures: seq<FailedFile>, n: nat): (texts: seq<string>)
    requires n <= |failures|
    ensures |texts| == n
  {
    if n == 0 then []
    else FailureTexts(failures, n - 1) + [failures[n - 1].originalName + ": " + failures[n - 1].message]
  }

  function ErrorTexts(name: string, errors: seq<string>, n: nat): (texts: seq<string>)
    requires n <= |errors|
    ensures |texts| == n
  {
    if n == 0 then [] else ErrorTexts(name, errors, n - 1) + [name + ": " + errors[n - 1]]
  }

  function QcResults(rules: seq<QcRule>, record: ParsedRecord, check: (QcRule, ParsedRecord) -> QcResult,
                     n: nat): (r: seq<QcResult>)
    requires n <= |rules|
    ensures |r| == n
  {
    if n == 0 then [] else QcResults(rules, record, check, n - 1) + [check(rules[n - 1], record)]
  }

  function RecordsWithQc(rules: seq<QcRule>, rawFileId: string, records: seq<ParsedRecord>,
                         check: (QcRule, ParsedRecord) -> QcResult, n: nat): (r: seq<ReportRecord>)
    requires n <= |records|
    ensures |r| == n
    ensures forall i :: 0 <= i < n ==> r[i].rawFileId == rawFileId && r[i].record == records[i]
  {
    if n == 0 then []
    else RecordsWithQc(rules, rawFileId, records, check, n - 1)
         + [ReportRecord(rawFileId, records[n - 1], "parsed", QcResults(rules, records[n - 1], check, |rules|))]
  }

  function InitialTally(failures: seq<FailedFile>): Tally {
    Tally(0, 0, 0, FailureTexts(failures, |failures|), failures, [], [])
  }

  function ParseFailure(file: FileRow, message: string): FailedFile {
    FailedFile(file.sourcePath, file.originalName, "parse", message, file.rawFileId)
  }

  function TallyFile(t: Tally, file: FileRow, outcome: ParseOutcome, rules: seq<QcRule>,
                     check: (QcRule, ParsedRecord) -> QcResult): Tally
  {
    if !Parsable(file) then t.(clean := t.clean + [false])
    else
      match outcome
      case ParseFailed(message) =>
        t.(clean := t.clean + [false], total := t.total + 1, failed := t.failed + 1,
           errors := t.errors + [file.originalName + ": " + message], failures := t.failures + [ParseFailure(file, message)])
      case Parsed(records, errors) =>
        Tally(t.total + |records| + |errors|, t.success + |records|, t.failed + |errors|,
              t.errors + ErrorTexts(file.originalName, errors, |errors|),
              if errors == [] then t.failures else t.failures + [ParseFailure(file, errors[0])],
              t.clean + [errors == []],
              t.records + RecordsWithQc(rules, file.rawFileId, records, check, |records|))
  }

  /** The tally after the first n files; parse gives the outcome of parsing an archive path. */
  function TallyFiles(files: seq<FileRow>, failures: seq<FailedFile>, parse: string -> ParseOutcome, rules: seq<QcRule>,
                      check: (QcRule, ParsedRecord) -> QcResult, n: nat): Tally
    requires n <= |files|
  {
    if n == 0 then InitialTally(failures)
    else TallyFile(TallyFiles(files, failures, parse, rules, check, n - 1), files[n - 1], parse(files[n - 1].archivePath),
                   rules, check)
  }

  function PersistedFailures(job: JobRow): seq<FailedFile> { if job.failures.Some? then job.failures.value else [] }

  function ReportOf(job: JobRow, t: Tally, finishedAt: string): ReportRequest {
    ReportRequest(job.runId, job.task.node, ReportKey(job.task.node, job.runId),
                  if t.errors == [] && t.failures == [] then Succeeded else Failed, finishedAt, t.total, t.success,
                  t.failed, SummaryText(t.errors), t.records, Some(t.failures))
  }

  function JobTally(job: JobRow, parse: string -> ParseOutcome, check: (QcRule, ParsedRecord) -> QcResult): Tally {
    TallyFiles(job.files, PersistedFailures(job), parse, job.task.qcRules, check, |job.files|)
  }

  /** The loop that parses every file of a job and accumulates its report. */
  method BuildReport(job: JobRow, finishedAt: string, parse: string -> ParseOutcome,
                     check: (QcRule, ParsedRecord) -> QcResult)
    returns (report: ReportRequest, clean: seq<bool>)
    ensures report == ReportOf(job, JobTally(job, parse, check), finishedAt)
    ensures clean == JobTally(job, parse, check).clean
  {
    var failures := PersistedFailures(job);
    var t := Tally(0, 0, 0, [], failures, [], []);
    for i := 0 to |failures|
      invariant t == Tally(0, 0, 0, FailureTexts(failures, i), failures, [], [])
    {
      t := t.(errors := t.errors + [failures[i].originalName + ": " + failures[i].message]);
    }
    for i := 0 to |job.files|
      invariant t == TallyFiles(job.files, failures, parse, job.task.qcRules, check, i)
    {
      var file := job.files[i];
      if !Parsable(file) {
        t := t.(clean := t.clean + [false]);
        continue;
      }
      var outcome := parse(file.archivePath);
      t := t.(clean := t.clean + [CleanParse(outcome)]);
      if outcome.ParseFailed? {
        t := t.(total := t.total + 1, failed := t.failed + 1, errors := t.errors + [file.originalName + ": " + outcome.message],
                failures := t.failures + [ParseFailure(file, outcome.message)]);
        continue;
      }
      t := t.(total := t.total + |outcome.records| + |outcome.errors|, success := t.success + |outcome.records|,
              failed := t.failed + |outcome.errors|,
              errors := t.errors + ErrorTexts(file.originalName, outcome.errors, |outcome.errors|));
      if outcome.errors != [] {
        t := t.(failures := t.failures + [ParseFailure(file, outcome.errors[0])]);
      }
      var records := AttachQc(job.task.qcRules, file.rawFileId, outcome.records, check);
      t := t.(records := t.records + records);
    }
    return ReportOf(job, t, finishedAt), t.clean;
  }

  method AttachQc(rules: seq<QcRule>, rawFileId: string, records: seq<ParsedRecord>,
                  check: (QcRule, ParsedRecord) -> QcResult)
    returns (attached: seq<ReportRecord>)
    ensures attached == RecordsWithQc(rules, rawFileId, records, check, |records|)
  {
    attached := [];
    for i := 0 to |records|
      invariant attached == RecordsWithQc(rules, rawFileId, records, check, i)
    {
      var results: seq<QcResult> := [];
      for j := 0 to |rules|
        invariant results == QcResults(rules, records[i], check, j)
      {
        results := results + [check(rules[j], records[i])];
      }
      attached := attached + [ReportRecord(rawFileId, records[i], "parsed", results)];
    }
  }

  /** The report of a job whose collection failed as a whole. */
  function CollectionFailureReport(job: JobRow, error: string, finishedAt: string): ReportRequest {
    ReportRequest(job.runId, job.task.node, ReportKey(job.task.node, job.runId), Failed, finishedAt, 1, 0, 1, error, [],
                  Some(PersistedFailures(job)))
  }

  function NoneClean(job: JobRow): seq<bool> { seq(|job.files|, _ => false) }

  // ---- properties of the tally ----

  /** Record i of the tally comes out of parsing the archive of a file that carries its raw file id. */
  ghost predicate FromArchive(files: seq<FileRow>, parse: string -> ParseOutcome, n: nat, r: ReportRecord)
    requires n <= |files|
  {
    exists k :: 0 <= k < n && Parsable(files[k]) && r.rawFileId == files[k].rawFileId
                && parse(files[k].archivePath).Parsed? && r.record in parse(files[k].archivePath).records
  }

  /** A parse failure names a parsed file and refers to the raw file of this run. */
  ghost predicate ParseFailureOf(files: seq<FileRow>, n: nat, f: FailedFile)
    requires n <= |files|
  {
    exists k :: 0 <= k < n && Parsable(files[k]) && f.sourcePath == files[k].sourcePath && f.archiveRef == files[k].rawFileId
                && f.originalName == files[k].originalName && f.stage == "parse"
  }

  /** Conservation: every item is either a parsed record or a failure, and the parsed ones are exactly the records. */
  lemma {:induction false} TallyConserves(files: seq<FileRow>, failures: seq<FailedFile>, parse: string -> ParseOutcome,
                                          rules: seq<QcRule>, check: (QcRule, ParsedRecord) -> QcResult, n: nat)
    requires n <= |files|
    ensures var t := TallyFiles(files, failures, parse, rules, check, n);
            t.total == t.success + t.failed && t.success == |t.records| && |t.clean| == n && t.failed >= 0
  {
    if n > 0 {
      TallyConserves(files, failures, parse, rules, check, n - 1);
    }
  }

  lemma {:induction false} TallyRecords(files: seq<FileRow>, failures: seq<FailedFile>, parse: string -> ParseOutcome,
                                        rules: seq<QcRule>, check: (QcRule, ParsedRecord) -> QcResult, n: nat)
    requires n <= |files|
    ensures forall r :: r in TallyFiles(files, failures, parse, rules, check, n).records ==> FromArchive(files, parse, n, r)
  {
    if n > 0 {
      TallyRecords(files, failures, parse, rules, check, n - 1);
      var before := TallyFiles(files, failures, parse, rules, check, n - 1).records;
      forall r | r in TallyFiles(files, failures, parse, rules, check, n).records
        ensures FromArchive(files, parse, n, r)
      {
        if r in before {
          assert FromArchive(files, parse, n - 1, r);
        } else {
          assert Parsable(files[n - 1]) && parse(files[n - 1].archivePath).Parsed?;
        }
      }
    }
  }

  /** The persisted failures come first and unchanged; what follows are parse failures, in file order. */
  lemma {:induction false} TallyFailures(files: seq<FileRow>, failures: seq<FailedFile>, parse: string -> ParseOutcome,
                                         rules: seq<QcRule>, check: (QcRule, ParsedRecord) -> QcResult, n: nat)
    requires n <= |files|
    ensures var t := TallyFiles(files, failures, parse, rules, check, n);
            && failures <= t.failures
            && forall i :: |failures| <= i < |t.failures| ==> ParseFailureOf(files, n, t.failures[i])
  {
    if n > 0 {
      TallyFailures(files, failures, parse, rules, check, n - 1);
      var before := TallyFiles(files, failures, parse, rules, check, n - 1);
      var t := TallyFiles(files, failures, parse, rules, check, n);
      forall i | |failures| <= i < |t.failures| ensures ParseFailureOf(files, n, t.failures[i]) {
        if i < |before.failures| {
          assert t.failures[i] == before.failures[i] && ParseFailureOf(files, n - 1, before.failures[i]);
          var k :| 0 <= k < n - 1 && Parsable(files[k]) && before.failures[i].sourcePath == files[k].sourcePath
                   && before.failures[i].archiveRef == files[k].rawFileId
                   && before.failures[i].originalName == files[k].originalName && before.failures[i].stage == "parse";
        }
      }
    }
  }

  ghost predicate Listed(failures: seq<FailedFile>, path: string, stage: string) {
    exists i :: 0 <= i < |failures| && failures[i].sourcePath == path && failures[i].stage == stage
  }

  /** Every file that was parsed with an error is in the list. */
  lemma {:induction false} TallyComplete(files: seq<FileRow>, failures: seq<FailedFile>, parse: string -> ParseOutcome,
                                         rules: seq<QcRule>, check: (QcRule, ParsedRecord) -> QcResult, n: nat, k: nat)
    requires k < n <= |files| && Parsable(files[k]) && !CleanParse(parse(files[k].archivePath))
    ensures Listed(TallyFiles(files, failures, parse, rules, check, n).failures, files[k].sourcePath, "parse")
  {
    var before := TallyFiles(files, failures, parse, rules, check, n - 1).failures;
    var after := TallyFiles(files, failures, parse, rules, check, n).failures;
    if k == n - 1 {
      assert after[|before|].sourcePath == files[k].sourcePath;
    } else {
      TallyComplete(files, failures, parse, rules, check, n - 1, k);
      var i :| 0 <= i < |before| && before[i].sourcePath == files[k].sourcePath && before[i].stage == "parse";
      assert after[i] == before[i];
    }
  }

  /** Paths already in the list and paths of distinct files never coincide, so the whole list stays unique by path. */
  lemma {:induction false} TallyPathsUnique(files: seq<FileRow>, failures: seq<FailedFile>,
                                            parse: string -> ParseOutcome,
                                            rules: seq<QcRule>, check: (QcRule, ParsedRecord) -> QcResult, n: nat)
    requires n <= |files|
    requires ControlPlane.UniquePaths(failures)
    requires forall i, j :: 0 <= i < j < |files| ==> files[i].sourcePath != files[j].sourcePath
    requires forall i, j :: 0 <= i < |files| && 0 <= j < |failures| && Parsable(files[i]) ==>
                              files[i].sourcePath != failures[j].sourcePath
    ensures ControlPlane.UniquePaths(TallyFiles(files, failures, parse, rules, check, n).failures)
  {
    if n > 0 {
      TallyPathsUnique(files, failures, parse, rules, check, n - 1);
      TallyFailures(files, failures, parse, rules, check, n - 1);
      var before := TallyFiles(files, failures, parse, rules, check, n - 1);
      var t := TallyFiles(files, failures, parse, rules, check, n);
      if |t.failures| > |before.failures| {
        forall i | 0 <= i < |before.failures| ensures before.failures[i].sourcePath != files[n - 1].sourcePath {
          if i < |failures| {
            assert before.failures[i] == failures[i];
          } else {
            assert ParseFailureOf(files, n - 1, before.failures[i]);
          }
        }
      }
    }
  }

  /** An empty list of errors and failures means that every parsable file so far parsed cleanly. */
  lemma {:induction false} TallyClean(files: seq<FileRow>, failures: seq<FailedFile>, parse: string -> ParseOutcome,
                                      rules: seq<QcRule>, check: (QcRule, ParsedRecord) -> QcResult, n: nat)
    requires n <= |files|
    ensures var t := TallyFiles(files, failures, parse, rules, check, n);
            && |t.clean| == n
            && (forall i :: 0 <= i < n ==> (t.clean[i] <==> Parsable(files[i]) && CleanParse(parse(files[i].archivePath))))
            && (t.errors == [] && t.failures == [] <==>
                  failures == [] && forall i :: 0 <= i < n && Parsable(files[i]) ==> CleanParse(parse(files[i].archivePath)))
  {
    if n > 0 {
      TallyClean(files, failures, parse, rules, check, n - 1);
    }
  }

  /** A succeeded report has no failure at all: every file was archived, acknowledged and parsed without an error. */
  lemma SucceededMeansAllClean(job: JobRow, parse: string -> ParseOutcome, check: (QcRule, ParsedRecord) -> QcResult,
                               finishedAt: string)
    requires forall i :: 0 <= i < |job.files| && !Parsable(job.files[i]) ==> PersistedFailures(job) != []
    ensures ReportOf(job, JobTally(job, parse, check), finishedAt).status.Succeeded? <==>
              && PersistedFailures(job) == []
              && forall i :: 0 <= i < |job.files| ==> Parsable(job.files[i]) && CleanParse(parse(job.files[i].archivePath))
  {
    TallyClean(job.files, PersistedFailures(job), parse, job.task.qcRules, check, |job.files|);
  }
}
