/** What a built report contains, stated apart from the loops that build it: every parsed record once, with every check of it,
    every error, and every file that failed, each in its place. */
module ReportContents {
  import opened Messages
  import opened Decimals
  import opened QueueModel
  import opened Reporting

  // ---- what the files give ----

  function RecordsIn(file: FileRow, parse: string -> ParseOutcome): seq<ParsedRecord> {
    if Parsable(file) && parse(file.archivePath).Parsed? then parse(file.archivePath).records else []
  }

  /** A file that cannot be parsed has one error, a parsed one those of its lines. */
  function ErrorsIn(file: FileRow, parse: string -> ParseOutcome): seq<string> {
    if !Parsable(file) then []
    else if parse(file.archivePath).ParseFailed? then [parse(file.archivePath).message] else parse(file.archivePath).errors
  }

  predicate FailsParsing(file: FileRow, parse: string -> ParseOutcome) { Parsable(file) && !CleanParse(parse(file.archivePath)) }

  function RecordCount(files: seq<FileRow>, parse: string -> ParseOutcome, n: nat): nat
    requires n <= |files|
  {
    if n == 0 then 0 else RecordCount(files, parse, n - 1) + |RecordsIn(files[n - 1], parse)|
  }

  function ErrorCount(files: seq<FileRow>, parse: string -> ParseOutcome, n: nat): nat
    requires n <= |files|
  {
    if n == 0 then 0 else ErrorCount(files, parse, n - 1) + |ErrorsIn(files[n - 1], parse)|
  }

  function FailedCount(files: seq<FileRow>, parse: string -> ParseOutcome, n: nat): nat
    requires n <= |files|
  {
    if n == 0 then 0 else FailedCount(files, parse, n - 1) + (if FailsParsing(files[n - 1], parse) then 1 else 0)
  }

  // ---- where they are in the report ----

  /** The record as it was parsed, with the raw file it came from and the result of every rule, in the order of the rules. */
  predicate CarriesRecord(r: ReportRecord, file: FileRow, record: ParsedRecord, rules: seq<QcRule>,
                          check: (QcRule, ParsedRecord) -> QcResult)
  {
    && r.rawFileId == file.rawFileId && r.record == record && r.parseStatus == "parsed" && |r.qc| == |rules|
    && forall j :: 0 <= j < |rules| ==> r.qc[j] == check(rules[j], record)
  }

  predicate RecordAt(records: seq<ReportRecord>, at: int, file: FileRow, record: ParsedRecord, rules: seq<QcRule>,
                     check: (QcRule, ParsedRecord) -> QcResult)
  {
    0 <= at < |records| && CarriesRecord(records[at], file, record, rules, check)
  }

  predicate RecordsOfFile(records: seq<ReportRecord>, base: int, file: FileRow, parse: string -> ParseOutcome, rules: seq<QcRule>,
                          check: (QcRule, ParsedRecord) -> QcResult)
  {
    forall k :: 0 <= k < |RecordsIn(file, parse)| ==> RecordAt(records, base + k, file, RecordsIn(file, parse)[k], rules, check)
  }

  /** The records are those of the first n files, file by file and in order, and no others. */
  ghost predicate ListsRecords(records: seq<ReportRecord>, files: seq<FileRow>, parse: string -> ParseOutcome, rules: seq<QcRule>,
                               check: (QcRule, ParsedRecord) -> QcResult, n: nat)
    requires n <= |files|
  {
    && |records| == RecordCount(files, parse, n)
    && forall i :: 0 <= i < n ==> RecordsOfFile(records, RecordCount(files, parse, i), files[i], parse, rules, check)
  }

  predicate TextAt(texts: seq<string>, at: int, name: string, message: string) {
    0 <= at < |texts| && texts[at] == name + ": " + message
  }

  predicate ErrorsOfFile(texts: seq<string>, base: int, file: FileRow, parse: string -> ParseOutcome) {
    forall k :: 0 <= k < |ErrorsIn(file, parse)| ==> TextAt(texts, base + k, file.originalName, ErrorsIn(file, parse)[k])
  }

  /** The error texts are those of the failures that were persisted, and then those of the files. */
  ghost predicate ListsErrors(texts: seq<string>, persisted: seq<FailedFile>, files: seq<FileRow>, parse: string -> ParseOutcome,
                              n: nat)
    requires n <= |files|
  {
    && |texts| == |persisted| + ErrorCount(files, parse, n)
    && (forall i :: 0 <= i < |persisted| ==> TextAt(texts, i, persisted[i].originalName, persisted[i].message))
    && forall i :: 0 <= i < n ==> ErrorsOfFile(texts, |persisted| + ErrorCount(files, parse, i), files[i], parse)
  }

  predicate FailureAt(failures: seq<FailedFile>, at: int, file: FileRow, message: string) {
    && 0 <= at < |failures|
    && failures[at] == FailedFile(file.sourcePath, file.originalName, "parse", message, file.rawFileId)
  }

  /** The failed files are those that were persisted, and then every file that did not parse cleanly, with its first error and
      the raw file it is replayed from. */
  ghost predicate ListsFailures(failures: seq<FailedFile>, persisted: seq<FailedFile>, files: seq<FileRow>,
                                parse: string -> ParseOutcome, n: nat)
    requires n <= |files|
  {
    && |failures| == |persisted| + FailedCount(files, parse, n) && persisted <= failures
    && forall i :: 0 <= i < n && FailsParsing(files[i], parse) ==>
         ErrorsIn(files[i], parse) != []
         && FailureAt(failures, |persisted| + FailedCount(files, parse, i), files[i], ErrorsIn(files[i], parse)[0])
  }

  /** The whole tally. */
  ghost predicate TalliesUp(t: Tally, persisted: seq<FailedFile>, files: seq<FileRow>, parse: string -> ParseOutcome,
                            rules: seq<QcRule>, check: (QcRule, ParsedRecord) -> QcResult, n: nat)
    requires n <= |files|
  {
    && t.success == RecordCount(files, parse, n) && t.failed == ErrorCount(files, parse, n) && t.total == t.success + t.failed
    && ListsRecords(t.records, files, parse, rules, check, n)
    && ListsErrors(t.errors, persisted, files, parse, n) && ListsFailures(t.failures, persisted, files, parse, n)
  }

  // ---- one file more ----

  lemma {:induction false} QcOfRecord(rules: seq<QcRule>, record: ParsedRecord, check: (QcRule, ParsedRecord) -> QcResult, n: nat)
    requires n <= |rules|
    ensures forall j :: 0 <= j < n ==> QcResults(rules, record, check, n)[j] == check(rules[j], record)
  {
    if n > 0 {
      QcOfRecord(rules, record, check, n - 1);
    }
  }

  lemma {:induction false} AttachedRecords(rules: seq<QcRule>, file: FileRow, records: seq<ParsedRecord>,
                                           check: (QcRule, ParsedRecord) -> QcResult, n: nat)
    requires n <= |records|
    ensures forall k :: 0 <= k < n ==>
              CarriesRecord(RecordsWithQc(rules, file.rawFileId, records, check, n)[k], file, records[k], rules, check)
  {
    if n > 0 {
      AttachedRecords(rules, file, records, check, n - 1);
      QcOfRecord(rules, records[n - 1], check, |rules|);
      var before := RecordsWithQc(rules, file.rawFileId, records, check, n - 1);
      var after := RecordsWithQc(rules, file.rawFileId, records, check, n);
      assert forall k :: 0 <= k < n - 1 ==> after[k] == before[k];
    }
  }

  lemma {:induction false} NamedErrors(name: string, errors: seq<string>, n: nat)
    requires n <= |errors|
    ensures forall k :: 0 <= k < n ==> ErrorTexts(name, errors, n)[k] == name + ": " + errors[k]
  {
    if n > 0 {
      NamedErrors(name, errors, n - 1);
    }
  }

  lemma {:induction false} PersistedTexts(failures: seq<FailedFile>, n: nat)
    requires n <= |failures|
    ensures forall i :: 0 <= i < n ==> TextAt(FailureTexts(failures, n), i, failures[i].originalName, failures[i].message)
  {
    if n > 0 {
      PersistedTexts(failures, n - 1);
      assert forall i :: 0 <= i < n - 1 ==>
          TextAt(FailureTexts(failures, n - 1), i, failures[i].originalName, failures[i].message);
    }
  }

  lemma RecordStays(before: seq<ReportRecord>, added: seq<ReportRecord>, base: int, file: FileRow, parse: string -> ParseOutcome,
                    rules: seq<QcRule>, check: (QcRule, ParsedRecord) -> QcResult)
    requires RecordsOfFile(before, base, file, parse, rules, check)
    ensures RecordsOfFile(before + added, base, file, parse, rules, check)
  {
    hide RecordsIn, CarriesRecord;
    forall k | 0 <= k < |RecordsIn(file, parse)|
      ensures RecordAt(before + added, base + k, file, RecordsIn(file, parse)[k], rules, check)
    {
      assert RecordAt(before, base + k, file, RecordsIn(file, parse)[k], rules, check);
    }
  }

  lemma RecordsAdded(before: seq<ReportRecord>, added: seq<ReportRecord>, file: FileRow, parse: string -> ParseOutcome,
                     rules: seq<QcRule>, check: (QcRule, ParsedRecord) -> QcResult)
    requires |added| == |RecordsIn(file, parse)|
    requires forall k :: 0 <= k < |added| ==> CarriesRecord(added[k], file, RecordsIn(file, parse)[k], rules, check)
    ensures RecordsOfFile(before + added, |before|, file, parse, rules, check)
  {
    hide RecordsIn, CarriesRecord;
    forall k | 0 <= k < |RecordsIn(file, parse)|
      ensures RecordAt(before + added, |before| + k, file, RecordsIn(file, parse)[k], rules, check)
    {
      assert (before + added)[|before| + k] == added[k];
    }
  }

  lemma RecordsTallied(before: seq<ReportRecord>, files: seq<FileRow>, parse: string -> ParseOutcome, rules: seq<QcRule>,
                       check: (QcRule, ParsedRecord) -> QcResult, n: nat, added: seq<ReportRecord>)
    requires n < |files| && ListsRecords(before, files, parse, rules, check, n) && |added| == |RecordsIn(files[n], parse)|
    requires forall k :: 0 <= k < |added| ==> CarriesRecord(added[k], files[n], RecordsIn(files[n], parse)[k], rules, check)
    ensures ListsRecords(before + added, files, parse, rules, check, n + 1)
  {
    hide CarriesRecord, RecordsIn, RecordsOfFile;
    forall i | 0 <= i < n + 1
      ensures RecordsOfFile(before + added, RecordCount(files, parse, i), files[i], parse, rules, check)
    {
      if i < n {
        RecordStays(before, added, RecordCount(files, parse, i), files[i], parse, rules, check);
      } else {
        RecordsAdded(before, added, files[n], parse, rules, check);
      }
    }
  }

  lemma TextStays(before: seq<string>, added: seq<string>, at: int, name: string, message: string)
    requires TextAt(before, at, name, message)
    ensures TextAt(before + added, at, name, message)
  {
  }

  lemma TextsStay(before: seq<string>, added: seq<string>, base: int, file: FileRow, parse: string -> ParseOutcome)
    requires ErrorsOfFile(before, base, file, parse)
    ensures ErrorsOfFile(before + added, base, file, parse)
  {
    hide ErrorsIn, TextAt;
    forall k | 0 <= k < |ErrorsIn(file, parse)|
      ensures TextAt(before + added, base + k, file.originalName, ErrorsIn(file, parse)[k])
    {
      TextStays(before, added, base + k, file.originalName, ErrorsIn(file, parse)[k]);
    }
  }

  lemma TextsAdded(before: seq<string>, added: seq<string>, file: FileRow, parse: string -> ParseOutcome)
    requires |added| == |ErrorsIn(file, parse)|
    requires forall k :: 0 <= k < |added| ==> added[k] == file.originalName + ": " + ErrorsIn(file, parse)[k]
    ensures ErrorsOfFile(before + added, |before|, file, parse)
  {
    hide ErrorsIn;
    forall k | 0 <= k < |ErrorsIn(file, parse)|
      ensures TextAt(before + added, |before| + k, file.originalName, ErrorsIn(file, parse)[k])
    {
      assert (before + added)[|before| + k] == added[k];
    }
  }

  lemma ErrorsTallied(before: seq<string>, persisted: seq<FailedFile>, files: seq<FileRow>, parse: string -> ParseOutcome, n: nat,
                      added: seq<string>)
    requires n < |files| && ListsErrors(before, persisted, files, parse, n) && |added| == |ErrorsIn(files[n], parse)|
    requires ErrorsOfFile(before + added, |before|, files[n], parse)
    ensures ListsErrors(before + added, persisted, files, parse, n + 1)
  {
    hide ErrorsIn, TextAt, ErrorsOfFile;
    var after := before + added;
    forall i | 0 <= i < |persisted| ensures TextAt(after, i, persisted[i].originalName, persisted[i].message) {
      TextStays(before, added, i, persisted[i].originalName, persisted[i].message);
    }
    forall i | 0 <= i < n + 1 ensures ErrorsOfFile(after, |persisted| + ErrorCount(files, parse, i), files[i], parse) {
      if i < n {
        TextsStay(before, added, |persisted| + ErrorCount(files, parse, i), files[i], parse);
      }
    }
  }

  lemma FailuresTallied(before: seq<FailedFile>, persisted: seq<FailedFile>, files: seq<FileRow>, parse: string -> ParseOutcome,
                        n: nat, added: seq<FailedFile>)
    requires n < |files| && ListsFailures(before, persisted, files, parse, n)
    requires if FailsParsing(files[n], parse)
             then ErrorsIn(files[n], parse) != [] && |added| == 1 && FailureAt(added, 0, files[n], ErrorsIn(files[n], parse)[0])
             else added == []
    ensures ListsFailures(before + added, persisted, files, parse, n + 1)
  {
    hide ErrorsIn, FailsParsing;
    var after := before + added;
    forall i | 0 <= i < n && FailsParsing(files[i], parse)
      ensures ErrorsIn(files[i], parse) != []
      ensures FailureAt(after, |persisted| + FailedCount(files, parse, i), files[i], ErrorsIn(files[i], parse)[0])
    {
      assert FailureAt(before, |persisted| + FailedCount(files, parse, i), files[i], ErrorsIn(files[i], parse)[0]);
    }
  }

  /** What the tally of one file adds to it. */
  lemma FileTallied(t: Tally, persisted: seq<FailedFile>, files: seq<FileRow>, parse: string -> ParseOutcome, rules: seq<QcRule>,
                    check: (QcRule, ParsedRecord) -> QcResult, n: nat)
    requires n < |files| && TalliesUp(t, persisted, files, parse, rules, check, n)
    ensures TalliesUp(TallyFile(t, files[n], parse(files[n].archivePath), rules, check), persisted, files, parse, rules, check,
                      n + 1)
  {
    hide ListsRecords, ListsFailures, CarriesRecord, QcResults, ErrorsOfFile, TextAt;
    var file := files[n];
    var records, errors: seq<string>, failures: seq<FailedFile> := [], [], [];
    if Parsable(file) {
      var outcome := parse(file.archivePath);
      if outcome.Parsed? {
        records := RecordsWithQc(rules, file.rawFileId, outcome.records, check, |outcome.records|);
        errors := ErrorTexts(file.originalName, outcome.errors, |outcome.errors|);
        AttachedRecords(rules, file, outcome.records, check, |outcome.records|);
        NamedErrors(file.originalName, outcome.errors, |outcome.errors|);
        failures := if outcome.errors == [] then [] else [ParseFailure(file, outcome.errors[0])];
      } else {
        errors := [file.originalName + ": " + outcome.message];
        failures := [ParseFailure(file, outcome.message)];
      }
    }
    RecordsTallied(t.records, files, parse, rules, check, n, records);
    TextsAdded(t.errors, errors, file, parse);
    ErrorsTallied(t.errors, persisted, files, parse, n, errors);
    FailuresTallied(t.failures, persisted, files, parse, n, failures);
    var after := TallyFile(t, file, parse(file.archivePath), rules, check);
    assert t.records + records == after.records && t.errors + errors == after.errors && t.failures + failures == after.failures;
  }

  lemma {:induction false} FilesTallied(persisted: seq<FailedFile>, files: seq<FileRow>, parse: string -> ParseOutcome,
                                        rules: seq<QcRule>, check: (QcRule, ParsedRecord) -> QcResult, n: nat)
    requires n <= |files|
    ensures TalliesUp(TallyFiles(files, persisted, parse, rules, check, n), persisted, files, parse, rules, check, n)
  {
    hide TalliesUp, TallyFile;
    if n == 0 {
      NothingTallied(persisted, files, parse, rules, check);
    } else {
      FilesTallied(persisted, files, parse, rules, check, n - 1);
      FileTallied(TallyFiles(files, persisted, parse, rules, check, n - 1), persisted, files, parse, rules, check, n - 1);
    }
  }

  lemma NothingTallied(persisted: seq<FailedFile>, files: seq<FileRow>, parse: string -> ParseOutcome, rules: seq<QcRule>,
                       check: (QcRule, ParsedRecord) -> QcResult)
    ensures TalliesUp(InitialTally(persisted), persisted, files, parse, rules, check, 0)
  {
    PersistedTexts(persisted, |persisted|);
  }

  // ---- the report ----

  /** The report of a job says all that its files gave: the error texts are there for the summary. */
  ghost predicate TellsAll(job: JobRow, parse: string -> ParseOutcome, check: (QcRule, ParsedRecord) -> QcResult,
                           r: ReportRequest, texts: seq<string>)
  {
    var n, persisted := |job.files|, PersistedFailures(job);
    && r.runId == job.runId && r.node == job.task.node && r.key == ReportKey(job.task.node, job.runId)
    && ListsRecords(r.records, job.files, parse, job.task.qcRules, check, n)
    && r.success == RecordCount(job.files, parse, n) && r.failed == ErrorCount(job.files, parse, n)
    && r.total == r.success + r.failed
    && ListsErrors(texts, persisted, job.files, parse, n) && r.summary == SummaryText(texts)
    && r.failedFiles.Some? && ListsFailures(r.failedFiles.value, persisted, job.files, parse, n)
    && r.status == (if texts == [] && r.failedFiles.value == [] then Succeeded else Failed)
  }

  /** The built report tells all, and marks exactly the files that parsed cleanly. */
  lemma BuiltReportTellsAll(job: JobRow, parse: string -> ParseOutcome, check: (QcRule, ParsedRecord) -> QcResult,
                            finishedAt: string)
    ensures var t := JobTally(job, parse, check);
            var r := ReportOf(job, t, finishedAt);
            && TellsAll(job, parse, check, r, t.errors) && r.finishedAt == finishedAt && |t.clean| == |job.files|
            && forall i :: 0 <= i < |job.files| ==> (t.clean[i] <==> Parsable(job.files[i]) && !FailsParsing(job.files[i], parse))
  {
    hide ListsRecords, ListsErrors, ListsFailures, TallyFiles, SummaryText;
    FilesTallied(PersistedFailures(job), job.files, parse, job.task.qcRules, check, |job.files|);
    TallyClean(job.files, PersistedFailures(job), parse, job.task.qcRules, check, |job.files|);
  }

  /** The records of a report are determined by the files, the parser and the rules: none is lost and none is listed twice. */
  lemma RecordsAreDetermined(a: seq<ReportRecord>, b: seq<ReportRecord>, files: seq<FileRow>, parse: string -> ParseOutcome,
                             rules: seq<QcRule>, check: (QcRule, ParsedRecord) -> QcResult, n: nat)
    requires n <= |files| && ListsRecords(a, files, parse, rules, check, n) && ListsRecords(b, files, parse, rules, check, n)
    ensures a == b
  {
    hide RecordsIn, CarriesRecord;
    forall at | 0 <= at < |a| ensures a[at] == b[at] {
      var i, k := PlaceOf(files, parse, n, at);
      assert RecordsOfFile(a, RecordCount(files, parse, i), files[i], parse, rules, check);
      assert RecordsOfFile(b, RecordCount(files, parse, i), files[i], parse, rules, check);
      assert RecordAt(a, RecordCount(files, parse, i) + k, files[i], RecordsIn(files[i], parse)[k], rules, check);
      assert RecordAt(b, RecordCount(files, parse, i) + k, files[i], RecordsIn(files[i], parse)[k], rules, check);
      SameRecord(a[at], b[at], files[i], RecordsIn(files[i], parse)[k], rules, check);
    }
  }

  lemma SameRecord(a: ReportRecord, b: ReportRecord, file: FileRow, record: ParsedRecord, rules: seq<QcRule>,
                   check: (QcRule, ParsedRecord) -> QcResult)
    requires CarriesRecord(a, file, record, rules, check) && CarriesRecord(b, file, record, rules, check)
    ensures a == b
  {
    assert a.qc == b.qc;
  }

  lemma {:induction false} PlaceOf(files: seq<FileRow>, parse: string -> ParseOutcome, n: nat, at: int) returns (i: nat, k: nat)
    requires n <= |files| && 0 <= at < RecordCount(files, parse, n)
    ensures i < n && k < |RecordsIn(files[i], parse)| && RecordCount(files, parse, i) + k == at
  {
    if at >= RecordCount(files, parse, n - 1) {
      i, k := n - 1, at - RecordCount(files, parse, n - 1);
    } else {
      i, k := PlaceOf(files, parse, n - 1, at);
    }
  }

  // ---- the summary ----

  lemma {:induction false} DetailsBegin(errors: seq<string>, n: nat)
    requires 0 < n <= |errors|
    ensures "; " + errors[0] <= Details(errors, n)
  {
    if n > 1 {
      DetailsBegin(errors, n - 1);
    } else {
      assert Details(errors, 0) == "";
      assert Details(errors, 1) == "" + "; " + errors[0];
    }
  }

  lemma CutBegins(start: string, full: string, limit: nat)
    requires start <= full && 3 <= limit
    ensures start[..if |start| <= limit - 3 then |start| else limit - 3]
            <= if |full| > limit then full[..limit - 3] + "..." else full
  {
    var cut := if |start| <= limit - 3 then |start| else limit - 3;
    assert start[..cut] == full[..cut];
    if |full| > limit {
      assert (full[..limit - 3] + "...")[..cut] == full[..cut];
    }
  }

  /** The summary begins with the number of errors, and goes on with the first one as far as there is room. */
  lemma SummaryBegins(errors: seq<string>)
    requires errors != []
    ensures var start := Show(|errors|) + " error(s)" + ("; " + errors[0]);
            start[..if |start| <= MAX_SUMMARY_BYTES - 3 then |start| else MAX_SUMMARY_BYTES - 3] <= SummaryText(errors)
  {
    hide Show, Details;
    var head := Show(|errors|) + " error(s)";
    var shown := if |errors| < MAX_ERROR_DETAILS then |errors| else MAX_ERROR_DETAILS;
    DetailsBegin(errors, shown);
    var details := Details(errors, shown);
    var rest := if |errors| > shown then "; " + Show(|errors| - shown) + " additional error(s) omitted" else "";
    PrefixJoins(head, "; " + errors[0], details, rest);
    CutBegins(head + ("; " + errors[0]), head + details + rest, MAX_SUMMARY_BYTES);
  }

  lemma PrefixJoins(head: string, first: string, details: string, rest: string)
    requires first <= details
    ensures head + first <= head + details + rest
  {
  }
}
