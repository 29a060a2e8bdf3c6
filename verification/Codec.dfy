/** The text in which requests and task configs are persisted, as a JSON tree: for every value, what decoding its encoding
    gives. */
module Codec {
  import opened Messages

  datatype Json = JBool(flag: bool) | JInt(number: int) | JString(text: string) | JArray(items: seq<Json>)
                | JObject(members: map<string, Json>)

  const CODEC_VERSION := 1
  const INT_MAX := 0x7fff_ffff
  const LONG_MAX := 0x7fff_ffff_ffff_ffff

  // ---- required members ----

  predicate HasString(j: Json, field: string, allowEmpty: bool) {
    j.JObject? && field in j.members && j.members[field].JString? && (allowEmpty || j.members[field].text != "")
  }

  function Text(j: Json, field: string): string
    requires HasString(j, field, true)
  {
    j.members[field].text
  }

  predicate HasInt(j: Json, field: string, limit: int) {
    j.JObject? && field in j.members && j.members[field].JInt? && 0 <= j.members[field].number <= limit
  }

  function Number(j: Json, field: string, limit: int): int
    requires HasInt(j, field, limit)
  {
    j.members[field].number
  }

  predicate HasArray(j: Json, field: string) { j.JObject? && field in j.members && j.members[field].JArray? }

  predicate Versioned(j: Json) {
    j.JObject? && "codec_version" in j.members && j.members["codec_version"] == JInt(CODEC_VERSION)
  }

  // ---- lists ----

  function EncodeAll<T>(items: seq<T>, encode: T -> Json): (list: seq<Json>)
    ensures |list| == |items| && forall i :: 0 <= i < |items| ==> list[i] == encode(items[i])
  {
    if items == [] then [] else EncodeAll(items[..|items| - 1], encode) + [encode(items[|items| - 1])]
  }

  /** Decodes entry by entry; one bad entry refuses the list. */
  function DecodeAll<T>(list: seq<Json>, decode: Json -> Option<T>): Option<seq<T>> {
    if list == [] then Some([])
    else
      match DecodeAll(list[..|list| - 1], decode)
      case None => None
      case Some(front) =>
        match decode(list[|list| - 1])
        case None => None
        case Some(last) => Some(front + [last])
  }

  predicate All<T>(items: seq<T>, ok: T -> bool) { forall i :: 0 <= i < |items| ==> ok(items[i]) }

  /** A list round trips when each of its entries does; otherwise it is refused. */
  lemma {:induction false} ListRoundTrip<T>(items: seq<T>, encode: T -> Json, decode: Json -> Option<T>, ok: T -> bool)
    requires forall i :: 0 <= i < |items| ==> decode(encode(items[i])) == if ok(items[i]) then Some(items[i]) else None
    ensures DecodeAll(EncodeAll(items, encode), decode) == if All(items, ok) then Some(items) else None
  {
    if items != [] {
      var n := |items| - 1;
      ListRoundTrip(items[..n], encode, decode, ok);
      EncodedFront(items, encode);
      AllFront(items, ok);
      hide All, EncodeAll;
      assert items == items[..n] + [items[n]];
    }
  }

  lemma EncodedFront<T>(items: seq<T>, encode: T -> Json)
    requires items != []
    ensures EncodeAll(items, encode)[..|items| - 1] == EncodeAll(items[..|items| - 1], encode)
    ensures EncodeAll(items, encode) != [] && EncodeAll(items, encode)[|items| - 1] == encode(items[|items| - 1])
  {
  }

  lemma AllFront<T>(items: seq<T>, ok: T -> bool)
    requires items != []
    ensures All(items, ok) <==> All(items[..|items| - 1], ok) && ok(items[|items| - 1])
  {
    var n := |items| - 1;
    if All(items[..n], ok) && ok(items[n]) {
      forall i | 0 <= i < |items| ensures ok(items[i]) {
        assert i < n ==> items[..n][i] == items[i];
      }
    }
    if All(items, ok) {
      assert forall i :: 0 <= i < n ==> items[..n][i] == items[i];
    }
  }

  // ---- task config ----

  function EncodeQcRule(rule: QcRule): Json {
    JObject(map["id" := JString(rule.id), "rule_type" := JString(rule.ruleType), "name" := JString(rule.name),
                "config_json" := JString(rule.config)])
  }

  function DecodeQcRule(j: Json): Option<QcRule> {
    if HasString(j, "id", false) && HasString(j, "rule_type", false) && HasString(j, "name", false) && HasString(j, "config_json", true)
    then Some(QcRule(Text(j, "id"), Text(j, "rule_type"), Text(j, "name"), Text(j, "config_json")))
    else None
  }

  predicate QcRuleOk(rule: QcRule) { rule.id != "" && rule.ruleType != "" && rule.name != "" }

  function SourceTypeText(t: SourceType): string {
    match t
    case LocalDirectory => "local_directory"
    case Ftp => "ftp"
    case Oracle => "oracle"
  }

  function DecodeSourceType(text: string): Option<SourceType> {
    if text == "local_directory" then Some(LocalDirectory)
    else if text == "ftp" then Some(Ftp)
    else if text == "oracle" then Some(Oracle)
    else None
  }

  function EncodeDataSource(d: DataSource): Json {
    JObject(map["id" := JString(d.id), "node_code" := JString(d.node), "type" := JString(SourceTypeText(d.sourceType)),
                "name" := JString(d.name), "config_json" := JString(d.config)])
  }

  function DecodeDataSource(j: Json): Option<DataSource> {
    if HasString(j, "id", false) && HasString(j, "node_code", false) && HasString(j, "type", false)
       && DecodeSourceType(Text(j, "type")).Some? && HasString(j, "name", false) && HasString(j, "config_json", true)
    then Some(DataSource(Text(j, "id"), Text(j, "node_code"), DecodeSourceType(Text(j, "type")).value, Text(j, "name"),
                         Text(j, "config_json")))
    else None
  }

  predicate DataSourceOk(d: DataSource) { d.id != "" && d.node != "" && d.name != "" }

  function EncodeTaskConfig(task: TaskConfig): Json {
    JObject(map["codec_version" := JInt(CODEC_VERSION), "id" := JString(task.id), "node_code" := JString(task.node),
                "data_source_id" := JString(task.dataSourceId), "name" := JString(task.name), "task_type" := JString(task.taskType),
                "schedule_expr" := JString(task.schedule), "parser_type" := JString(task.parserType),
                "qc_profile" := JString(task.qcProfile), "enabled" := JBool(task.enabled),
                "data_source" := EncodeDataSource(task.dataSource),
                "qc_rules" := JArray(EncodeAll(task.qcRules, EncodeQcRule))])
  }

  predicate TaskConfigMembers(j: Json) {
    && Versioned(j) && HasString(j, "id", false) && HasString(j, "node_code", false) && HasString(j, "data_source_id", false)
    && HasString(j, "name", false) && HasString(j, "task_type", false) && HasString(j, "schedule_expr", false)
    && HasString(j, "parser_type", false) && HasString(j, "qc_profile", true)
    && "enabled" in j.members && j.members["enabled"].JBool? && "data_source" in j.members && HasArray(j, "qc_rules")
  }

  function DecodeTaskConfig(j: Json): Option<TaskConfig> {
    if !TaskConfigMembers(j) then None
    else
      var source := DecodeDataSource(j.members["data_source"]);
      var rules := DecodeAll(j.members["qc_rules"].items, DecodeQcRule);
      if source.None? || rules.None? then None
      else Some(TaskConfig(Text(j, "id"), Text(j, "node_code"), Text(j, "data_source_id"), Text(j, "name"), Text(j, "task_type"),
                           Text(j, "schedule_expr"), Text(j, "parser_type"), Text(j, "qc_profile"), j.members["enabled"].flag,
                           source.value, rules.value))
  }

  predicate TaskConfigOk(task: TaskConfig) {
    TaskHeadOk(task) && DataSourceOk(task.dataSource) && All(task.qcRules, QcRuleOk)
  }

  /** A persisted task config reads back as it was, or not at all. */
  lemma TaskConfigRoundTrip(task: TaskConfig)
    ensures DecodeTaskConfig(EncodeTaskConfig(task)) == if TaskConfigOk(task) then Some(task) else None
  {
    hide EncodeAll, DecodeAll, All, EncodeDataSource, DecodeDataSource, DataSourceOk, TaskConfigMembers;
    RulesRoundTrip(task.qcRules);
    DataSourceRoundTrip(task.dataSource);
    TaskMembersRoundTrip(task);
  }

  predicate TaskHeadOk(task: TaskConfig) {
    && task.id != "" && task.node != "" && task.dataSourceId != "" && task.name != "" && task.taskType != ""
    && task.schedule != "" && task.parserType != ""
  }

  lemma TaskMembersRoundTrip(task: TaskConfig)
    ensures TaskConfigMembers(EncodeTaskConfig(task)) <==> TaskHeadOk(task)
  {
    hide EncodeAll, EncodeDataSource;
  }

  lemma RulesRoundTrip(rules: seq<QcRule>)
    ensures DecodeAll(EncodeAll(rules, EncodeQcRule), DecodeQcRule) == if All(rules, QcRuleOk) then Some(rules) else None
  {
    hide EncodeAll, DecodeAll, All, EncodeQcRule, DecodeQcRule, QcRuleOk;
    forall i | 0 <= i < |rules| ensures DecodeQcRule(EncodeQcRule(rules[i])) == if QcRuleOk(rules[i]) then Some(rules[i]) else None {
      QcRuleRoundTrip(rules[i]);
    }
    ListRoundTrip(rules, EncodeQcRule, DecodeQcRule, QcRuleOk);
  }

  lemma QcRuleRoundTrip(rule: QcRule)
    ensures DecodeQcRule(EncodeQcRule(rule)) == if QcRuleOk(rule) then Some(rule) else None
  {
  }

  lemma DataSourceRoundTrip(d: DataSource)
    ensures DecodeDataSource(EncodeDataSource(d)) == if DataSourceOk(d) then Some(d) else None
  {
  }

  // ---- start request ----

  function TriggerText(t: Trigger): string {
    match t
    case Scheduled => "scheduled"
    case Manual => "manual"
    case Retry => "retry"
  }

  function DecodeTrigger(text: string): Option<Trigger> {
    if text == "scheduled" then Some(Scheduled)
    else if text == "manual" then Some(Manual)
    else if text == "retry" then Some(Retry)
    else None
  }

  function EncodeStart(r: StartRequest): Json {
    JObject(map["codec_version" := JInt(CODEC_VERSION), "node_code" := JString(r.node), "task_id" := JString(r.taskId),
                "execution_key" := JString(r.executionKey), "scheduled_for" := JString(r.scheduledFor),
                "started_at" := JString(r.startedAt), "trigger_type" := JString(TriggerText(r.trigger))])
  }

  /** Only a scheduled start must name its slot. */
  function DecodeStart(j: Json): Option<StartRequest> {
    if !Versioned(j) || !HasString(j, "trigger_type", false) || DecodeTrigger(Text(j, "trigger_type")).None? then None
    else
      var trigger := DecodeTrigger(Text(j, "trigger_type")).value;
      if HasString(j, "node_code", false) && HasString(j, "task_id", false) && HasString(j, "execution_key", false)
         && HasString(j, "scheduled_for", !trigger.Scheduled?) && HasString(j, "started_at", false)
      then Some(StartRequest(Text(j, "node_code"), Text(j, "task_id"), Text(j, "execution_key"), Text(j, "scheduled_for"),
                             Text(j, "started_at"), trigger))
      else None
  }

  predicate StartOk(r: StartRequest) {
    && r.node != "" && r.taskId != "" && r.executionKey != "" && r.startedAt != ""
    && (r.trigger.Scheduled? ==> r.scheduledFor != "")
  }

  lemma StartRoundTrip(r: StartRequest)
    ensures DecodeStart(EncodeStart(r)) == if StartOk(r) then Some(r) else None
  {
  }

  // ---- manifest ----

  function EncodeManifestEntry(f: ManifestEntry): Json {
    JObject(map["original_name" := JString(f.originalName), "file_hash" := JString(f.fileHash),
                "storage_path" := JString(f.storagePath), "size_bytes" := JInt(f.sizeBytes),
                "source_mtime" := JString(f.sourceMtime), "ingest_status" := JString(f.ingestStatus)])
  }

  function DecodeManifestEntry(j: Json): Option<ManifestEntry> {
    if HasString(j, "original_name", false) && HasString(j, "file_hash", false) && HasString(j, "storage_path", false)
       && HasInt(j, "size_bytes", LONG_MAX) && HasString(j, "source_mtime", false) && HasString(j, "ingest_status", false)
    then Some(ManifestEntry(Text(j, "original_name"), Text(j, "file_hash"), Text(j, "storage_path"),
                            Number(j, "size_bytes", LONG_MAX), Text(j, "source_mtime"), Text(j, "ingest_status")))
    else None
  }

  predicate ManifestEntryOk(f: ManifestEntry) {
    && f.originalName != "" && f.fileHash != "" && f.storagePath != "" && 0 <= f.sizeBytes <= LONG_MAX
    && f.sourceMtime != "" && f.ingestStatus != ""
  }

  function EncodeManifest(m: ManifestRequest): Json {
    JObject(map["codec_version" := JInt(CODEC_VERSION), "task_run_id" := JString(m.runId), "node_code" := JString(m.node),
                "idempotency_key" := JString(m.key), "files" := JArray(EncodeAll(m.files, EncodeManifestEntry))])
  }

  function DecodeManifest(j: Json): Option<ManifestRequest> {
    if !Versioned(j) || !HasString(j, "task_run_id", false) || !HasString(j, "node_code", false)
       || !HasString(j, "idempotency_key", false) || !HasArray(j, "files") then None
    else
      match DecodeAll(j.members["files"].items, DecodeManifestEntry)
      case None => None
      case Some(files) => Some(ManifestRequest(Text(j, "task_run_id"), Text(j, "node_code"), Text(j, "idempotency_key"), files))
  }

  predicate ManifestOk(m: ManifestRequest) {
    m.runId != "" && m.node != "" && m.key != "" && All(m.files, ManifestEntryOk)
  }

  lemma ManifestRoundTrip(m: ManifestRequest)
    ensures DecodeManifest(EncodeManifest(m)) == if ManifestOk(m) then Some(m) else None
  {
    hide EncodeAll, DecodeAll, All, EncodeManifestEntry, DecodeManifestEntry, ManifestEntryOk;
    forall i | 0 <= i < |m.files|
      ensures DecodeManifestEntry(EncodeManifestEntry(m.files[i])) == if ManifestEntryOk(m.files[i]) then Some(m.files[i]) else None
    {
      ManifestEntryRoundTrip(m.files[i]);
    }
    ListRoundTrip(m.files, EncodeManifestEntry, DecodeManifestEntry, ManifestEntryOk);
  }

  lemma ManifestEntryRoundTrip(f: ManifestEntry)
    ensures DecodeManifestEntry(EncodeManifestEntry(f)) == if ManifestEntryOk(f) then Some(f) else None
  {
  }

  // ---- report ----

  function EncodeQcResult(q: QcResult): Json {
    JObject(map["qc_rule_id" := JString(q.ruleId), "level" := JString(q.level), "result" := JString(q.result),
                "message" := JString(q.message)])
  }

  function DecodeQcResult(j: Json): Option<QcResult> {
    if HasString(j, "qc_rule_id", false) && HasString(j, "level", false) && HasString(j, "result", false) && HasString(j, "message", true)
    then Some(QcResult(Text(j, "qc_rule_id"), Text(j, "level"), Text(j, "result"), Text(j, "message")))
    else None
  }

  predicate QcResultOk(q: QcResult) { q.ruleId != "" && q.level != "" && q.result != "" }

  function EncodeRecord(r: ReportRecord): Json {
    JObject(map["raw_file_id" := JString(r.rawFileId), "station_code" := JString(r.record.station),
                "device_code" := JString(r.record.device), "record_time" := JString(r.record.recordTime),
                "payload_json" := JString(r.record.payload), "parse_status" := JString(r.parseStatus),
                "qc_results" := JArray(EncodeAll(r.qc, EncodeQcResult))])
  }

  function DecodeRecord(j: Json): Option<ReportRecord> {
    if HasString(j, "raw_file_id", false) && HasString(j, "station_code", true) && HasString(j, "device_code", true)
       && HasString(j, "record_time", false) && HasString(j, "payload_json", true) && HasString(j, "parse_status", false)
       && HasArray(j, "qc_results")
    then
      match DecodeAll(j.members["qc_results"].items, DecodeQcResult)
      case None => None
      case Some(qc) =>
        Some(ReportRecord(Text(j, "raw_file_id"),
                          ParsedRecord(Text(j, "station_code"), Text(j, "device_code"), Text(j, "record_time"), Text(j, "payload_json")),
                          Text(j, "parse_status"), qc))
    else None
  }

  /** The record time may not be empty, although the parser can produce an empty one. */
  predicate RecordOk(r: ReportRecord) {
    r.rawFileId != "" && r.record.recordTime != "" && r.parseStatus != "" && All(r.qc, QcResultOk)
  }

  lemma RecordRoundTrip(r: ReportRecord)
    ensures DecodeRecord(EncodeRecord(r)) == if RecordOk(r) then Some(r) else None
  {
    hide EncodeAll, DecodeAll, All, EncodeQcResult, DecodeQcResult, QcResultOk;
    forall i | 0 <= i < |r.qc| ensures DecodeQcResult(EncodeQcResult(r.qc[i])) == if QcResultOk(r.qc[i]) then Some(r.qc[i]) else None {
      QcResultRoundTrip(r.qc[i]);
    }
    ListRoundTrip(r.qc, EncodeQcResult, DecodeQcResult, QcResultOk);
  }

  lemma QcResultRoundTrip(q: QcResult)
    ensures DecodeQcResult(EncodeQcResult(q)) == if QcResultOk(q) then Some(q) else None
  {
  }

  function EncodeFailure(f: FailedFile): Json {
    JObject(map["source_path" := JString(f.sourcePath), "original_name" := JString(f.originalName), "stage" := JString(f.stage),
                "message" := JString(f.message), "archive_raw_file_id" := JString(f.archiveRef)])
  }

  function DecodeFailure(j: Json): Option<FailedFile> {
    if HasString(j, "source_path", false) && HasString(j, "original_name", false) && HasString(j, "stage", false)
       && HasString(j, "message", true) && HasString(j, "archive_raw_file_id", true)
    then Some(FailedFile(Text(j, "source_path"), Text(j, "original_name"), Text(j, "stage"), Text(j, "message"),
                         Text(j, "archive_raw_file_id")))
    else None
  }

  predicate FailureOk(f: FailedFile) { f.sourcePath != "" && f.originalName != "" && f.stage != "" }

  function StatusText(s: RunStatus): string { if s.Succeeded? then "succeeded" else "failed" }

  function ReportMembers(r: ReportRequest): map<string, Json> {
    map["codec_version" := JInt(CODEC_VERSION), "task_run_id" := JString(r.runId), "node_code" := JString(r.node),
        "idempotency_key" := JString(r.key), "status" := JString(StatusText(r.status)), "finished_at" := JString(r.finishedAt),
        "items_total" := JInt(r.total), "items_success" := JInt(r.success), "items_failed" := JInt(r.failed),
        "error_summary" := JString(r.summary), "parsed_records" := JArray(EncodeAll(r.records, EncodeRecord))]
  }

  /** The failure list is written only when there is one; a report that is not terminal cannot be written at all. */
  function EncodeReport(r: ReportRequest): Option<Json> {
    if !Terminal(r.status) then None
    else Some(JObject(if r.failedFiles.None? then ReportMembers(r)
                      else ReportMembers(r)["failed_files" := JArray(EncodeAll(r.failedFiles.value, EncodeFailure))]))
  }

  predicate ReportHeadMembers(j: Json) {
    && Versioned(j) && HasString(j, "task_run_id", false) && HasString(j, "node_code", false)
    && HasString(j, "idempotency_key", false) && HasString(j, "status", false)
    && (Text(j, "status") == "succeeded" || Text(j, "status") == "failed") && HasString(j, "finished_at", false)
    && HasInt(j, "items_total", INT_MAX) && HasInt(j, "items_success", INT_MAX) && HasInt(j, "items_failed", INT_MAX)
    && HasString(j, "error_summary", true) && HasArray(j, "parsed_records")
  }

  function DecodeFailures(j: Json): Option<Option<seq<FailedFile>>>
    requires j.JObject?
  {
    if "failed_files" !in j.members then Some(None)
    else if !j.members["failed_files"].JArray? then None
    else
      match DecodeAll(j.members["failed_files"].items, DecodeFailure)
      case None => None
      case Some(failures) => Some(Some(failures))
  }

  function DecodeReport(j: Json): Option<ReportRequest> {
    if !ReportHeadMembers(j) then None
    else
      var failures := DecodeFailures(j);
      var records := DecodeAll(j.members["parsed_records"].items, DecodeRecord);
      if failures.None? || records.None? then None
      else Some(ReportRequest(Text(j, "task_run_id"), Text(j, "node_code"), Text(j, "idempotency_key"),
                              if Text(j, "status") == "succeeded" then Succeeded else Failed, Text(j, "finished_at"),
                              Number(j, "items_total", INT_MAX), Number(j, "items_success", INT_MAX),
                              Number(j, "items_failed", INT_MAX), Text(j, "error_summary"), records.value, failures.value))
  }

  predicate ReportHeadOk(r: ReportRequest) {
    && r.runId != "" && r.node != "" && r.key != "" && r.finishedAt != ""
    && 0 <= r.total <= INT_MAX && 0 <= r.success <= INT_MAX && 0 <= r.failed <= INT_MAX
  }

  predicate ReportOk(r: ReportRequest) {
    && ReportHeadOk(r) && All(r.records, RecordOk) && (r.failedFiles.Some? ==> All(r.failedFiles.value, FailureOk))
  }

  lemma FailuresRoundTrip(r: ReportRequest)
    requires Terminal(r.status)
    ensures DecodeFailures(EncodeReport(r).value)
         == if r.failedFiles.Some? && !All(r.failedFiles.value, FailureOk) then None else Some(r.failedFiles)
  {
    hide EncodeAll, DecodeAll, All, EncodeFailure, DecodeFailure, FailureOk;
    if r.failedFiles.Some? {
      var failures := r.failedFiles.value;
      forall i | 0 <= i < |failures|
        ensures DecodeFailure(EncodeFailure(failures[i])) == if FailureOk(failures[i]) then Some(failures[i]) else None
      {
        FailureRoundTrip(failures[i]);
      }
      ListRoundTrip(failures, EncodeFailure, DecodeFailure, FailureOk);
    }
  }

  lemma FailureRoundTrip(f: FailedFile)
    ensures DecodeFailure(EncodeFailure(f)) == if FailureOk(f) then Some(f) else None
  {
  }

  lemma RecordsRoundTrip(r: ReportRequest)
    ensures DecodeAll(EncodeAll(r.records, EncodeRecord), DecodeRecord) == if All(r.records, RecordOk) then Some(r.records) else None
  {
    hide EncodeRecord, DecodeRecord, RecordOk;
    forall i | 0 <= i < |r.records|
      ensures DecodeRecord(EncodeRecord(r.records[i])) == if RecordOk(r.records[i]) then Some(r.records[i]) else None
    {
      RecordRoundTrip(r.records[i]);
    }
    ListRoundTrip(r.records, EncodeRecord, DecodeRecord, RecordOk);
  }

  lemma HeadRoundTrip(r: ReportRequest)
    requires Terminal(r.status)
    ensures var j := EncodeReport(r).value;
            && (ReportHeadMembers(j) <==> ReportHeadOk(r)) && HasArray(j, "parsed_records")
            && j.members["parsed_records"].items == EncodeAll(r.records, EncodeRecord)
            && (ReportHeadOk(r) ==>
                  && Text(j, "task_run_id") == r.runId && Text(j, "node_code") == r.node && Text(j, "idempotency_key") == r.key
                  && Text(j, "status") == StatusText(r.status) && Text(j, "finished_at") == r.finishedAt
                  && Number(j, "items_total", INT_MAX) == r.total && Number(j, "items_success", INT_MAX) == r.success
                  && Number(j, "items_failed", INT_MAX) == r.failed && Text(j, "error_summary") == r.summary)
  {
    hide EncodeAll;
  }

  /** A persisted report reads back exactly as it was, its absent or present failure list included, or not at all. It is
      refused exactly when a required text is empty or a count is out of range: in particular when a record has no time. */
  lemma ReportRoundTrip(r: ReportRequest)
    requires Terminal(r.status)
    ensures DecodeReport(EncodeReport(r).value) == if ReportOk(r) then Some(r) else None
  {
    hide EncodeReport, EncodeAll, DecodeAll, All, ReportHeadOk, DecodeFailures;
    HeadRoundTrip(r);
    FailuresRoundTrip(r);
    RecordsRoundTrip(r);
  }

  /** A concrete report that cannot be read back: its only record has no time. */
  lemma RecordWithoutTimeIsLost(r: ReportRequest)
    requires Terminal(r.status)
    requires r.records == [ReportRecord("1", ParsedRecord("s", "d", "", "{}"), "parsed", [])]
    ensures DecodeReport(EncodeReport(r).value) == None
  {
    hide EncodeReport, DecodeReport;
    ReportRoundTrip(r);
    assert !RecordOk(r.records[0]);
  }

  // ---- retry files ----

  function InputTypeText(t: InputType): string { if t.ArchiveInput? then "archive" else "source" }

  function EncodeRetryFile(f: RetryFile): Json {
    JObject(map["codec_version" := JInt(CODEC_VERSION), "input_type" := JString(InputTypeText(f.inputType)),
                "source_path" := JString(f.sourcePath), "original_name" := JString(f.originalName),
                "archive_raw_file_id" := JString(f.archiveRef), "storage_path" := JString(f.storagePath),
                "size_bytes" := JInt(f.sizeBytes), "file_hash" := JString(f.fileHash), "source_mtime" := JString(f.sourceMtime)])
  }

  function DecodeRetryFile(j: Json): Option<RetryFile> {
    if Versioned(j) && HasString(j, "input_type", false) && (Text(j, "input_type") == "archive" || Text(j, "input_type") == "source")
       && HasString(j, "source_path", false) && HasString(j, "original_name", false) && HasString(j, "archive_raw_file_id", true)
       && HasString(j, "storage_path", true) && HasInt(j, "size_bytes", LONG_MAX) && HasString(j, "file_hash", true)
       && HasString(j, "source_mtime", true)
    then Some(RetryFile(if Text(j, "input_type") == "archive" then ArchiveInput else SourceInput, Text(j, "source_path"),
                        Text(j, "original_name"), Text(j, "archive_raw_file_id"), Text(j, "storage_path"),
                        Number(j, "size_bytes", LONG_MAX), Text(j, "file_hash"), Text(j, "source_mtime")))
    else None
  }

  predicate RetryFileOk(f: RetryFile) { f.sourcePath != "" && f.originalName != "" && 0 <= f.sizeBytes <= LONG_MAX }

  function EncodeRetryFiles(files: seq<RetryFile>): Json { JArray(EncodeAll(files, EncodeRetryFile)) }

  function DecodeRetryFiles(j: Json): Option<seq<RetryFile>> {
    if !j.JArray? then None else DecodeAll(j.items, DecodeRetryFile)
  }

  lemma RetryFilesRoundTrip(files: seq<RetryFile>)
    ensures DecodeRetryFiles(EncodeRetryFiles(files)) == if All(files, RetryFileOk) then Some(files) else None
  {
    forall i | 0 <= i < |files|
      ensures DecodeRetryFile(EncodeRetryFile(files[i])) == if RetryFileOk(files[i]) then Some(files[i]) else None
    {
      OneRetryFileRoundTrip(files[i]);
    }
    ListRoundTrip(files, EncodeRetryFile, DecodeRetryFile, RetryFileOk);
  }

  lemma OneRetryFileRoundTrip(f: RetryFile)
    ensures DecodeRetryFile(EncodeRetryFile(f)) == if RetryFileOk(f) then Some(f) else None
  {
  }

  // ---- the loops that build and read the list fields ----

  method EncodeQcResults(qc: seq<QcResult>) returns (list: seq<Json>)
    ensures list == EncodeAll(qc, EncodeQcResult)
  {
    list := [];
    for k := 0 to |qc|
      invariant list == EncodeAll(qc, EncodeQcResult)[..k]
    {
      list := list + [EncodeQcResult(qc[k])];
    }
  }

  method EncodeRecords(records: seq<ReportRecord>) returns (list: seq<Json>)
    ensures list == EncodeAll(records, EncodeRecord)
  {
    list := [];
    for i := 0 to |records|
      invariant list == EncodeAll(records, EncodeRecord)[..i]
    {
      var parsed := records[i];
      var qc := EncodeQcResults(parsed.qc);
      list := list + [JObject(map["raw_file_id" := JString(parsed.rawFileId), "station_code" := JString(parsed.record.station),
                                  "device_code" := JString(parsed.record.device),
                                  "record_time" := JString(parsed.record.recordTime),
                                  "payload_json" := JString(parsed.record.payload),
                                  "parse_status" := JString(parsed.parseStatus), "qc_results" := JArray(qc)])];
    }
  }

  method EncodeFailures(failures: seq<FailedFile>) returns (list: seq<Json>)
    ensures list == EncodeAll(failures, EncodeFailure)
  {
    list := [];
    for i := 0 to |failures|
      invariant list == EncodeAll(failures, EncodeFailure)[..i]
    {
      list := list + [EncodeFailure(failures[i])];
    }
  }

  method EncodeTaskRunReport(r: ReportRequest) returns (j: Option<Json>)
    ensures j == EncodeReport(r)
  {
    hide EncodeAll;
    if !Terminal(r.status) {
      return None;
    }
    var records := EncodeRecords(r.records);
    var members := map["codec_version" := JInt(CODEC_VERSION), "task_run_id" := JString(r.runId), "node_code" := JString(r.node),
                       "idempotency_key" := JString(r.key), "status" := JString(StatusText(r.status)),
                       "finished_at" := JString(r.finishedAt), "items_total" := JInt(r.total), "items_success" := JInt(r.success),
                       "items_failed" := JInt(r.failed), "error_summary" := JString(r.summary), "parsed_records" := JArray(records)];
    if r.failedFiles.Some? {
      var failures := EncodeFailures(r.failedFiles.value);
      members := members["failed_files" := JArray(failures)];
    }
    return Some(JObject(members));
  }

  method DecodeManifestRequest(j: Json) returns (m: Option<ManifestRequest>)
    ensures m == DecodeManifest(j)
  {
    if !Versioned(j) || !HasString(j, "task_run_id", false) || !HasString(j, "node_code", false)
       || !HasString(j, "idempotency_key", false) || !HasArray(j, "files") {
      return None;
    }
    var items := j.members["files"].items;
    var files: seq<ManifestEntry> := [];
    for i := 0 to |items|
      invariant DecodeAll(items[..i], DecodeManifestEntry) == Some(files)
    {
      var entry := DecodeManifestEntry(items[i]);
      assert items[..i + 1][..i] == items[..i];
      if entry.None? {
        BadEntryRefuses(items, DecodeManifestEntry, i + 1);
        return None;
      }
      files := files + [entry.value];
    }
    assert items[..|items|] == items;
    return Some(ManifestRequest(Text(j, "task_run_id"), Text(j, "node_code"), Text(j, "idempotency_key"), files));
  }

  lemma {:induction false} BadEntryRefuses<T>(list: seq<Json>, decode: Json -> Option<T>, n: nat)
    requires n <= |list| && DecodeAll(list[..n], decode).None?
    ensures DecodeAll(list, decode).None?
    decreases |list|
  {
    if n == |list| {
      assert list[..n] == list;
    } else {
      assert list[..|list| - 1][..n] == list[..n];
      BadEntryRefuses(list[..|list| - 1], decode, n);
    }
  }
}
