/** The canonical length-prefixed string behind a request fingerprint. */
module Fingerprint {
  import opened Messages
  import opened Decimals

  // ---- length-prefixed pieces ----

  function Piece(value: string): string { Show(|value|) + ":" + value }

  function Encode(pieces: seq<string>): string {
    if pieces == [] then "" else Piece(pieces[0]) + Encode(pieces[1..])
  }

  lemma {:induction false} EncodeConcat(a: seq<string>, b: seq<string>)
    ensures Encode(a + b) == Encode(a) + Encode(b)
  {
    if a == [] {
      assert a + b == b;
    } else {
      EncodeConcat(a[1..], b);
      assert (a + b)[1..] == a[1..] + b;
    }
  }

  lemma EncodeOne(value: string)
    ensures Encode([value]) == Piece(value)
  {
    assert Piece(value) + Encode([]) == Piece(value);
  }

  /** A piece at the front of a string can be split off in only one way. */
  lemma PieceSplitsOff(v: string, w: string, s: string, t: string)
    requires Piece(v) + s == Piece(w) + t
    ensures v == w && s == t
  {
    var vRest, wRest := ":" + (v + s), ":" + (w + t);
    assert Piece(v) + s == Show(|v|) + vRest;
    assert Piece(w) + t == Show(|w|) + wRest;
    DigitPrefixUnique(Show(|v|), Show(|w|), vRest, wRest);
    ReadShow(|v|);
    ReadShow(|w|);
    assert vRest[1..] == v + s && wRest[1..] == w + t;
    assert (v + s)[..|v|] == v && (w + t)[..|w|] == w;
    assert (v + s)[|v|..] == s && (w + t)[|w|..] == t;
  }

  /** Equal canonical strings come from equal lists of pieces. */
  lemma {:induction false} EncodeInjective(a: seq<string>, b: seq<string>)
    requires Encode(a) == Encode(b)
    ensures a == b
  {
    if a != [] && b != [] {
      PieceSplitsOff(a[0], b[0], Encode(a[1..]), Encode(b[1..]));
      EncodeInjective(a[1..], b[1..]);
      assert a == [a[0]] + a[1..] && b == [b[0]] + b[1..];
    }
  }

  // ---- what the two request kinds append ----

  function StatusText(status: RunStatus): string {
    match status
    case Pending => "pending"
    case Running => "running"
    case Succeeded => "succeeded"
    case Failed => "failed"
  }

  function OrDefault(value: string, default: string): string { if value == "" then default else value }

  function FilePieces(file: ManifestEntry): seq<string> {
    [file.originalName, file.fileHash, file.storagePath, ShowInt(file.sizeBytes), file.sourceMtime,
     OrDefault(file.ingestStatus, "collected")]
  }

  function QcPieces(qc: QcResult): seq<string> { [qc.ruleId, qc.level, qc.result, qc.message] }

  function FailurePieces(f: FailedFile): seq<string> {
    [f.sourcePath, f.originalName, f.stage, f.message, f.archiveRef]
  }

  function RecordPieces(r: ReportRecord): seq<string> {
    [r.rawFileId, r.record.station, r.record.device, r.record.recordTime, r.record.payload,
     OrDefault(r.parseStatus, "parsed"), Show(|r.qc|)] + Flatten(r.qc, QcPieces)
  }

  function Flatten<T>(items: seq<T>, pieces: T -> seq<string>): seq<string> {
    if items == [] then [] else pieces(items[0]) + Flatten(items[1..], pieces)
  }

  lemma {:induction false} FlattenAppend<T>(items: seq<T>, item: T, pieces: T -> seq<string>)
    ensures Flatten(items + [item], pieces) == Flatten(items, pieces) + pieces(item)
  {
    if items == [] {
      assert Flatten([item], pieces) == pieces(item) + Flatten([item][1..], pieces);
    } else {
      FlattenAppend(items[1..], item, pieces);
      assert (items + [item])[1..] == items[1..] + [item];
    }
  }

  function ManifestPieces(m: ManifestRequest): seq<string> {
    ["raw_file_manifest", m.runId, m.node, Show(|m.files|)] + Flatten(m.files, FilePieces)
  }

  function ReportHead(r: ReportRequest): seq<string> {
    ["task_run_report", r.runId, r.node, StatusText(r.status), r.finishedAt, ShowInt(r.total), ShowInt(r.success),
     ShowInt(r.failed), r.summary, Show(|r.records|)]
  }

  function FailureListPieces(failedFiles: Option<seq<FailedFile>>): seq<string> {
    match failedFiles
    case None => []
    case Some(list) => ["failed_files_v1", Show(|list|)] + Flatten(list, FailurePieces)
  }

  function ReportPieces(r: ReportRequest): seq<string> {
    ReportHead(r) + (Flatten(r.records, RecordPieces) + FailureListPieces(r.failedFiles))
  }

  function ManifestFingerprint(m: ManifestRequest): string { Sha256Hex(Encode(ManifestPieces(m))) }

  function ReportFingerprint(r: ReportRequest): string { Sha256Hex(Encode(ReportPieces(r))) }

  // ---- what a fingerprint identifies: a request up to its key and the two defaults ----

  function NormalEntry(file: ManifestEntry): ManifestEntry {
    file.(ingestStatus := OrDefault(file.ingestStatus, "collected"))
  }

  function NormalRecord(r: ReportRecord): ReportRecord { r.(parseStatus := OrDefault(r.parseStatus, "parsed")) }

  function MapAll<T, U>(items: seq<T>, f: T -> U): (r: seq<U>)
    ensures |r| == |items| && forall i :: 0 <= i < |items| ==> r[i] == f(items[i])
  {
    seq(|items|, i requires 0 <= i < |items| => f(items[i]))
  }

  function NormalManifest(m: ManifestRequest): ManifestRequest { m.(key := "", files := MapAll(m.files, NormalEntry)) }

  function NormalReport(r: ReportRequest): ReportRequest { r.(key := "", records := MapAll(r.records, NormalRecord)) }

  /** The pieces of an item can be split off the front of a list, and determine the item up to normal form. */
  ghost predicate SelfDelimiting<T(!new), U>(pieces: T -> seq<string>, normal: T -> U) {
    forall a: T, b: T, s: seq<string>, t: seq<string> {:trigger pieces(a) + s, pieces(b) + t} ::
      pieces(a) + s == pieces(b) + t ==> normal(a) == normal(b) && s == t
  }

  lemma {:induction false} FlattenSplitsOff<T(!new), U>(a: seq<T>, b: seq<T>, pieces: T -> seq<string>, normal: T -> U,
                                                        s: seq<string>, t: seq<string>)
    requires SelfDelimiting(pieces, normal)
    requires |a| == |b| && Flatten(a, pieces) + s == Flatten(b, pieces) + t
    ensures MapAll(a, normal) == MapAll(b, normal) && s == t
  {
    if a == [] {
      assert Flatten(a, pieces) + s == s && Flatten(b, pieces) + t == t;
    } else {
      var u, v := Flatten(a[1..], pieces) + s, Flatten(b[1..], pieces) + t;
      assert Flatten(a, pieces) + s == pieces(a[0]) + u;
      assert Flatten(b, pieces) + t == pieces(b[0]) + v;
      FlattenSplitsOff(a[1..], b[1..], pieces, normal, s, t);
      forall i | 0 <= i < |a| ensures normal(a[i]) == normal(b[i]) {
        if i > 0 {
          assert MapAll(a[1..], normal)[i - 1] == MapAll(b[1..], normal)[i - 1];
        }
      }
    }
  }

  /** Lists of equally many pieces at the front of equal lists are equal. */
  lemma FrontSplitsOff(a: seq<string>, b: seq<string>, s: seq<string>, t: seq<string>)
    requires |a| == |b| && a + s == b + t
    ensures a == b && s == t
  {
    assert (a + s)[..|a|] == a && (b + t)[..|b|] == b;
    assert (a + s)[|a|..] == s && (b + t)[|b|..] == t;
  }

  lemma FilesDelimited()
    ensures SelfDelimiting(FilePieces, NormalEntry)
  {
    forall a: ManifestEntry, b: ManifestEntry, s: seq<string>, t: seq<string> | FilePieces(a) + s == FilePieces(b) + t
      ensures NormalEntry(a) == NormalEntry(b) && s == t
    {
      FrontSplitsOff(FilePieces(a), FilePieces(b), s, t);
      assert forall i :: 0 <= i < 6 ==> FilePieces(a)[i] == FilePieces(b)[i];
      assert FilePieces(a)[3] == ShowInt(a.sizeBytes) && FilePieces(b)[3] == ShowInt(b.sizeBytes);
      ShowIntInjective(a.sizeBytes, b.sizeBytes);
    }
  }

  lemma QcDelimited()
    ensures SelfDelimiting(QcPieces, (qc: QcResult) => qc)
  {
    forall a: QcResult, b: QcResult, s: seq<string>, t: seq<string> | QcPieces(a) + s == QcPieces(b) + t
      ensures a == b && s == t
    {
      FrontSplitsOff(QcPieces(a), QcPieces(b), s, t);
      assert forall i :: 0 <= i < 4 ==> QcPieces(a)[i] == QcPieces(b)[i];
    }
  }

  lemma FailuresDelimited()
    ensures SelfDelimiting(FailurePieces, (f: FailedFile) => f)
  {
    forall a: FailedFile, b: FailedFile, s: seq<string>, t: seq<string> | FailurePieces(a) + s == FailurePieces(b) + t
      ensures a == b && s == t
    {
      FrontSplitsOff(FailurePieces(a), FailurePieces(b), s, t);
      assert forall i :: 0 <= i < 5 ==> FailurePieces(a)[i] == FailurePieces(b)[i];
    }
  }

  lemma MapIdentity<T>(a: seq<T>, b: seq<T>, same: T -> T)
    requires forall x :: same(x) == x
    requires MapAll(a, same) == MapAll(b, same)
    ensures a == b
  {
    assert |a| == |b|;
    assert forall i :: 0 <= i < |a| ==> MapAll(a, same)[i] == MapAll(b, same)[i];
  }

  lemma RecordSplitsOff(a: ReportRecord, b: ReportRecord, s: seq<string>, t: seq<string>)
    requires RecordPieces(a) + s == RecordPieces(b) + t
    ensures NormalRecord(a) == NormalRecord(b) && s == t
  {
    var headA := RecordPieces(a)[..7];
    var headB := RecordPieces(b)[..7];
    assert RecordPieces(a) + s == headA + (Flatten(a.qc, QcPieces) + s);
    assert RecordPieces(b) + t == headB + (Flatten(b.qc, QcPieces) + t);
    FrontSplitsOff(headA, headB, Flatten(a.qc, QcPieces) + s, Flatten(b.qc, QcPieces) + t);
    assert forall i :: 0 <= i < 7 ==> headA[i] == headB[i];
    assert headA[6] == Show(|a.qc|) && headB[6] == Show(|b.qc|);
    ReadShow(|a.qc|);
    ReadShow(|b.qc|);
    QcDelimited();
    FlattenSplitsOff(a.qc, b.qc, QcPieces, (qc: QcResult) => qc, s, t);
    MapIdentity(a.qc, b.qc, (qc: QcResult) => qc);
  }

  lemma RecordsDelimited()
    ensures SelfDelimiting(RecordPieces, NormalRecord)
  {
    forall a: ReportRecord, b: ReportRecord, s: seq<string>, t: seq<string> | RecordPieces(a) + s == RecordPieces(b) + t
      ensures NormalRecord(a) == NormalRecord(b) && s == t
    {
      RecordSplitsOff(a, b, s, t);
    }
  }

  /** Two manifests have the same fingerprint exactly when they are equal up to key and default ingest status. */
  lemma ManifestFingerprintInjective(a: ManifestRequest, b: ManifestRequest)
    ensures ManifestFingerprint(a) == ManifestFingerprint(b) <==> NormalManifest(a) == NormalManifest(b)
  {
    if ManifestFingerprint(a) == ManifestFingerprint(b) {
      assert ManifestFingerprint(a)[1..] == Encode(ManifestPieces(a));
      assert ManifestFingerprint(b)[1..] == Encode(ManifestPieces(b));
      EncodeInjective(ManifestPieces(a), ManifestPieces(b));
      FrontSplitsOff(ManifestPieces(a)[..4], ManifestPieces(b)[..4], Flatten(a.files, FilePieces), Flatten(b.files, FilePieces));
      assert forall i :: 0 <= i < 4 ==> ManifestPieces(a)[i] == ManifestPieces(b)[i];
      ReadShow(|a.files|);
      ReadShow(|b.files|);
      FilesDelimited();
      assert Flatten(a.files, FilePieces) + [] == Flatten(b.files, FilePieces) + [];
      FlattenSplitsOff(a.files, b.files, FilePieces, NormalEntry, [], []);
    } else {
      NormalFilesSamePieces(a.files, b.files);
    }
  }

  lemma {:induction false} NormalFilesSamePieces(a: seq<ManifestEntry>, b: seq<ManifestEntry>)
    ensures MapAll(a, NormalEntry) == MapAll(b, NormalEntry) ==> Flatten(a, FilePieces) == Flatten(b, FilePieces)
  {
    if a != [] && MapAll(a, NormalEntry) == MapAll(b, NormalEntry) {
      assert |b| == |a| && NormalEntry(a[0]) == NormalEntry(b[0]);
      forall i | 0 <= i < |a| - 1 ensures NormalEntry(a[1..][i]) == NormalEntry(b[1..][i]) {
        assert MapAll(a, NormalEntry)[i + 1] == MapAll(b, NormalEntry)[i + 1];
      }
      NormalFilesSamePieces(a[1..], b[1..]);
    }
  }

  lemma {:induction false} NormalRecordsSamePieces(a: seq<ReportRecord>, b: seq<ReportRecord>)
    ensures MapAll(a, NormalRecord) == MapAll(b, NormalRecord) ==> Flatten(a, RecordPieces) == Flatten(b, RecordPieces)
  {
    if a != [] && MapAll(a, NormalRecord) == MapAll(b, NormalRecord) {
      assert |b| == |a| && NormalRecord(a[0]) == NormalRecord(b[0]);
      forall i | 0 <= i < |a| - 1 ensures NormalRecord(a[1..][i]) == NormalRecord(b[1..][i]) {
        assert MapAll(a, NormalRecord)[i + 1] == MapAll(b, NormalRecord)[i + 1];
      }
      NormalRecordsSamePieces(a[1..], b[1..]);
    }
  }

  lemma FailureListsEqual(a: Option<seq<FailedFile>>, b: Option<seq<FailedFile>>)
    requires FailureListPieces(a) == FailureListPieces(b)
    ensures a == b
  {
    if a.Some? && b.Some? {
      var listA, listB := a.value, b.value;
      FrontSplitsOff(["failed_files_v1", Show(|listA|)], ["failed_files_v1", Show(|listB|)],
                     Flatten(listA, FailurePieces), Flatten(listB, FailurePieces));
      assert Show(|listA|) == ["failed_files_v1", Show(|listA|)][1] == ["failed_files_v1", Show(|listB|)][1];
      ReadShow(|listA|);
      ReadShow(|listB|);
      FailuresDelimited();
      assert Flatten(listA, FailurePieces) + [] == Flatten(listB, FailurePieces) + [];
      FlattenSplitsOff(listA, listB, FailurePieces, (f: FailedFile) => f, [], []);
      MapIdentity(listA, listB, (f: FailedFile) => f);
    }
  }

  lemma HeadsEqual(a: ReportRequest, b: ReportRequest)
    requires ReportHead(a) == ReportHead(b)
    ensures a.runId == b.runId && a.node == b.node && a.status == b.status && a.finishedAt == b.finishedAt
    ensures a.total == b.total && a.success == b.success && a.failed == b.failed && a.summary == b.summary
    ensures |a.records| == |b.records|
  {
    assert forall i :: 0 <= i < 10 ==> ReportHead(a)[i] == ReportHead(b)[i];
    assert StatusText(a.status) == ReportHead(a)[3] == ReportHead(b)[3] == StatusText(b.status);
    assert ShowInt(a.total) == ReportHead(a)[5] == ReportHead(b)[5];
    assert ShowInt(a.success) == ReportHead(a)[6] == ReportHead(b)[6];
    assert ShowInt(a.failed) == ReportHead(a)[7] == ReportHead(b)[7];
    assert Show(|a.records|) == ReportHead(a)[9] == ReportHead(b)[9];
    ShowIntInjective(a.total, b.total);
    ShowIntInjective(a.success, b.success);
    ShowIntInjective(a.failed, b.failed);
    ReadShow(|a.records|);
    ReadShow(|b.records|);
    assert |"pending"| == 7 && |"running"| == 7 && |"succeeded"| == 9 && |"failed"| == 6 && "pending"[0] != "running"[0];
  }

  /** Two reports have the same fingerprint exactly when they are equal up to key and default parse status;
      an absent failure list and an empty one therefore differ. */
  lemma ReportFingerprintInjective(a: ReportRequest, b: ReportRequest)
    ensures ReportFingerprint(a) == ReportFingerprint(b) <==> NormalReport(a) == NormalReport(b)
  {
    var restA := Flatten(a.records, RecordPieces) + FailureListPieces(a.failedFiles);
    var restB := Flatten(b.records, RecordPieces) + FailureListPieces(b.failedFiles);
    if ReportFingerprint(a) == ReportFingerprint(b) {
      assert ReportFingerprint(a)[1..] == Encode(ReportPieces(a));
      assert ReportFingerprint(b)[1..] == Encode(ReportPieces(b));
      EncodeInjective(ReportPieces(a), ReportPieces(b));
      FrontSplitsOff(ReportHead(a), ReportHead(b), restA, restB);
      HeadsEqual(a, b);
      RecordsDelimited();
      FlattenSplitsOff(a.records, b.records, RecordPieces, NormalRecord,
                       FailureListPieces(a.failedFiles), FailureListPieces(b.failedFiles));
      FailureListsEqual(a.failedFiles, b.failedFiles);
    }
    if NormalReport(a) == NormalReport(b) {
      NormalRecordsSamePieces(a.records, b.records);
      assert |MapAll(a.records, NormalRecord)| == |MapAll(b.records, NormalRecord)|;
      assert ReportHead(a) == ReportHead(b) && restA == restB;
    }
  }

  /** No manifest has the fingerprint of a report. */
  lemma ManifestNeverCollidesWithReport(m: ManifestRequest, r: ReportRequest)
    ensures ManifestFingerprint(m) != ReportFingerprint(r)
  {
    assert |ManifestPieces(m)[0]| == 17 && |ReportPieces(r)[0]| == 15;
    assert ManifestFingerprint(m)[1..] == Encode(ManifestPieces(m));
    assert ReportFingerprint(r)[1..] == Encode(ReportPieces(r));
    if Encode(ManifestPieces(m)) == Encode(ReportPieces(r)) {
      EncodeInjective(ManifestPieces(m), ReportPieces(r));
    }
  }

  // ---- the builder ----

  class FingerprintBuilder {
    var canonical: string

    constructor ()
      ensures canonical == ""
    {
      canonical := "";
    }

    method Append(value: string)
      modifies this
      ensures canonical == old(canonical) + Encode([value])
    {
      canonical := canonical + Show(|value|);
      canonical := canonical + ":";
      canonical := canonical + value;
      EncodeOne(value);
      assert canonical == old(canonical) + Piece(value);
    }

    method AppendAll(values: seq<string>)
      modifies this
      ensures canonical == old(canonical) + Encode(values)
    {
      for i := 0 to |values|
        invariant canonical == old(canonical) + Encode(values[..i])
      {
        Append(values[i]);
        EncodeConcat(values[..i], [values[i]]);
        assert values[..i + 1] == values[..i] + [values[i]];
      }
      assert values[..|values|] == values;
    }
  }

  lemma EncodeNextItem<T>(items: seq<T>, i: nat, pieces: T -> seq<string>)
    requires i < |items|
    ensures Encode(Flatten(items[..i + 1], pieces)) == Encode(Flatten(items[..i], pieces)) + Encode(pieces(items[i]))
  {
    FlattenAppend(items[..i], items[i], pieces);
    EncodeConcat(Flatten(items[..i], pieces), pieces(items[i]));
    assert items[..i + 1] == items[..i] + [items[i]];
  }

  lemma AppendOnto(start: string, middle: string, end: string)
    ensures (start + middle) + end == start + (middle + end)
  {
  }

  method AppendFiles(builder: FingerprintBuilder, files: seq<ManifestEntry>)
    modifies builder
    ensures builder.canonical == old(builder.canonical) + Encode(Flatten(files, FilePieces))
  {
    for i := 0 to |files|
      invariant builder.canonical == old(builder.canonical) + Encode(Flatten(files[..i], FilePieces))
    {
      builder.AppendAll(FilePieces(files[i]));
      EncodeNextItem(files, i, FilePieces);
      AppendOnto(old(builder.canonical), Encode(Flatten(files[..i], FilePieces)), Encode(FilePieces(files[i])));
    }
    assert files[..|files|] == files;
  }

  method AppendQcResults(builder: FingerprintBuilder, results: seq<QcResult>)
    modifies builder
    ensures builder.canonical == old(builder.canonical) + Encode(Flatten(results, QcPieces))
  {
    for i := 0 to |results|
      invariant builder.canonical == old(builder.canonical) + Encode(Flatten(results[..i], QcPieces))
    {
      builder.AppendAll(QcPieces(results[i]));
      EncodeNextItem(results, i, QcPieces);
      AppendOnto(old(builder.canonical), Encode(Flatten(results[..i], QcPieces)), Encode(QcPieces(results[i])));
    }
    assert results[..|results|] == results;
  }

  method AppendRecord(builder: FingerprintBuilder, r: ReportRecord)
    modifies builder
    ensures builder.canonical == old(builder.canonical) + Encode(RecordPieces(r))
  {
    var head := [r.rawFileId, r.record.station, r.record.device, r.record.recordTime, r.record.payload,
                 OrDefault(r.parseStatus, "parsed"), Show(|r.qc|)];
    builder.AppendAll(head);
    AppendQcResults(builder, r.qc);
    EncodeConcat(head, Flatten(r.qc, QcPieces));
    AppendOnto(old(builder.canonical), Encode(head), Encode(Flatten(r.qc, QcPieces)));
  }

  method AppendRecords(builder: FingerprintBuilder, records: seq<ReportRecord>)
    modifies builder
    ensures builder.canonical == old(builder.canonical) + Encode(Flatten(records, RecordPieces))
  {
    for i := 0 to |records|
      invariant builder.canonical == old(builder.canonical) + Encode(Flatten(records[..i], RecordPieces))
    {
      AppendRecord(builder, records[i]);
      EncodeNextItem(records, i, RecordPieces);
      AppendOnto(old(builder.canonical), Encode(Flatten(records[..i], RecordPieces)), Encode(RecordPieces(records[i])));
    }
    assert records[..|records|] == records;
  }

  method AppendFailures(builder: FingerprintBuilder, failures: seq<FailedFile>)
    modifies builder
    ensures builder.canonical == old(builder.canonical) + Encode(Flatten(failures, FailurePieces))
  {
    for i := 0 to |failures|
      invariant builder.canonical == old(builder.canonical) + Encode(Flatten(failures[..i], FailurePieces))
    {
      builder.AppendAll(FailurePieces(failures[i]));
      EncodeNextItem(failures, i, FailurePieces);
      AppendOnto(old(builder.canonical), Encode(Flatten(failures[..i], FailurePieces)), Encode(FailurePieces(failures[i])));
    }
    assert failures[..|failures|] == failures;
  }

  method ComputeManifestFingerprint(m: ManifestRequest) returns (fingerprint: string)
    ensures fingerprint == ManifestFingerprint(m)
  {
    var builder := new FingerprintBuilder();
    var head := ["raw_file_manifest", m.runId, m.node, Show(|m.files|)];
    builder.AppendAll(head);
    AppendFiles(builder, m.files);
    EncodeConcat(head, Flatten(m.files, FilePieces));
    fingerprint := Sha256Hex(builder.canonical);
  }

  method AppendFailureList(builder: FingerprintBuilder, failedFiles: Option<seq<FailedFile>>)
    modifies builder
    ensures builder.canonical == old(builder.canonical) + Encode(FailureListPieces(failedFiles))
  {
    if failedFiles.Some? {
      var head := ["failed_files_v1", Show(|failedFiles.value|)];
      builder.AppendAll(head);
      AppendFailures(builder, failedFiles.value);
      EncodeConcat(head, Flatten(failedFiles.value, FailurePieces));
      AppendOnto(old(builder.canonical), Encode(head), Encode(Flatten(failedFiles.value, FailurePieces)));
    }
  }

  lemma EncodeReport(r: ReportRequest)
    ensures Encode(ReportPieces(r))
         == Encode(ReportHead(r)) + Encode(Flatten(r.records, RecordPieces)) + Encode(FailureListPieces(r.failedFiles))
  {
    var records, failures := Flatten(r.records, RecordPieces), FailureListPieces(r.failedFiles);
    EncodeConcat(records, failures);
    EncodeConcat(ReportHead(r), records + failures);
    AppendOnto(Encode(ReportHead(r)), Encode(records), Encode(failures));
  }

  method AppendReport(builder: FingerprintBuilder, head: seq<string>, r: ReportRequest)
    modifies builder
    ensures builder.canonical == old(builder.canonical) + Encode(head) + Encode(Flatten(r.records, RecordPieces))
                                 + Encode(FailureListPieces(r.failedFiles))
  {
    builder.AppendAll(head);
    AppendRecords(builder, r.records);
    AppendFailureList(builder, r.failedFiles);
  }

  method ComputeReportFingerprint(r: ReportRequest) returns (fingerprint: string)
    ensures fingerprint == ReportFingerprint(r)
  {
    var builder := new FingerprintBuilder();
    var head := ReportHead(r);
    AppendReport(builder, head, r);
    EncodeReport(r);
    assert "" + Encode(head) == Encode(head);
    fingerprint := Sha256Hex(builder.canonical);
  }
}
