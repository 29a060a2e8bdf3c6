/** Choosing the files of a job: from the task's directory, or from the fixed targets of a retry. */
module Planning {
  import opened Messages
  import opened Decimals
  import opened ArchivePaths
  import opened QueueModel
  import opened QueueStore

  // What the file system answers is a parameter.

  datatype Metadata = Metadata(sizeBytes: int, sourceMtime: string, fileHash: string)

  datatype Inspection = Unreadable(message: string) | Readable(metadata: Metadata)

  /** A directory entry with the outcome of inspecting it; localPath is canonical already. */
  datatype Listing = Listing(localPath: string, originalName: string, inspection: Inspection)

  /** What the archive or source check of a retry target finds; readPath is the canonical path read for a source target. */
  datatype TargetCheck = Rejected(message: string) | Accepted(readPath: string, metadata: Metadata)

  datatype Site = Site(workDir: string, taskId: string, runId: string)

  datatype Draft = Draft(plan: seq<FileRow>, failures: seq<FailedFile>)

  function MetadataFingerprint(path: string, m: Metadata): string {
    path + "\n" + ShowInt(m.sizeBytes) + "\n" + m.sourceMtime + "\n" + m.fileHash
  }

  function TaskFingerprint(taskId: string, path: string, m: Metadata): string {
    taskId + "\n" + MetadataFingerprint(path, m)
  }

  function PlannedRow(site: Site, ordinal: nat, sourcePath: string, name: string, m: Metadata, fingerprint: string,
                      inputPath: string): FileRow
  {
    FileRow(ordinal, sourcePath, name, m.sourceMtime, m.sizeBytes, m.fileHash, fingerprint,
            PlanArchivePath(site.workDir, site.taskId, site.runId, ordinal + 1, name), inputPath, false, "", false, "")
  }

  function AddFailure(d: Draft, path: string, name: string, stage: string, message: string, ref: string): Draft {
    d.(failures := d.failures + [FailedFile(path, name, stage, message, ref)])
  }

  // ---- directory ----

  /** The draft after one more directory entry; None when the planned path is refused. */
  ghost function DirectoryStep(q: Queue, site: Site, limit: nat, d: Draft, item: Listing): Option<Draft> {
    if |d.plan| + |d.failures| >= limit then Some(d)
    else if item.inspection.Unreadable? then
      Some(AddFailure(d, item.localPath, item.originalName, "read", item.inspection.message, ""))
    else
      var m := item.inspection.metadata;
      var fingerprint := TaskFingerprint(site.taskId, item.localPath, m);
      if Occupied(q, site.taskId, fingerprint) then Some(d)
      else if !PlanAllowed(site.taskId, site.runId, |d.plan| + 1) then None
      else Some(d.(plan := d.plan + [PlannedRow(site, |d.plan|, item.localPath, item.originalName, m, fingerprint, "")]))
  }

  ghost function DirectoryDraft(q: Queue, site: Site, limit: nat, items: seq<Listing>, n: nat): Option<Draft>
    requires n <= |items|
  {
    if n == 0 then Some(Draft([], []))
    else
      match DirectoryDraft(q, site, limit, items, n - 1)
      case None => None
      case Some(d) => DirectoryStep(q, site, limit, d, items[n - 1])
  }

  lemma {:induction false} DirectoryRefusalStays(q: Queue, site: Site, limit: nat, items: seq<Listing>, m: nat, n: nat)
    requires m <= n <= |items| && DirectoryDraft(q, site, limit, items, m).None?
    ensures DirectoryDraft(q, site, limit, items, n).None?
  {
    if m < n {
      DirectoryRefusalStays(q, site, limit, items, m, n - 1);
    }
  }

  lemma {:induction false} FullDraftStays(q: Queue, site: Site, limit: nat, items: seq<Listing>, m: nat, n: nat,
                                          d: Draft)
    requires m <= n <= |items| && DirectoryDraft(q, site, limit, items, m) == Some(d)
    requires |d.plan| + |d.failures| >= limit
    ensures DirectoryDraft(q, site, limit, items, n) == Some(d)
  {
    hide AddFailure, TaskFingerprint, PlannedRow, PlanAllowed, Occupied;
    if m < n {
      FullDraftStays(q, site, limit, items, m, n - 1, d);
    }
  }

  method PlanFromDirectory(store: AgentQueueStore, site: Site, limit: nat,
                           items: seq<Listing>) returns (draft: Option<Draft>)
    ensures draft == DirectoryDraft(store.State(), site, limit, items, |items|)
  {
    hide PlannedRow, PlanAllowed, Occupied, InFlight, TaskFingerprint;
    var d := Draft([], []);
    for i := 0 to |items|
      invariant DirectoryDraft(store.State(), site, limit, items, i) == Some(d)
    {
      if |d.plan| + |d.failures| >= limit {
        FullDraftStays(store.State(), site, limit, items, i, |items|, d);
        return Some(d);
      }
      var item := items[i];
      if item.inspection.Unreadable? {
        d := AddFailure(d, item.localPath, item.originalName, "read", item.inspection.message, "");
        continue;
      }
      var m := item.inspection.metadata;
      var fingerprint := TaskFingerprint(site.taskId, item.localPath, m);
      var occupied := store.IsFileOccupied(site.taskId, fingerprint);
      if occupied {
        continue;
      }
      if !PlanAllowed(site.taskId, site.runId, |d.plan| + 1) {
        DirectoryRefusalStays(store.State(), site, limit, items, i + 1, |items|);
        return None;
      }
      d := d.(plan := d.plan + [PlannedRow(site, |d.plan|, item.localPath, item.originalName, m, fingerprint, "")]);
    }
    return Some(d);
  }

  // ---- fixed retry targets ----

  function SnapshotMetadata(target: RetryFile): Metadata {
    Metadata(target.sizeBytes, target.sourceMtime, target.fileHash)
  }

  function KeptReference(target: RetryFile): string {
    if target.inputType.ArchiveInput? then target.archiveRef else ""
  }

  function TargetRow(site: Site, ordinal: nat, target: RetryFile, check: TargetCheck): FileRow
    requires check.Accepted?
  {
    if target.inputType.ArchiveInput? then
      PlannedRow(site, ordinal, target.sourcePath, target.originalName, SnapshotMetadata(target),
                 TaskFingerprint(site.taskId, target.sourcePath, SnapshotMetadata(target)), target.storagePath)
    else
      PlannedRow(site, ordinal, target.sourcePath, target.originalName, check.metadata,
                 TaskFingerprint(site.taskId, check.readPath, check.metadata), check.readPath)
  }

  /** The draft after one more target. The fixed list is never cut off, and only in-flight files are avoided. */
  ghost function TargetStep(q: Queue, site: Site, d: Draft, target: RetryFile, check: TargetCheck): Option<Draft> {
    if !PlanAllowed(site.taskId, site.runId, |d.plan| + 1) then None
    else if check.Rejected? then
      Some(AddFailure(d, target.sourcePath, target.originalName,
                      if target.inputType.ArchiveInput? then "archive" else "read", check.message, KeptReference(target)))
    else
      var row := TargetRow(site, |d.plan|, target, check);
      if InFlight(q, site.taskId, row.fingerprint) then
        Some(AddFailure(d, target.sourcePath, target.originalName, "read", "file is in flight by another pending job",
                        KeptReference(target)))
      else Some(d.(plan := d.plan + [row]))
  }

  ghost function TargetDraft(q: Queue, site: Site, targets: seq<RetryFile>, checks: seq<TargetCheck>,
                             n: nat): Option<Draft>
    requires n <= |targets| == |checks|
  {
    if n == 0 then Some(Draft([], []))
    else
      match TargetDraft(q, site, targets, checks, n - 1)
      case None => None
      case Some(d) => TargetStep(q, site, d, targets[n - 1], checks[n - 1])
  }

  lemma {:induction false} TargetRefusalStays(q: Queue, site: Site, targets: seq<RetryFile>, checks: seq<TargetCheck>,
                                              m: nat, n: nat)
    requires m <= n <= |targets| == |checks| && TargetDraft(q, site, targets, checks, m).None?
    ensures TargetDraft(q, site, targets, checks, n).None?
  {
    if m < n {
      TargetRefusalStays(q, site, targets, checks, m, n - 1);
    }
  }

  method PlanFromRetryTargets(store: AgentQueueStore, site: Site, targets: seq<RetryFile>, checks: seq<TargetCheck>)
    returns (draft: Option<Draft>)
    requires |targets| == |checks|
    ensures draft == TargetDraft(store.State(), site, targets, checks, |targets|)
  {
    hide TargetRow, PlanAllowed, InFlight, TaskFingerprint;
    var d := Draft([], []);
    for i := 0 to |targets|
      invariant TargetDraft(store.State(), site, targets, checks, i) == Some(d)
    {
      var target, check := targets[i], checks[i];
      if !PlanAllowed(site.taskId, site.runId, |d.plan| + 1) {
        TargetRefusalStays(store.State(), site, targets, checks, i + 1, |targets|);
        return None;
      }
      if check.Rejected? {
        d := if target.inputType.ArchiveInput?
             then AddFailure(d, target.sourcePath, target.originalName, "archive", check.message, target.archiveRef)
             else AddFailure(d, target.sourcePath, target.originalName, "read", check.message, "");
        continue;
      }
      var row := TargetRow(site, |d.plan|, target, check);
      var inFlight := store.IsFileInFlight(site.taskId, row.fingerprint);
      if inFlight {
        d := AddFailure(d, target.sourcePath, target.originalName, "read", "file is in flight by another pending job",
                        if target.inputType.ArchiveInput? then target.archiveRef else "");
      } else {
        d := d.(plan := d.plan + [row]);
      }
    }
    return Some(d);
  }

  // ---- what every draft satisfies ----

  predicate FreshRow(site: Site, row: FileRow, i: nat) {
    && row.ordinal == i
    && row.archivePath == PlanArchivePath(site.workDir, site.taskId, site.runId, i + 1, row.originalName)
    && !row.archived && row.rawFileId == "" && !row.parsedClean && row.errorDetail == ""
  }

  ghost predicate WellFormedDraft(q: Queue, site: Site, d: Draft) {
    && (d.plan == [] || PlanAllowed(site.taskId, site.runId, 1))
    && (forall i :: 0 <= i < |d.plan| ==> FreshRow(site, d.plan[i], i) && !InFlight(q, site.taskId, d.plan[i].fingerprint))
  }

  /** Every path of the draft is the path of exactly one of the first n sources, in use at most once. */
  ghost predicate PathsFrom(d: Draft, sources: seq<string>, n: nat)
    requires n <= |sources|
  {
    && (forall i :: 0 <= i < |d.plan| ==> d.plan[i].sourcePath in sources[..n])
    && (forall i :: 0 <= i < |d.failures| ==> d.failures[i].sourcePath in sources[..n])
    && (forall i, j :: 0 <= i < j < |d.plan| ==> d.plan[i].sourcePath != d.plan[j].sourcePath)
    && (forall i, j :: 0 <= i < j < |d.failures| ==> d.failures[i].sourcePath != d.failures[j].sourcePath)
    && (forall i, j :: 0 <= i < |d.plan| && 0 <= j < |d.failures| ==> d.plan[i].sourcePath != d.failures[j].sourcePath)
  }

  ghost predicate Distinct(paths: seq<string>) { forall i, j :: 0 <= i < j < |paths| ==> paths[i] != paths[j] }

  lemma EmptyDraftSound(q: Queue, site: Site, sources: seq<string>)
    ensures WellFormedDraft(q, site, Draft([], [])) && PathsFrom(Draft([], []), sources, 0)
  {
  }

  lemma NextSource(sources: seq<string>, n: nat)
    requires n < |sources| && Distinct(sources)
    ensures sources[n] !in sources[..n] && sources[n] in sources[..n + 1]
    ensures forall path :: path in sources[..n] ==> path in sources[..n + 1]
  {
    assert sources[..n + 1] == sources[..n] + [sources[n]];
  }

  lemma PathsFromPlan(d: Draft, row: FileRow, sources: seq<string>, n: nat)
    requires n < |sources| && Distinct(sources) && PathsFrom(d, sources, n) && row.sourcePath == sources[n]
    ensures PathsFrom(d.(plan := d.plan + [row]), sources, n + 1)
  {
    hide Distinct;
    NextSource(sources, n);
  }

  lemma PathsFromFailure(d: Draft, f: FailedFile, sources: seq<string>, n: nat)
    requires n < |sources| && Distinct(sources) && PathsFrom(d, sources, n) && f.sourcePath == sources[n]
    ensures PathsFrom(d.(failures := d.failures + [f]), sources, n + 1)
  {
    hide Distinct;
    NextSource(sources, n);
  }

  lemma PathsFromSame(d: Draft, sources: seq<string>, n: nat)
    requires n < |sources| && Distinct(sources) && PathsFrom(d, sources, n)
    ensures PathsFrom(d, sources, n + 1)
  {
    hide Distinct;
    NextSource(sources, n);
  }

  function ItemPaths(items: seq<Listing>): seq<string> {
    seq(|items|, i requires 0 <= i < |items| => items[i].localPath)
  }

  function TargetPaths(targets: seq<RetryFile>): seq<string> {
    seq(|targets|, i requires 0 <= i < |targets| => targets[i].sourcePath)
  }

  lemma WellFormedGrow(q: Queue, site: Site, d: Draft, row: FileRow)
    requires WellFormedDraft(q, site, d) && PlanAllowed(site.taskId, site.runId, |d.plan| + 1)
    requires FreshRow(site, row, |d.plan|) && !InFlight(q, site.taskId, row.fingerprint)
    ensures WellFormedDraft(q, site, d.(plan := d.plan + [row]))
  {
    assert forall i :: 0 <= i < |d.plan| ==> (d.plan + [row])[i] == d.plan[i];
  }

  /** How a draft grows: not at all, by one planned row, or by one failure. */
  ghost predicate DraftGrows(q: Queue, site: Site, d: Draft, e: Draft, path: string) {
    || e == d
    || (exists row :: e == d.(plan := d.plan + [row]) && row.sourcePath == path && FreshRow(site, row, |d.plan|)
                      && PlanAllowed(site.taskId, site.runId, |d.plan| + 1)
                      && !InFlight(q, site.taskId, row.fingerprint))
    || (exists f :: e == d.(failures := d.failures + [f]) && f.sourcePath == path)
  }

  lemma GrowthSound(q: Queue, site: Site, d: Draft, e: Draft, sources: seq<string>, n: nat)
    requires n < |sources| && Distinct(sources) && PathsFrom(d, sources, n) && WellFormedDraft(q, site, d)
    requires DraftGrows(q, site, d, e, sources[n])
    ensures PathsFrom(e, sources, n + 1) && WellFormedDraft(q, site, e)
  {
    if row :| e == d.(plan := d.plan + [row]) && row.sourcePath == sources[n] && FreshRow(site, row, |d.plan|)
              && PlanAllowed(site.taskId, site.runId, |d.plan| + 1) && !InFlight(q, site.taskId, row.fingerprint) {
      WellFormedGrow(q, site, d, row);
      PathsFromPlan(d, row, sources, n);
    } else if f :| e == d.(failures := d.failures + [f]) && f.sourcePath == sources[n] {
      PathsFromFailure(d, f, sources, n);
    } else {
      PathsFromSame(d, sources, n);
    }
  }

  lemma PlannedRowIsFresh(site: Site, ordinal: nat, path: string, name: string, m: Metadata, fp: string, input: string)
    ensures FreshRow(site, PlannedRow(site, ordinal, path, name, m, fp, input), ordinal)
  {
  }

  lemma DirectoryStepGrows(q: Queue, site: Site, limit: nat, d: Draft, item: Listing)
    requires DirectoryStep(q, site, limit, d, item).Some?
    requires |d.plan| + |d.failures| <= limit
    requires forall i :: 0 <= i < |d.plan| ==> !Occupied(q, site.taskId, d.plan[i].fingerprint)
    requires forall i :: 0 <= i < |d.failures| ==> d.failures[i].stage == "read" && d.failures[i].archiveRef == ""
    ensures var e := DirectoryStep(q, site, limit, d, item).value;
            && DraftGrows(q, site, d, e, item.localPath) && |e.plan| + |e.failures| <= limit
            && (forall i :: 0 <= i < |e.plan| ==> !Occupied(q, site.taskId, e.plan[i].fingerprint))
            && (forall i :: 0 <= i < |e.failures| ==> e.failures[i].stage == "read" && e.failures[i].archiveRef == "")
  {
    if item.inspection.Readable? {
      var m := item.inspection.metadata;
      PlannedRowIsFresh(site, |d.plan|, item.localPath, item.originalName, m, TaskFingerprint(site.taskId, item.localPath, m), "");
    }
  }

  /** A directory plan stays within the limit, takes each file once, and never takes an occupied one. */
  lemma {:induction false} DirectoryDraftSound(q: Queue, site: Site, limit: nat, items: seq<Listing>, n: nat)
    requires n <= |items| && DirectoryDraft(q, site, limit, items, n).Some? && Distinct(ItemPaths(items))
    ensures var d := DirectoryDraft(q, site, limit, items, n).value;
            && WellFormedDraft(q, site, d) && PathsFrom(d, ItemPaths(items), n)
            && |d.plan| + |d.failures| <= limit
            && (forall i :: 0 <= i < |d.plan| ==> !Occupied(q, site.taskId, d.plan[i].fingerprint))
            && (forall i :: 0 <= i < |d.failures| ==> d.failures[i].stage == "read" && d.failures[i].archiveRef == "")
  {
    hide WellFormedDraft, PathsFrom, DirectoryStep, DraftGrows, Occupied;
    if n == 0 {
      EmptyDraftSound(q, site, ItemPaths(items));
    } else {
      DirectoryDraftSound(q, site, limit, items, n - 1);
      var d := DirectoryDraft(q, site, limit, items, n - 1).value;
      DirectoryStepGrows(q, site, limit, d, items[n - 1]);
      GrowthSound(q, site, d, DirectoryDraft(q, site, limit, items, n).value, ItemPaths(items), n - 1);
    }
  }

  /** A failure of an archive target keeps the target's archive reference, and nothing else gains one. */
  predicate KeepsReference(targets: seq<RetryFile>, f: FailedFile) {
    exists i :: 0 <= i < |targets| && targets[i].sourcePath == f.sourcePath && f.archiveRef == KeptReference(targets[i])
  }

  lemma TargetRowIsFresh(site: Site, ordinal: nat, target: RetryFile, check: TargetCheck)
    requires check.Accepted?
    ensures FreshRow(site, TargetRow(site, ordinal, target, check), ordinal)
    ensures TargetRow(site, ordinal, target, check).sourcePath == target.sourcePath
  {
    hide TaskFingerprint;
  }

  lemma TargetStepGrows(q: Queue, site: Site, d: Draft, targets: seq<RetryFile>, k: nat, check: TargetCheck)
    requires k < |targets| && TargetStep(q, site, d, targets[k], check).Some?
    requires forall i :: 0 <= i < |d.failures| ==> KeepsReference(targets, d.failures[i])
    ensures var e := TargetStep(q, site, d, targets[k], check).value;
            && DraftGrows(q, site, d, e, targets[k].sourcePath)
            && |e.plan| + |e.failures| == |d.plan| + |d.failures| + 1
            && (forall i :: 0 <= i < |e.failures| ==> KeepsReference(targets, e.failures[i]))
  {
    hide TargetRow, FreshRow, PlanAllowed, InFlight, KeptReference;
    if check.Accepted? {
      TargetRowIsFresh(site, |d.plan|, targets[k], check);
    }
    var e := TargetStep(q, site, d, targets[k], check).value;
    if |e.failures| > |d.failures| {
      assert KeepsReference(targets, e.failures[|d.failures|]);
    }
  }

  /** A retry plan accounts for every target exactly once, and its failures keep the archive references. */
  lemma {:induction false} TargetDraftSound(q: Queue, site: Site, targets: seq<RetryFile>, checks: seq<TargetCheck>,
                                            n: nat)
    requires n <= |targets| == |checks| && TargetDraft(q, site, targets, checks, n).Some?
    requires Distinct(TargetPaths(targets))
    ensures var d := TargetDraft(q, site, targets, checks, n).value;
            && WellFormedDraft(q, site, d) && PathsFrom(d, TargetPaths(targets), n)
            && |d.plan| + |d.failures| == n
            && (forall i :: 0 <= i < |d.failures| ==> KeepsReference(targets, d.failures[i]))
  {
    hide WellFormedDraft, PathsFrom, KeepsReference, TargetStep, DraftGrows;
    if n == 0 {
      EmptyDraftSound(q, site, TargetPaths(targets));
    } else {
      TargetDraftSound(q, site, targets, checks, n - 1);
      var d := TargetDraft(q, site, targets, checks, n - 1).value;
      TargetStepGrows(q, site, d, targets, n - 1, checks[n - 1]);
      GrowthSound(q, site, d, TargetDraft(q, site, targets, checks, n).value, TargetPaths(targets), n - 1);
    }
  }
}
