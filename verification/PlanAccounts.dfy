/** What becomes of every listed file and of every retry target: planned, listed as failed, or passed over, and why. */
module PlanAccounts {
  import opened Messages
  import opened ArchivePaths
  import opened QueueModel
  import opened Planning

  /** A new row of the plan, field by field. */
  predicate IsNewRow(site: Site, row: FileRow, ordinal: int, path: string, name: string, m: Metadata, fingerprint: string,
                  input: string)
  {
    && row.ordinal == ordinal && row.sourcePath == path && row.originalName == name && row.sourceMtime == m.sourceMtime
    && row.sizeBytes == m.sizeBytes && row.fileHash == m.fileHash && row.fingerprint == fingerprint && row.inputPath == input
    && ordinal >= 0 && row.archivePath == PlanArchivePath(site.workDir, site.taskId, site.runId, ordinal + 1, name)
    && !row.archived && row.rawFileId == "" && !row.parsedClean && row.errorDetail == ""
  }

  // ---- directories ----

  /** The file can be read, and is neither processed nor in the plan of a pending job. */
  ghost predicate IsFree(q: Queue, taskId: string, item: Listing) {
    item.inspection.Readable? && !Occupied(q, taskId, TaskFingerprint(taskId, item.localPath, item.inspection.metadata))
  }

  function UnreadableAmong(items: seq<Listing>, n: nat): nat
    requires n <= |items|
  {
    if n == 0 then 0 else UnreadableAmong(items, n - 1) + (if items[n - 1].inspection.Unreadable? then 1 else 0)
  }

  ghost function FreeAmong(q: Queue, taskId: string, items: seq<Listing>, n: nat): nat
    requires n <= |items|
  {
    if n == 0 then 0 else FreeAmong(q, taskId, items, n - 1) + (if IsFree(q, taskId, items[n - 1]) then 1 else 0)
  }

  /** How many of the first n listings want a place in the draft. */
  ghost function PlacesAmong(q: Queue, taskId: string, items: seq<Listing>, n: nat): nat
    requires n <= |items|
  {
    UnreadableAmong(items, n) + FreeAmong(q, taskId, items, n)
  }

  /** The first c of n listings are looked at: the others come when the limit has been reached, and no earlier. */
  ghost predicate Reaches(q: Queue, taskId: string, limit: nat, items: seq<Listing>, n: nat, c: nat)
    requires n <= |items|
  {
    && c <= n && (forall k :: 0 <= k < c ==> PlacesAmong(q, taskId, items, k) < limit)
    && (c == n || PlacesAmong(q, taskId, items, c) == limit)
  }

  /** Every listing that is looked at has its place: an unreadable one in the list of failures, with its message, and a free
      one in the plan, with what was read of it; each in the order of the listing. There is nothing else in the draft. */
  ghost predicate AccountsFor(q: Queue, site: Site, items: seq<Listing>, c: nat, d: Draft)
    requires c <= |items|
  {
    && |d.failures| == UnreadableAmong(items, c) && |d.plan| == FreeAmong(q, site.taskId, items, c)
    && (forall k :: 0 <= k < c && items[k].inspection.Unreadable? ==> ListsUnreadable(d, UnreadableAmong(items, k), items[k]))
    && (forall k :: 0 <= k < c && IsFree(q, site.taskId, items[k]) ==>
          PlansListing(site, d, FreeAmong(q, site.taskId, items, k), items[k]))
  }

  predicate ListsUnreadable(d: Draft, at: nat, item: Listing)
    requires item.inspection.Unreadable?
  {
    at < |d.failures| && d.failures[at] == FailedFile(item.localPath, item.originalName, "read", item.inspection.message, "")
  }

  predicate PlansListing(site: Site, d: Draft, at: nat, item: Listing) {
    && at < |d.plan| && item.inspection.Readable?
    && IsNewRow(site, d.plan[at], at, item.localPath, item.originalName, item.inspection.metadata,
             TaskFingerprint(site.taskId, item.localPath, item.inspection.metadata), "")
  }

  /** The draft that is one listing further, while there is room. */
  lemma AccountsForNext(q: Queue, site: Site, limit: nat, items: seq<Listing>, n: nat, d: Draft)
    requires n < |items| && AccountsFor(q, site, items, n, d) && |d.plan| + |d.failures| < limit
    requires DirectoryStep(q, site, limit, d, items[n]).Some?
    ensures AccountsFor(q, site, items, n + 1, DirectoryStep(q, site, limit, d, items[n]).value)
  {
    hide Occupied, TaskFingerprint, PlanArchivePath, PlanAllowed;
    var e := DirectoryStep(q, site, limit, d, items[n]).value;
    assert d.failures <= e.failures && d.plan <= e.plan;
    forall k | 0 <= k < n + 1 && items[k].inspection.Unreadable?
      ensures ListsUnreadable(e, UnreadableAmong(items, k), items[k])
    {
      if k < n {
        assert ListsUnreadable(d, UnreadableAmong(items, k), items[k]);
      }
    }
    forall k | 0 <= k < n + 1 && IsFree(q, site.taskId, items[k])
      ensures PlansListing(site, e, FreeAmong(q, site.taskId, items, k), items[k])
    {
      if k < n {
        assert PlansListing(site, d, FreeAmong(q, site.taskId, items, k), items[k]);
      }
    }
  }

  /** A directory draft accounts for every listing it reaches, and stops short of one only because of the limit. */
  lemma {:induction false} DirectoryAccounts(q: Queue, site: Site, limit: nat, items: seq<Listing>, n: nat) returns (c: nat)
    requires n <= |items| && DirectoryDraft(q, site, limit, items, n).Some?
    ensures Reaches(q, site.taskId, limit, items, n, c)
    ensures AccountsFor(q, site, items, c, DirectoryDraft(q, site, limit, items, n).value)
  {
    hide AccountsFor, IsFree;
    if n == 0 {
      c := 0;
      NothingListed(q, site, items);
    } else {
      c := DirectoryAccounts(q, site, limit, items, n - 1);
      var d := DirectoryDraft(q, site, limit, items, n - 1).value;
      DraftSize(q, site, items, c, d);
      if c == n - 1 && PlacesAmong(q, site.taskId, items, c) < limit {
        AccountsForNext(q, site, limit, items, n - 1, d);
        OnePlaceMore(q, site.taskId, items, n - 1);
        c := n;
      } else {
        assert PlacesAmong(q, site.taskId, items, c) >= limit;
        ExactlyFull(q, site.taskId, limit, items, n - 1, c);
        FullStep(q, site, limit, d, items[n - 1]);
      }
    }
  }

  lemma NothingListed(q: Queue, site: Site, items: seq<Listing>)
    ensures AccountsFor(q, site, items, 0, Draft([], []))
  {
  }

  lemma DraftSize(q: Queue, site: Site, items: seq<Listing>, c: nat, d: Draft)
    requires c <= |items| && AccountsFor(q, site, items, c, d)
    ensures |d.plan| + |d.failures| == PlacesAmong(q, site.taskId, items, c)
  {
  }

  lemma OnePlaceMore(q: Queue, taskId: string, items: seq<Listing>, n: nat)
    requires n < |items|
    ensures PlacesAmong(q, taskId, items, n) <= PlacesAmong(q, taskId, items, n + 1) <= PlacesAmong(q, taskId, items, n) + 1
  {
  }

  lemma ExactlyFull(q: Queue, taskId: string, limit: nat, items: seq<Listing>, n: nat, c: nat)
    requires n <= |items| && Reaches(q, taskId, limit, items, n, c) && PlacesAmong(q, taskId, items, c) >= limit
    ensures PlacesAmong(q, taskId, items, c) == limit
  {
    if c > 0 {
      OnePlaceMore(q, taskId, items, c - 1);
    }
  }

  lemma FullStep(q: Queue, site: Site, limit: nat, d: Draft, item: Listing)
    requires |d.plan| + |d.failures| >= limit
    ensures DirectoryStep(q, site, limit, d, item) == Some(d)
  {
  }

  /** There is a draft unless a free listing is reached and the ids of task and run cannot stand in a path. */
  lemma {:induction false} DirectoryDraftedIff(q: Queue, site: Site, limit: nat, items: seq<Listing>, n: nat, c: nat)
    requires n <= |items| && Reaches(q, site.taskId, limit, items, n, c)
    ensures DirectoryDraft(q, site, limit, items, n).Some?
            <==> FreeAmong(q, site.taskId, items, c) == 0 || PlanAllowed(site.taskId, site.runId, 1)
  {
    hide IsFree, AccountsFor, PlanAllowed;
    if n > 0 {
      if c == n {
        DirectoryDraftedIff(q, site, limit, items, n - 1, n - 1);
        if DirectoryDraft(q, site, limit, items, n - 1).Some? {
          var b := DirectoryAccounts(q, site, limit, items, n - 1);
          var d := DirectoryDraft(q, site, limit, items, n - 1).value;
          SameReach(q, site.taskId, limit, items, n - 1, b, n - 1);
          DraftSize(q, site, items, n - 1, d);
          StepDraftedIff(q, site, limit, d, items[n - 1]);
        }
      } else {
        DirectoryDraftedIff(q, site, limit, items, n - 1, c);
        if DirectoryDraft(q, site, limit, items, n - 1).Some? {
          var b := DirectoryAccounts(q, site, limit, items, n - 1);
          var d := DirectoryDraft(q, site, limit, items, n - 1).value;
          SameReach(q, site.taskId, limit, items, n - 1, b, c);
          DraftSize(q, site, items, c, d);
          FullStep(q, site, limit, d, items[n - 1]);
        }
      }
    }
  }

  lemma SameReach(q: Queue, taskId: string, limit: nat, items: seq<Listing>, n: nat, b: nat, c: nat)
    requires n <= |items| && Reaches(q, taskId, limit, items, n, b) && Reaches(q, taskId, limit, items, n, c)
    ensures b == c
  {
  }

  lemma StepDraftedIff(q: Queue, site: Site, limit: nat, d: Draft, item: Listing)
    requires |d.plan| + |d.failures| < limit
    ensures DirectoryStep(q, site, limit, d, item).Some?
            <==> !IsFree(q, site.taskId, item) || PlanAllowed(site.taskId, site.runId, 1)
  {
    hide Occupied, TaskFingerprint;
  }

  // ---- fixed targets ----

  /** The identity of what a target reads: the path it was first collected from, or the path it leads to today. */
  function IdentityPath(target: RetryFile, check: TargetCheck): string
    requires check.Accepted?
  {
    if target.inputType.ArchiveInput? then target.sourcePath else check.readPath
  }

  function IdentityMetadata(target: RetryFile, check: TargetCheck): Metadata
    requires check.Accepted?
  {
    if target.inputType.ArchiveInput? then Metadata(target.sizeBytes, target.sourceMtime, target.fileHash) else check.metadata
  }

  function IdentityOf(taskId: string, target: RetryFile, check: TargetCheck): string
    requires check.Accepted?
  {
    TaskFingerprint(taskId, IdentityPath(target, check), IdentityMetadata(target, check))
  }

  /** The target is read: its check accepts it, and no pending job has the file. */
  ghost predicate IsRead(q: Queue, taskId: string, target: RetryFile, check: TargetCheck) {
    check.Accepted? && !InFlight(q, taskId, IdentityOf(taskId, target, check))
  }

  /** The row that reads the target: the recorded archive of an archive target, and what the check found of a source. */
  predicate ReadsTarget(site: Site, row: FileRow, ordinal: int, target: RetryFile, check: TargetCheck) {
    && check.Accepted?
    && IsNewRow(site, row, ordinal, target.sourcePath, target.originalName, IdentityMetadata(target, check),
             IdentityOf(site.taskId, target, check),
             if target.inputType.ArchiveInput? then target.storagePath else check.readPath)
  }

  ghost function ReadCount(q: Queue, taskId: string, targets: seq<RetryFile>, checks: seq<TargetCheck>, n: nat): (r: nat)
    requires n <= |targets| == |checks|
    ensures r <= n
  {
    if n == 0 then 0
    else ReadCount(q, taskId, targets, checks, n - 1) + (if IsRead(q, taskId, targets[n - 1], checks[n - 1]) then 1 else 0)
  }

  /** Why the target is not read, and the archive it still refers to. */
  predicate MissesTarget(f: FailedFile, target: RetryFile, check: TargetCheck) {
    && f.sourcePath == target.sourcePath && f.originalName == target.originalName
    && f.archiveRef == (if target.inputType.ArchiveInput? then target.archiveRef else "")
    && (check.Rejected? ==>
          f.message == check.message && f.stage == (if target.inputType.ArchiveInput? then "archive" else "read"))
    && (check.Accepted? ==> f.stage == "read" && f.message == "file is in flight by another pending job")
  }

  predicate MissedAt(d: Draft, at: int, target: RetryFile, check: TargetCheck) {
    0 <= at < |d.failures| && MissesTarget(d.failures[at], target, check)
  }

  predicate ReadAt(site: Site, d: Draft, at: int, target: RetryFile, check: TargetCheck) {
    0 <= at < |d.plan| && ReadsTarget(site, d.plan[at], at, target, check)
  }

  /** Every target has its place: in the plan if it is accepted and free, in the list of failures if not; each in order. */
  ghost predicate AccountsForTargets(q: Queue, site: Site, targets: seq<RetryFile>, checks: seq<TargetCheck>, n: nat, d: Draft)
    requires n <= |targets| == |checks|
  {
    && |d.plan| == ReadCount(q, site.taskId, targets, checks, n) && |d.failures| == n - |d.plan|
    && forall k :: 0 <= k < n ==>
         if IsRead(q, site.taskId, targets[k], checks[k])
         then ReadAt(site, d, ReadCount(q, site.taskId, targets, checks, k), targets[k], checks[k])
         else MissedAt(d, k - ReadCount(q, site.taskId, targets, checks, k), targets[k], checks[k])
  }

  lemma TargetTaken(q: Queue, site: Site, d: Draft, target: RetryFile, check: TargetCheck)
    requires TargetStep(q, site, d, target, check).Some?
    ensures var e := TargetStep(q, site, d, target, check).value;
            && d.plan <= e.plan && d.failures <= e.failures
            && if IsRead(q, site.taskId, target, check)
               then |e.plan| == |d.plan| + 1 && e.failures == d.failures && ReadAt(site, e, |d.plan|, target, check)
               else |e.failures| == |d.failures| + 1 && e.plan == d.plan && MissedAt(e, |d.failures|, target, check)
  {
    hide InFlight, TaskFingerprint, PlanArchivePath, PlanAllowed;
  }

  lemma PlaceStays(site: Site, d: Draft, e: Draft, at: int, target: RetryFile, check: TargetCheck)
    requires d.plan <= e.plan && d.failures <= e.failures
    ensures ReadAt(site, d, at, target, check) ==> ReadAt(site, e, at, target, check)
    ensures MissedAt(d, at, target, check) ==> MissedAt(e, at, target, check)
  {
    hide ReadsTarget, MissesTarget;
  }

  /** A retry draft accounts for every target. */
  lemma {:induction false} TargetAccounts(q: Queue, site: Site, targets: seq<RetryFile>, checks: seq<TargetCheck>, n: nat)
    requires n <= |targets| == |checks| && TargetDraft(q, site, targets, checks, n).Some?
    ensures AccountsForTargets(q, site, targets, checks, n, TargetDraft(q, site, targets, checks, n).value)
  {
    hide IsRead, ReadAt, MissedAt, TargetStep;
    if n > 0 {
      TargetAccounts(q, site, targets, checks, n - 1);
      var d := TargetDraft(q, site, targets, checks, n - 1).value;
      TargetTaken(q, site, d, targets[n - 1], checks[n - 1]);
      var e := TargetDraft(q, site, targets, checks, n).value;
      forall k | 0 <= k < n
        ensures if IsRead(q, site.taskId, targets[k], checks[k])
                then ReadAt(site, e, ReadCount(q, site.taskId, targets, checks, k), targets[k], checks[k])
                else MissedAt(e, k - ReadCount(q, site.taskId, targets, checks, k), targets[k], checks[k])
      {
        if k < n - 1 {
          PlaceStays(site, d, e, ReadCount(q, site.taskId, targets, checks, k), targets[k], checks[k]);
          PlaceStays(site, d, e, k - ReadCount(q, site.taskId, targets, checks, k), targets[k], checks[k]);
        }
      }
    }
  }
}
