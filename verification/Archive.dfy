/**
 Archiving against power loss. A file system has what programs see and what is on stable storage; the kernel may write
 back any name or any unsynchronized content at any time, and a crash leaves only what is stable.
 */
module Archive {
  import opened Messages
  import opened Decimals
  import opened ArchivePaths

  /** Path segments from the root. */
  type Path = seq<string>

  datatype Node = Directory | File(inode: nat)

  /** names and contents are what programs see; stable and storedBytes survive a power loss. */
  datatype Fs = Fs(names: map<Path, Node>, stable: map<Path, Node>, contents: map<nat, string>, storedBytes: map<nat, string>)

  // ---- operations ----

  predicate SameEntry(a: map<Path, Node>, b: map<Path, Node>, path: Path) {
    (path in a <==> path in b) && (path in a && path in b ==> a[path] == b[path])
  }

  predicate NameWrittenBack(f: Fs, g: Fs, path: Path) {
    SameEntry(g.stable, f.stable, path) || SameEntry(g.stable, f.names, path)
  }

  /** What the kernel may do on its own: any name reaches stable storage or not; content that is not in step with stable
      storage may reach it in any state. */
  ghost predicate WrittenBack(f: Fs, g: Fs) {
    && g.names == f.names && g.contents == f.contents
    && (forall path :: NameWrittenBack(f, g, path))
    && (forall i :: i in f.storedBytes && i in f.contents && f.storedBytes[i] == f.contents[i] ==>
          i in g.storedBytes && g.storedBytes[i] == f.storedBytes[i])
    && (forall i :: i in g.storedBytes ==> i in f.storedBytes || i in f.contents)
  }

  predicate Backed(f: Fs, node: Node) { node.File? ==> node.inode in f.contents }

  /** Every name of a file has content behind it, and every inode in use is below the limit, so the limit itself is free. */
  ghost predicate Bounded(f: Fs, limit: nat) {
    && (forall p :: p in f.names ==> Backed(f, f.names[p])) && (forall p :: p in f.stable ==> Backed(f, f.stable[p]))
    && (forall i :: i in f.contents ==> i < limit) && forall i :: i in f.storedBytes ==> i in f.contents
  }

  function MakeDirectory(f: Fs, path: Path): Fs { f.(names := f.names[path := Directory]) }

  function Create(f: Fs, path: Path, inode: nat): Fs {
    f.(names := f.names[path := File(inode)], contents := f.contents[inode := ""])
  }

  function Append(f: Fs, inode: nat, byte: char): Fs
    requires inode in f.contents
  {
    f.(contents := f.contents[inode := f.contents[inode] + [byte]])
  }

  function SyncFile(f: Fs, inode: nat): Fs
    requires inode in f.contents
  {
    f.(storedBytes := f.storedBytes[inode := f.contents[inode]])
  }

  predicate ChildOf(path: Path, directory: Path) { |path| == |directory| + 1 && path[..|directory|] == directory }

  /** The entries of one directory become stable as they are now, removals included. */
  function SyncDirectory(f: Fs, directory: Path): Fs {
    f.(stable := (map p | p in f.stable && !ChildOf(p, directory) :: f.stable[p])
                 + (map p | p in f.names && ChildOf(p, directory) :: f.names[p]))
  }

  function Rename(f: Fs, from: Path, to: Path): Fs
    requires from in f.names
  {
    f.(names := (f.names - {from})[to := f.names[from]])
  }

  function Remove(f: Fs, path: Path): Fs { f.(names := f.names - {path}) }

  /** A name is reachable after a crash when it and all the directories that lead to it are stable. */
  predicate Reachable(f: Fs, path: Path) { forall n :: 0 < n <= |path| ==> path[..n] in f.stable }

  /** Content that never reached stable storage is lost; its file is empty. */
  function PowerLoss(f: Fs): Fs {
    var names := map p | p in f.stable && Reachable(f, p) :: f.stable[p];
    var contents := map i | i in f.contents :: if i in f.storedBytes then f.storedBytes[i] else "";
    Fs(names, names, contents, contents)
  }

  // ---- what must hold at every moment ----

  predicate Full(f: Fs, node: Node, bytes: string) {
    && node.File? && node.inode in f.contents && f.contents[node.inode] == bytes
    && node.inode in f.storedBytes && f.storedBytes[node.inode] == bytes
  }

  /** Wherever the archive name is, in memory or on stable storage, the full bytes are behind it. */
  predicate Safe(f: Fs, archive: Path, bytes: string) {
    && (archive in f.names ==> Full(f, f.names[archive], bytes))
    && (archive in f.stable ==> Full(f, f.stable[archive], bytes))
  }

  /** The archive is on stable storage, with every directory that leads to it. */
  predicate Stored(f: Fs, archive: Path, bytes: string) {
    Reachable(f, archive) && archive in f.stable && Full(f, f.stable[archive], bytes)
  }

  /** The entry of the path is stable as it is visible. */
  predicate Settled(f: Fs, path: Path) { path in f.names && path in f.stable && f.stable[path] == f.names[path] }

  /** Stored means: stable with its whole directory chain, and visible, with the full bytes. */
  ghost predicate Secured(f: Fs, archive: Path, bytes: string) {
    && Stored(f, archive, bytes) && forall n :: 0 < n <= |archive| ==> Settled(f, archive[..n])
  }

  /** A name for temporary files of the archive: the archive's own, with more behind it. */
  predicate TempOf(path: Path, archive: Path) {
    && |path| == |archive| > 0 && path[..|path| - 1] == archive[..|archive| - 1]
    && archive[|archive| - 1] + ".tmp-" <= path[|path| - 1]
  }

  /** Neither the path nor a directory on the way to it has a name for temporary files of the archive. */
  predicate Avoids(other: Path, archive: Path) { other != [] && forall n :: 0 < n <= |other| ==> !TempOf(other[..n], archive) }

  /** Whatever was on stable storage under another name still is, with every directory that leads to it. */
  ghost predicate OthersStay(f: Fs, g: Fs, archive: Path) {
    forall other, content :: Avoids(other, archive) && Secured(f, other, content) ==> Secured(g, other, content)
  }

  /** If it was safe at the start, it is safe now, and nothing else was touched. */
  ghost predicate Kept(start: Fs, f: Fs, archive: Path, bytes: string) {
    (Safe(start, archive, bytes) ==> Safe(f, archive, bytes)) && OthersStay(start, f, archive)
  }

  /** The history went on; and if it was safe at the start, every moment since was safe; and no moment touched anything else. */
  ghost predicate KeptSince(start: Fs, was: seq<Fs>, now: seq<Fs>, archive: Path, bytes: string) {
    && was <= now
    && (Safe(start, archive, bytes) ==> forall i :: |was| <= i < |now| ==> Safe(now[i], archive, bytes))
    && forall i :: |was| <= i < |now| ==> OthersStay(start, now[i], archive)
  }

  lemma WriteBackKeepsSecured(f: Fs, g: Fs, other: Path, content: string)
    requires Secured(f, other, content) && WrittenBack(f, g) && other != []
    ensures Secured(g, other, content)
  {
    forall n | 0 < n <= |other| ensures Settled(g, other[..n]) && g.stable[other[..n]] == f.stable[other[..n]] {
      assert Settled(f, other[..n]) && NameWrittenBack(f, g, other[..n]);
    }
    assert other[..|other|] == other;
  }

  lemma PowerLossKeepsSecured(f: Fs, other: Path, content: string)
    requires Secured(f, other, content) && other != []
    ensures Secured(PowerLoss(f), other, content)
  {
    var g := PowerLoss(f);
    forall n | 0 < n <= |other| ensures Settled(g, other[..n]) && g.stable[other[..n]] == f.stable[other[..n]] {
      assert Settled(f, other[..n]);
      assert forall m :: 0 < m <= n ==> other[..n][..m] == other[..m];
    }
    assert other[..|other|] == other;
  }

  lemma SecuredIsNamed(f: Fs, other: Path, content: string, n: nat)
    requires Secured(f, other, content) && 0 < n <= |other|
    ensures other[..n] in f.names && other[..n] in f.stable && f.stable[other[..n]] == f.names[other[..n]]
  {
    assert Settled(f, other[..n]);
  }

  /** What is secured depends on the names on the way, and on the content of one inode. */
  lemma SecuredFrame(f: Fs, g: Fs, other: Path, content: string)
    requires Secured(f, other, content) && other != []
    requires forall n :: 0 < n <= |other| ==>
               && other[..n] in g.names && other[..n] in g.stable
               && g.names[other[..n]] == f.names[other[..n]] && g.stable[other[..n]] == f.stable[other[..n]]
    requires other in f.stable && Full(g, f.stable[other], content)
    ensures Secured(g, other, content)
  {
    assert other[..|other|] == other;
    forall n | 0 < n <= |other| ensures Settled(g, other[..n]) {
      SecuredIsNamed(f, other, content, n);
    }
  }

  lemma SecuredIsFull(f: Fs, other: Path, content: string)
    requires Secured(f, other, content)
    ensures other in f.stable && Full(f, f.stable[other], content)
  {
  }

  lemma WriteBackKeepsSafe(f: Fs, g: Fs, archive: Path, bytes: string)
    requires Safe(f, archive, bytes) && WrittenBack(f, g)
    ensures Safe(g, archive, bytes)
  {
    assert NameWrittenBack(f, g, archive);
  }

  lemma WriteBackKeepsOthers(f: Fs, g: Fs, archive: Path)
    requires WrittenBack(f, g)
    ensures OthersStay(f, g, archive)
  {
    hide WrittenBack, Secured, Avoids;
    forall other, content | Avoids(other, archive) && Secured(f, other, content) ensures Secured(g, other, content) {
      AvoidsIsPath(other, archive);
      WriteBackKeepsSecured(f, g, other, content);
    }
  }

  lemma AvoidsIsPath(other: Path, archive: Path)
    requires Avoids(other, archive)
    ensures other != []
  {
  }

  /** A power loss at any safe moment leaves a safe state: no archive name without its full bytes. */
  lemma PowerLossKeepsSafe(f: Fs, archive: Path, bytes: string)
    requires Safe(f, archive, bytes)
    ensures Safe(PowerLoss(f), archive, bytes)
  {
  }

  /** Once stored, the archive outlives a power loss, name and bytes, through anything the kernel does before it. */
  lemma StoredSurvivesPowerLoss(f: Fs, g: Fs, archive: Path, bytes: string)
    requires Secured(f, archive, bytes) && archive != [] && WrittenBack(f, g)
    ensures archive in PowerLoss(g).names && Full(PowerLoss(g), PowerLoss(g).names[archive], bytes)
  {
    forall n | 0 < n <= |archive| ensures archive[..n] in g.stable && g.stable[archive[..n]] == f.stable[archive[..n]] {
      assert Settled(f, archive[..n]) && NameWrittenBack(f, g, archive[..n]);
    }
    assert archive[..|archive|] == archive;
  }

  // ---- a file system at work ----

  /** Whatever the kernel does, it only writes back. */
  ghost predicate Lawful(kernel: (nat, Fs) -> Fs) { forall k, f :: WrittenBack(f, kernel(k, f)) }

  /** Some operation in the interval failed. */
  ghost predicate FaultIn(faulty: nat -> bool, from: nat, to: nat) { exists k: nat :: from <= k < to && faulty(k) }

  lemma FaultWithin(faulty: nat -> bool, from: nat, a: nat, b: nat, to: nat)
    requires from <= a && b <= to
    ensures FaultIn(faulty, a, b) ==> FaultIn(faulty, from, to)
  {
  }

  /** kernel says what happens before each operation, and faulty which operations fail; both are arbitrary. */
  class FileSystem {
    const kernel: (nat, Fs) -> Fs
    const faulty: nat -> bool
    var fs: Fs
    var clock: nat
    var nextInode: nat
    /** Every state the file system was ever in, the present one last. */
    ghost var history: seq<Fs>

    ghost predicate Valid()
      reads this
    {
      && Lawful(kernel) && history != [] && history[|history| - 1] == fs && Bounded(fs, nextInode)
      && forall k :: 0 <= k < |history| ==> Bounded(history[k], nextInode)
    }

    constructor (initial: Fs, nextInode: nat, kernel: (nat, Fs) -> Fs, faulty: nat -> bool)
      requires Lawful(kernel) && Bounded(initial, nextInode)
      ensures Valid() && fs == initial && history == [initial]
    {
      this.kernel := kernel;
      this.faulty := faulty;
      fs := initial;
      this.nextInode := nextInode;
      clock := 0;
      history := [initial];
    }

    /** Time passes: the kernel acts, and the next operation may fail before it does anything. */
    method Tick() returns (ok: bool)
      requires Valid()
      modifies this
      ensures Valid() && WrittenBack(old(fs), fs) && history == old(history) + [fs] && nextInode == old(nextInode)
      ensures clock == old(clock) + 1 && (!ok ==> FaultIn(faulty, old(clock), clock))
    {
      WriteBackKeepsBounded(fs, kernel(clock, fs), nextInode);
      fs := kernel(clock, fs);
      history := history + [fs];
      ok := !faulty(clock);
      clock := clock + 1;
    }

    method Become(next: Fs)
      requires Valid() && Bounded(next, nextInode)
      modifies this`fs, this`history
      ensures Valid() && fs == next && history == old(history) + [next]
    {
      fs := next;
      history := history + [next];
    }

    /** Creates an empty file under an inode of its own. */
    method BecomeCreated(path: Path) returns (inode: nat)
      requires Valid()
      modifies this`fs, this`history, this`nextInode
      ensures Unused(old(fs), inode)
      ensures Valid() && fs == Create(old(fs), path, inode) && history == old(history) + [fs]
    {
      inode := nextInode;
      nextInode := nextInode + 1;
      fs := Create(fs, path, inode);
      history := history + [fs];
    }
  }

  lemma WriteBackKeepsBounded(f: Fs, g: Fs, limit: nat)
    requires Bounded(f, limit) && WrittenBack(f, g)
    ensures Bounded(g, limit)
  {
    forall p | p in g.stable ensures Backed(g, g.stable[p]) {
      assert NameWrittenBack(f, g, p);
    }
  }

  lemma OneMoment(start: Fs, was: seq<Fs>, now: seq<Fs>, next: Fs, archive: Path, bytes: string)
    requires KeptSince(start, was, now, archive, bytes) && Kept(start, next, archive, bytes)
    ensures KeptSince(start, was, now + [next], archive, bytes)
  {
  }

  lemma MomentsChain(start: Fs, a: seq<Fs>, mid: Fs, b: seq<Fs>, c: seq<Fs>, archive: Path, bytes: string)
    requires KeptSince(start, a, b, archive, bytes) && Kept(start, mid, archive, bytes) && KeptSince(mid, b, c, archive, bytes)
    ensures KeptSince(start, a, c, archive, bytes)
  {
  }

  // ---- directories ----

  /** Every prefix of the directory is visible as a directory. */
  ghost predicate HasDirectories(f: Fs, directory: Path, n: nat)
    requires n <= |directory|
  {
    forall m :: 0 < m <= n ==> directory[..m] in f.names && f.names[directory[..m]] == Directory
  }

  lemma MakeDirectoryKeeps(f: Fs, path: Path, archive: Path, bytes: string)
    requires path != archive && path !in f.names
    ensures Kept(f, MakeDirectory(f, path), archive, bytes)
    ensures forall limit :: Bounded(f, limit) ==> Bounded(MakeDirectory(f, path), limit)
  {
    hide Secured, Avoids, Bounded;
    BoundedDirectory(f, path);
    forall other, content | Avoids(other, archive) && Secured(f, other, content)
      ensures Secured(MakeDirectory(f, path), other, content)
    {
      NewNameIsElsewhere(f, MakeDirectory(f, path), path, other, archive, content);
    }
  }

  lemma BoundedDirectory(f: Fs, path: Path)
    ensures forall limit :: Bounded(f, limit) ==> Bounded(MakeDirectory(f, path), limit)
  {
  }

  /** A name that is new is not on the way to anything secured. */
  lemma NewNameIsElsewhere(f: Fs, g: Fs, path: Path, other: Path, archive: Path, content: string)
    requires Secured(f, other, content) && Avoids(other, archive) && path !in f.names
    requires (forall p :: p in f.names && p != path ==> p in g.names && g.names[p] == f.names[p]) && g.stable == f.stable
    requires forall i :: i in f.contents && i in f.storedBytes ==>
               i in g.contents && i in g.storedBytes && g.contents[i] == f.contents[i] && g.storedBytes[i] == f.storedBytes[i]
    ensures Secured(g, other, content)
  {
    hide Secured;
    forall n | 0 < n <= |other|
      ensures other[..n] in f.names && other[..n] in f.stable && other[..n] in g.names && other[..n] in g.stable
      ensures g.names[other[..n]] == f.names[other[..n]] && g.stable[other[..n]] == f.stable[other[..n]]
    {
      SecuredIsNamed(f, other, content, n);
    }
    SecuredIsFull(f, other, content);
    SecuredFrame(f, g, other, content);
  }

  /** A name on the way to the directory is there, and is not a directory. */
  ghost predicate Blocked(f: Fs, directory: Path) {
    exists n :: 0 < n <= |directory| && directory[..n] in f.names && f.names[directory[..n]] != Directory
  }

  /** Names are as they were, but for directories on the way that are new. */
  ghost predicate OnlyDirectoriesAdded(f: Fs, g: Fs, length: nat) {
    && (forall p :: p in f.names ==> p in g.names && g.names[p] == f.names[p])
    && forall p :: p in g.names ==> p in f.names || (|p| <= length && g.names[p] == Directory)
  }

  lemma NothingAdded(f: Fs)
    ensures OnlyDirectoriesAdded(f, f, 0)
  {
  }

  lemma SameAdded(start: Fs, f: Fs, g: Fs, n: nat)
    requires OnlyDirectoriesAdded(start, f, n) && g.names == f.names
    ensures forall length :: length >= n ==> OnlyDirectoriesAdded(start, g, length)
  {
  }

  lemma BlockedAt(start: Fs, f: Fs, directory: Path, n: nat)
    requires n < |directory| && OnlyDirectoriesAdded(start, f, n)
    requires directory[..n + 1] in f.names && f.names[directory[..n + 1]] != Directory
    ensures Blocked(start, directory)
  {
  }

  lemma NothingBlocked(start: Fs, f: Fs, directory: Path)
    requires OnlyDirectoriesAdded(start, f, |directory|) && HasDirectories(f, directory, |directory|)
    ensures !Blocked(start, directory)
  {
  }

  lemma OneDirectoryMore(start: Fs, f: Fs, g: Fs, directory: Path, archive: Path, n: nat)
    requires n < |directory| < |archive| && OnlyDirectoriesAdded(start, f, n) && g.names == f.names && HasDirectories(f, directory, n)
    requires directory[..n + 1] !in g.names
    ensures var h := MakeDirectory(g, directory[..n + 1]);
            && OnlyDirectoriesAdded(start, h, n + 1) && HasDirectories(h, directory, n + 1)
            && (archive in h.names <==> archive in g.names)
  {
    assert forall m :: 0 < m <= n ==> directory[..m] != directory[..n + 1];
  }

  /** Creates the missing directories from the top down. */
  method CreateDirectories(store: FileSystem, directory: Path, archive: Path, ghost bytes: string) returns (ok: bool)
    requires store.Valid() && |directory| < |archive|
    modifies store
    ensures store.Valid() && Kept(old(store.fs), store.fs, archive, bytes)
    ensures KeptSince(old(store.fs), old(store.history), store.history, archive, bytes)
    ensures ok ==> HasDirectories(store.fs, directory, |directory|)
    ensures archive in store.fs.names <==> archive in old(store.fs).names
    ensures OnlyDirectoriesAdded(old(store.fs), store.fs, |directory|) && old(store.clock) <= store.clock
    ensures !ok ==> FaultIn(store.faulty, old(store.clock), store.clock) || Blocked(old(store.fs), directory)
    ensures ok ==> !Blocked(old(store.fs), directory)
  {
    hide Safe, WrittenBack, FaultIn, Bounded, Blocked, OnlyDirectoriesAdded, MakeDirectory;
    ghost var start := store.fs;
    NothingAdded(start);
    for n := 0 to |directory|
      invariant store.Valid() && Kept(start, store.fs, archive, bytes)
      invariant KeptSince(start, old(store.history), store.history, archive, bytes)
      invariant HasDirectories(store.fs, directory, n)
      invariant archive in store.fs.names <==> archive in old(store.fs).names
      invariant OnlyDirectoriesAdded(start, store.fs, n) && old(store.clock) <= store.clock
    {
      ghost var time := store.clock;
      ghost var before, was := store.fs, store.history;
      var possible := store.Tick();
      AfterTick(before, store.fs, archive, bytes);
      OneMoment(start, old(store.history), was, store.fs, archive, bytes);
      SameAdded(start, before, store.fs, n);
      var path := directory[..n + 1];
      if path in store.fs.names {
        if store.fs.names[path] != Directory {
          BlockedAt(start, store.fs, directory, n);
          return false;
        }
        continue;
      }
      if !possible {
        FaultWithin(store.faulty, old(store.clock), time, store.clock, store.clock);
        return false;
      }
      ghost var ticked := store.history;
      MakeDirectoryKeeps(store.fs, path, archive, bytes);
      OneMoment(start, old(store.history), ticked, MakeDirectory(store.fs, path), archive, bytes);
      OneDirectoryMore(start, before, store.fs, directory, archive, n);
      store.Become(MakeDirectory(store.fs, path));
    }
    NothingBlocked(start, store.fs, directory);
    return true;
  }

  lemma AfterTick(f: Fs, g: Fs, archive: Path, bytes: string)
    requires WrittenBack(f, g)
    ensures Kept(f, g, archive, bytes) && g.names == f.names && g.contents == f.contents
    ensures forall i :: i in f.storedBytes && i in f.contents && f.storedBytes[i] == f.contents[i] ==>
                          i in g.storedBytes && g.storedBytes[i] == f.storedBytes[i]
  {
    hide OthersStay;
    WriteBackKeepsOthers(f, g, archive);
    if Safe(f, archive, bytes) {
      WriteBackKeepsSafe(f, g, archive, bytes);
    }
  }

  ghost predicate ChainSettled(f: Fs, archive: Path, from: nat) {
    forall m :: from < m <= |archive| ==> Settled(f, archive[..m])
  }

  lemma SettledStays(f: Fs, g: Fs, archive: Path, from: nat)
    requires ChainSettled(f, archive, from) && WrittenBack(f, g)
    ensures ChainSettled(g, archive, from)
  {
    forall m | from < m <= |archive| ensures Settled(g, archive[..m]) {
      assert NameWrittenBack(f, g, archive[..m]) && Settled(f, archive[..m]);
    }
  }

  lemma SyncSettles(f: Fs, archive: Path, n: nat, bytes: string)
    requires n < |archive| && ChainSettled(f, archive, n + 1) && archive[..n + 1] in f.names
    ensures ChainSettled(SyncDirectory(f, archive[..n]), archive, n)
    ensures Kept(f, SyncDirectory(f, archive[..n]), archive, bytes)
  {
    hide OthersStay;
    SyncKeepsOthers(f, archive[..n], archive);
    var g := SyncDirectory(f, archive[..n]);
    assert ChildOf(archive[..n + 1], archive[..n]) by {
      assert archive[..n + 1][..n] == archive[..n];
    }
    forall m | n < m <= |archive| ensures Settled(g, archive[..m]) {
      if m > n + 1 {
        assert Settled(f, archive[..m]);
      }
    }
  }

  lemma SyncKeepsOthers(f: Fs, directory: Path, archive: Path)
    ensures OthersStay(f, SyncDirectory(f, directory), archive)
  {
    hide Secured, Avoids;
    var g := SyncDirectory(f, directory);
    forall other, content | Avoids(other, archive) && Secured(f, other, content) ensures Secured(g, other, content) {
      forall n | 0 < n <= |other|
        ensures other[..n] in f.names && other[..n] in f.stable && other[..n] in g.names && other[..n] in g.stable
        ensures g.names[other[..n]] == f.names[other[..n]] && g.stable[other[..n]] == f.stable[other[..n]]
      {
        SecuredIsNamed(f, other, content, n);
      }
      AvoidsIsPath(other, archive);
      SecuredIsFull(f, other, content);
      SecuredFrame(f, g, other, content);
    }
  }

  /** Makes the entries of the archive's directory stable, and then of every directory up to the root. */
  method SyncDirectoryChain(store: FileSystem, archive: Path, ghost bytes: string) returns (ok: bool)
    requires store.Valid() && archive in store.fs.names && Full(store.fs, store.fs.names[archive], bytes)
    requires forall n :: 0 < n <= |archive| ==> archive[..n] in store.fs.names
    modifies store
    ensures store.Valid() && Kept(old(store.fs), store.fs, archive, bytes)
    ensures KeptSince(old(store.fs), old(store.history), store.history, archive, bytes)
    ensures store.fs.names == old(store.fs).names && Full(store.fs, store.fs.names[archive], bytes)
    ensures ok ==> ChainSettled(store.fs, archive, 0)
    ensures old(store.clock) <= store.clock && (!ok ==> FaultIn(store.faulty, old(store.clock), store.clock))
  {
    hide Safe, WrittenBack, ChainSettled, SyncDirectory, Full, Bounded, FaultIn;
    ghost var start := store.fs;
    var n := |archive|;
    NothingToSettle(store.fs, archive);
    while n > 0
      invariant 0 <= n <= |archive| && store.Valid() && Kept(start, store.fs, archive, bytes)
      invariant KeptSince(start, old(store.history), store.history, archive, bytes)
      invariant store.fs.names == start.names && Full(store.fs, store.fs.names[archive], bytes)
      invariant ChainSettled(store.fs, archive, n) && old(store.clock) <= store.clock
    {
      ghost var time := store.clock;
      ghost var before, was := store.fs, store.history;
      var possible := store.Tick();
      AfterTick(before, store.fs, archive, bytes);
      OneMoment(start, old(store.history), was, store.fs, archive, bytes);
      SettledStays(before, store.fs, archive, n);
      FullStays(before, store.fs, archive, bytes);
      if !possible {
        FaultWithin(store.faulty, old(store.clock), time, store.clock, store.clock);
        return false;
      }
      n := n - 1;
      ghost var ticked := store.history;
      SyncSettles(store.fs, archive, n, bytes);
      SyncKeepsNames(store.fs, archive[..n]);
      SyncKeepsFull(store.fs, archive[..n], archive, bytes);
      OneMoment(start, old(store.history), ticked, SyncDirectory(store.fs, archive[..n]), archive, bytes);
      store.Become(SyncDirectory(store.fs, archive[..n]));
    }
    return true;
  }

  lemma FullStays(f: Fs, g: Fs, archive: Path, bytes: string)
    requires WrittenBack(f, g) && archive in f.names && Full(f, f.names[archive], bytes)
    ensures g.names == f.names && Full(g, g.names[archive], bytes)
  {
  }

  lemma SyncKeepsFull(f: Fs, directory: Path, archive: Path, bytes: string)
    requires archive in f.names && Full(f, f.names[archive], bytes)
    ensures Full(SyncDirectory(f, directory), f.names[archive], bytes)
  {
  }

  lemma NothingToSettle(f: Fs, archive: Path)
    ensures ChainSettled(f, archive, |archive|)
  {
  }

  lemma SyncKeepsNames(f: Fs, directory: Path)
    ensures SyncDirectory(f, directory).names == f.names && SyncDirectory(f, directory).contents == f.contents
    ensures forall limit :: Bounded(f, limit) ==> Bounded(SyncDirectory(f, directory), limit)
  {
  }

  /** A settled chain over a full archive is a stored archive. */
  lemma SettledIsStored(f: Fs, archive: Path, bytes: string)
    requires archive != [] && archive in f.names && Full(f, f.names[archive], bytes) && ChainSettled(f, archive, 0)
    ensures Secured(f, archive, bytes)
  {
    assert Settled(f, archive[..|archive|]) && archive[..|archive|] == archive;
    forall n | 0 < n <= |archive| ensures archive[..n] in f.stable {
      assert Settled(f, archive[..n]);
    }
  }

  // ---- archiving ----

  datatype Outcome = Archived | ConflictError | OtherError

  datatype Evidence = Evidence(sizeBytes: int, fileHash: string)

  predicate Shows(e: Evidence, content: string) { |content| == e.sizeBytes && Sha256Hex(content) == e.fileHash }

  /** The evidence recorded for a file determines its bytes. */
  lemma EvidenceDetermines(e: Evidence, a: string, b: string)
    requires Shows(e, a) && Shows(e, b)
    ensures a == b
  {
    assert Sha256Hex(a)[1..] == a && Sha256Hex(b)[1..] == b;
  }

  ghost predicate Unused(f: Fs, inode: nat) {
    && inode !in f.contents && inode !in f.storedBytes
    && (forall p :: p in f.names ==> f.names[p] != File(inode)) && forall p :: p in f.stable ==> f.stable[p] != File(inode)
  }

  lemma CreateKeeps(f: Fs, path: Path, inode: nat, archive: Path, bytes: string)
    requires path != archive && Unused(f, inode) && path !in f.names
    ensures Kept(f, Create(f, path, inode), archive, bytes)
  {
    hide Secured, Avoids;
    forall other, content | Avoids(other, archive) && Secured(f, other, content)
      ensures Secured(Create(f, path, inode), other, content)
    {
      NewNameIsElsewhere(f, Create(f, path, inode), path, other, archive, content);
    }
  }

  /** Only temporary names of the archive are before the inode, so writing to it endangers nothing. */
  ghost predicate Apart(f: Fs, inode: nat, archive: Path) {
    && (forall p :: p in f.names && f.names[p] == File(inode) ==> TempOf(p, archive))
    && (forall p :: p in f.stable && f.stable[p] == File(inode) ==> TempOf(p, archive))
  }

  lemma ArchiveIsNoTemp(archive: Path)
    ensures !TempOf(archive, archive)
  {
  }

  lemma ApartFromOthers(f: Fs, inode: nat, archive: Path, other: Path, content: string)
    requires Apart(f, inode, archive) && Avoids(other, archive) && Secured(f, other, content)
    ensures other in f.stable && f.stable[other].File? && f.stable[other].inode != inode
  {
    assert other[..|other|] == other;
  }

  lemma AppendKeeps(f: Fs, inode: nat, byte: char, archive: Path, bytes: string)
    requires inode in f.contents && Apart(f, inode, archive)
    ensures Kept(f, Append(f, inode, byte), archive, bytes)
    ensures forall limit :: Bounded(f, limit) ==> Bounded(Append(f, inode, byte), limit)
  {
    hide Secured, Avoids;
    ArchiveIsNoTemp(archive);
    var g := Append(f, inode, byte);
    forall other, content | Avoids(other, archive) && Secured(f, other, content) ensures Secured(g, other, content) {
      ApartFromOthers(f, inode, archive, other, content);
      SameNamesKeep(f, g, other, content);
    }
  }

  /** Where no name changes, what is secured depends on its own content only. */
  lemma SameNamesKeep(f: Fs, g: Fs, other: Path, content: string)
    requires Secured(f, other, content) && g.names == f.names && g.stable == f.stable
    requires other in f.stable && Full(f, f.stable[other], content) ==> other in f.stable && Full(g, f.stable[other], content)
    ensures Secured(g, other, content)
  {
    forall n | 0 < n <= |other| ensures Settled(g, other[..n]) {
      assert Settled(f, other[..n]);
    }
  }

  lemma SyncFileKeeps(f: Fs, inode: nat, archive: Path, bytes: string)
    requires inode in f.contents && (Apart(f, inode, archive) || f.contents[inode] == bytes)
    ensures Kept(f, SyncFile(f, inode), archive, bytes)
    ensures forall limit :: Bounded(f, limit) ==> Bounded(SyncFile(f, inode), limit)
  {
    hide Secured, Avoids;
    ArchiveIsNoTemp(archive);
    var g := SyncFile(f, inode);
    forall other, content | Avoids(other, archive) && Secured(f, other, content) ensures Secured(g, other, content) {
      SecuredIsFull(f, other, content);
      SameNamesKeep(f, g, other, content);
    }
  }

  lemma RenameKeeps(f: Fs, temporary: Path, archive: Path, bytes: string)
    requires temporary in f.names && Full(f, f.names[temporary], bytes) && archive !in f.names && TempOf(temporary, archive)
    ensures Kept(f, Rename(f, temporary, archive), archive, bytes)
    ensures Full(Rename(f, temporary, archive), Rename(f, temporary, archive).names[archive], bytes)
    ensures forall limit :: Bounded(f, limit) ==> Bounded(Rename(f, temporary, archive), limit)
  {
    hide Secured;
    var g := Rename(f, temporary, archive);
    forall other, content | Avoids(other, archive) && Secured(f, other, content) ensures Secured(g, other, content) {
      TempIsElsewhere(f, g, temporary, other, archive, content);
    }
  }

  /** A temporary name is not on the way to anything that avoids it. */
  lemma TempIsElsewhere(f: Fs, g: Fs, temporary: Path, other: Path, archive: Path, content: string)
    requires Secured(f, other, content) && Avoids(other, archive) && TempOf(temporary, archive)
    requires (forall p :: p in f.names && p != temporary ==> p in g.names && g.names[p] == f.names[p]) && g.stable == f.stable
    requires g.contents == f.contents && g.storedBytes == f.storedBytes
    ensures Secured(g, other, content)
  {
    hide Secured;
    forall n | 0 < n <= |other|
      ensures other[..n] in f.names && other[..n] in f.stable && other[..n] in g.names && other[..n] in g.stable
      ensures g.names[other[..n]] == f.names[other[..n]] && g.stable[other[..n]] == f.stable[other[..n]]
    {
      SecuredIsNamed(f, other, content, n);
    }
    SecuredIsFull(f, other, content);
    SecuredFrame(f, g, other, content);
  }

  lemma RemoveKeeps(f: Fs, path: Path, archive: Path, bytes: string)
    requires TempOf(path, archive)
    ensures Kept(f, Remove(f, path), archive, bytes)
    ensures forall limit :: Bounded(f, limit) ==> Bounded(Remove(f, path), limit)
  {
    hide Secured;
    var g := Remove(f, path);
    forall other, content | Avoids(other, archive) && Secured(f, other, content) ensures Secured(g, other, content) {
      TempIsElsewhere(f, g, path, other, archive, content);
    }
  }

  lemma ApartStays(f: Fs, g: Fs, inode: nat, archive: Path)
    requires Apart(f, inode, archive) && WrittenBack(f, g)
    ensures Apart(g, inode, archive)
  {
    forall p | p in g.stable && g.stable[p] == File(inode) ensures TempOf(p, archive) {
      assert NameWrittenBack(f, g, p);
    }
  }

  /** The temporary file is visible, with the content so far, and is not the archive. */
  ghost predicate Copying(f: Fs, temporary: Path, inode: nat, archive: Path, directory: Path, content: string) {
    && temporary in f.names && f.names[temporary] == File(inode) && inode in f.contents && f.contents[inode] == content
    && Apart(f, inode, archive) && archive !in f.names && HasDirectories(f, directory, |directory|)
  }

  lemma CopyingStays(f: Fs, g: Fs, temporary: Path, inode: nat, archive: Path, directory: Path, content: string)
    requires Copying(f, temporary, inode, archive, directory, content) && WrittenBack(f, g)
    ensures Copying(g, temporary, inode, archive, directory, content)
  {
    hide HasDirectories, WrittenBack;
    ApartStays(f, g, inode, archive);
    TickKeepsView(f, g, directory);
  }

  lemma TickKeepsView(f: Fs, g: Fs, directory: Path)
    requires WrittenBack(f, g)
    ensures g.names == f.names && g.contents == f.contents
    ensures HasDirectories(f, directory, |directory|) ==> HasDirectories(g, directory, |directory|)
  {
  }

  lemma CopyingStarts(f: Fs, temporary: Path, inode: nat, archive: Path, directory: Path)
    requires HasDirectories(f, directory, |directory|) && Unused(f, inode) && archive !in f.names
    requires TempOf(temporary, archive)
    requires temporary !in f.names
    ensures Copying(Create(f, temporary, inode), temporary, inode, archive, directory, "")
  {
  }

  lemma CopyingGoesOn(f: Fs, temporary: Path, inode: nat, archive: Path, directory: Path, content: string, byte: char)
    requires Copying(f, temporary, inode, archive, directory, content)
    ensures Copying(Append(f, inode, byte), temporary, inode, archive, directory, content + [byte])
  {
  }

  /** Copies the input to a new temporary file byte by byte; a crash may come between any two. */
  method CopyFile(store: FileSystem, input: string, temporary: Path, archive: Path, ghost directory: Path,
                  ghost bytes: string)
    returns (ok: bool, inode: nat)
    requires store.Valid() && archive !in store.fs.names && TempOf(temporary, archive)
    requires HasDirectories(store.fs, directory, |directory|)
    modifies store
    ensures store.Valid() && Kept(old(store.fs), store.fs, archive, bytes)
    ensures KeptSince(old(store.fs), old(store.history), store.history, archive, bytes)
    ensures ok ==> Copying(store.fs, temporary, inode, archive, directory, input)
    ensures archive !in store.fs.names && old(store.clock) <= store.clock
    ensures !ok ==> FaultIn(store.faulty, old(store.clock), store.clock) || temporary in old(store.fs).names
    ensures ok ==> temporary !in old(store.fs).names
  {
    hide Safe, WrittenBack, Copying, HasDirectories, Create, Append, Unused, Bounded, FaultIn;
    ghost var start := store.fs;
    ghost var before, was := store.fs, store.history;
    var existed := temporary in store.fs.names;
    var possible := store.Tick();
    AfterTick(before, store.fs, archive, bytes);
    TickKeepsView(before, store.fs, directory);
    OneMoment(start, old(store.history), was, store.fs, archive, bytes);
    if !possible || existed {
      return false, 0;
    }
    ghost var ticked, view := store.history, store.fs;
    inode := store.BecomeCreated(temporary);
    CreateKeeps(view, temporary, inode, archive, bytes);
    CopyingStarts(view, temporary, inode, archive, directory);
    CopyingParts(store.fs, temporary, inode, archive, directory, "");
    OneMoment(start, old(store.history), ticked, store.fs, archive, bytes);
    for n := 0 to |input|
      invariant store.Valid() && Kept(start, store.fs, archive, bytes) && archive !in store.fs.names
      invariant KeptSince(start, old(store.history), store.history, archive, bytes)
      invariant Copying(store.fs, temporary, inode, archive, directory, input[..n]) && old(store.clock) <= store.clock
    {
      ghost var time := store.clock;
      before, was := store.fs, store.history;
      possible := store.Tick();
      AfterTick(before, store.fs, archive, bytes);
      OneMoment(start, old(store.history), was, store.fs, archive, bytes);
      CopyingStays(before, store.fs, temporary, inode, archive, directory, input[..n]);
      CopyingParts(store.fs, temporary, inode, archive, directory, input[..n]);
      if !possible {
        FaultWithin(store.faulty, old(store.clock), time, store.clock, store.clock);
        return false, inode;
      }
      ticked := store.history;
      AppendKeeps(store.fs, inode, input[n], archive, bytes);
      CopyingGoesOn(store.fs, temporary, inode, archive, directory, input[..n], input[n]);
      OneMoment(start, old(store.history), ticked, Append(store.fs, inode, input[n]), archive, bytes);
      assert input[..n + 1] == input[..n] + [input[n]];
      store.Become(Append(store.fs, inode, input[n]));
      CopyingParts(store.fs, temporary, inode, archive, directory, input[..n + 1]);
    }
    assert input[..|input|] == input;
    return true, inode;
  }

  lemma CopyingParts(f: Fs, temporary: Path, inode: nat, archive: Path, directory: Path, content: string)
    requires Copying(f, temporary, inode, archive, directory, content)
    ensures inode in f.contents && f.contents[inode] == content && Apart(f, inode, archive) && archive !in f.names
    ensures temporary in f.names && f.names[temporary] == File(inode)
  {
  }

  /** Synchronizes the content and gives it its final name, then makes the name and its directories stable. */
  method Publish(store: FileSystem, temporary: Path, inode: nat, archive: Path, ghost directory: Path,
                 ghost bytes: string)
    returns (ok: bool)
    requires store.Valid()
    requires |archive| == |directory| + 1 && archive == directory + [archive[|archive| - 1]] && TempOf(temporary, archive)
    requires Copying(store.fs, temporary, inode, archive, directory, bytes)
    modifies store
    ensures store.Valid() && Kept(old(store.fs), store.fs, archive, bytes)
    ensures KeptSince(old(store.fs), old(store.history), store.history, archive, bytes)
    ensures ok ==> Secured(store.fs, archive, bytes)
    ensures old(store.clock) <= store.clock && (!ok ==> FaultIn(store.faulty, old(store.clock), store.clock))
  {
    hide Safe, WrittenBack, Copying, HasDirectories, SyncFile, Rename, Bounded, ChainSettled, FaultIn;
    ghost var start := store.fs;
    ghost var before, was := store.fs, store.history;
    var possible := store.Tick();
    AfterTick(before, store.fs, archive, bytes);
    OneMoment(start, old(store.history), was, store.fs, archive, bytes);
    CopyingStays(before, store.fs, temporary, inode, archive, directory, bytes);
    CopyingParts(store.fs, temporary, inode, archive, directory, bytes);
    if !possible {
      return false;
    }
    ghost var ticked := store.history;
    SyncFileKeeps(store.fs, inode, archive, bytes);
    OneMoment(start, old(store.history), ticked, SyncFile(store.fs, inode), archive, bytes);
    SyncedCopy(store.fs, temporary, inode, archive, directory, bytes);
    store.Become(SyncFile(store.fs, inode));
    before, was := store.fs, store.history;
    ghost var time := store.clock;
    possible := store.Tick();
    AfterTick(before, store.fs, archive, bytes);
    OneMoment(start, old(store.history), was, store.fs, archive, bytes);
    CopyingStays(before, store.fs, temporary, inode, archive, directory, bytes);
    CopyingParts(store.fs, temporary, inode, archive, directory, bytes);
    if !possible {
      FaultWithin(store.faulty, old(store.clock), time, store.clock, store.clock);
      return false;
    }
    ticked := store.history;
    RenameKeeps(store.fs, temporary, archive, bytes);
    OneMoment(start, old(store.history), ticked, Rename(store.fs, temporary, archive), archive, bytes);
    RenamedChain(store.fs, temporary, inode, archive, directory, bytes);
    store.Become(Rename(store.fs, temporary, archive));
    assert archive[..|archive|] == archive;
    ghost var renamed, named := store.history, store.fs;
    time := store.clock;
    ok := SyncDirectoryChain(store, archive, bytes);
    FaultWithin(store.faulty, old(store.clock), time, store.clock, store.clock);
    MomentsChain(start, old(store.history), named, renamed, store.history, archive, bytes);
    if ok {
      SettledIsStored(store.fs, archive, bytes);
    }
  }

  lemma SyncedCopy(f: Fs, temporary: Path, inode: nat, archive: Path, directory: Path, bytes: string)
    requires Copying(f, temporary, inode, archive, directory, bytes)
    ensures var g := SyncFile(f, inode);
            Copying(g, temporary, inode, archive, directory, bytes) && inode in g.storedBytes && g.storedBytes[inode] == bytes
  {
  }

  /** Every directory on the way, and the archive itself, is visible once the file has its name. */
  lemma RenamedChain(f: Fs, temporary: Path, inode: nat, archive: Path, directory: Path, bytes: string)
    requires Copying(f, temporary, inode, archive, directory, bytes) && |archive| == |directory| + 1
    requires archive == directory + [archive[|archive| - 1]] && |temporary| == |archive|
    ensures forall n :: 0 < n <= |archive| ==> archive[..n] in Rename(f, temporary, archive).names
  {
    forall n | 0 < n <= |archive| ensures archive[..n] in Rename(f, temporary, archive).names {
      if n <= |directory| {
        assert archive[..n] == directory[..n];
      } else {
        assert archive[..n] == archive;
      }
    }
  }

  /** Removes the temporary file, if it can, and reports the failure. */
  method Abandon(store: FileSystem, temporary: Path, archive: Path, ghost bytes: string)
    requires store.Valid() && TempOf(temporary, archive)
    modifies store
    ensures old(store.clock) <= store.clock
    ensures store.Valid() && Kept(old(store.fs), store.fs, archive, bytes)
    ensures KeptSince(old(store.fs), old(store.history), store.history, archive, bytes)
  {
    hide Safe, WrittenBack, Remove, Bounded;
    ghost var start := store.fs;
    ghost var before, was := store.fs, store.history;
    var possible := store.Tick();
    AfterTick(before, store.fs, archive, bytes);
    OneMoment(start, old(store.history), was, store.fs, archive, bytes);
    if possible {
      ghost var ticked := store.history;
      RemoveKeeps(store.fs, temporary, archive, bytes);
      OneMoment(start, old(store.history), ticked, Remove(store.fs, temporary), archive, bytes);
      store.Become(Remove(store.fs, temporary));
    }
  }

  function ArchivePath(workDir: Path, taskId: string, runId: string, ordinal: nat, name: string): Path {
    workDir + ["archive", taskId, runId, ArchiveFilename(ordinal, name)]
  }

  function TemporaryName(archive: Path, sequence: nat): Path
    requires archive != []
  {
    archive[..|archive| - 1] + [archive[|archive| - 1] + ".tmp-" + Show(sequence)]
  }

  /** Something other than a directory is on the way to the archive, or an earlier attempt left the temporary name behind. */
  ghost predicate StandsInTheWay(f: Fs, archive: Path, sequence: nat) {
    archive != [] && (Blocked(f, archive[..|archive| - 1]) || TemporaryName(archive, sequence) in f.names)
  }

  lemma TemporaryIsOld(f: Fs, g: Fs, archive: Path, sequence: nat)
    requires archive != [] && OnlyDirectoriesAdded(f, g, |archive| - 1) && !Blocked(f, archive[..|archive| - 1])
    ensures TemporaryName(archive, sequence) in g.names <==> StandsInTheWay(f, archive, sequence)
  {
  }

  /** Archives what the input holds now. Whatever fails and whenever the power goes, the archive name never stands for
      anything but the bytes of the evidence if it did not before; and when the method succeeds they are stored with every
      directory entry that leads to them. sequence is the counter of temporary names, which starts at zero in every
      process. */
  method ArchiveFile(store: FileSystem, workDir: Path, taskId: string, runId: string, ordinal: nat, name: string,
                     evidence: Evidence, input: string, sequence: nat, ghost bytes: string)
    returns (outcome: Outcome)
    requires store.Valid() && Shows(evidence, bytes)
    modifies store
    ensures var archive := ArchivePath(workDir, taskId, runId, ordinal, name);
            && store.Valid() && Kept(old(store.fs), store.fs, archive, bytes)
            && KeptSince(old(store.fs), old(store.history), store.history, archive, bytes)
            && (outcome.Archived? ==> archive !in old(store.fs).names && Secured(store.fs, archive, bytes))
            && (outcome.ConflictError? ==> archive in old(store.fs).names)
            && (outcome.Archived? ==>
                  PlanAllowed(taskId, runId, ordinal) && !StandsInTheWay(old(store.fs), archive, sequence) && Shows(evidence, input))
            && (outcome.OtherError? ==>
                  !PlanAllowed(taskId, runId, ordinal) || FaultIn(store.faulty, old(store.clock), store.clock)
                  || StandsInTheWay(old(store.fs), archive, sequence) || !Shows(evidence, input))
    ensures old(store.clock) <= store.clock
  {
    hide Safe, Copying, HasDirectories, Secured, ArchiveFilename, Sanitized, Bounded, WrittenBack, FaultIn, Blocked,
      OnlyDirectoriesAdded;
    ghost var start := store.fs;
    var archive := ArchivePath(workDir, taskId, runId, ordinal, name);
    if !PlanAllowed(taskId, runId, ordinal) {
      NothingHappened(start, store.history, archive, bytes);
      return OtherError;
    }
    var directory := archive[..|archive| - 1];
    var made := CreateDirectories(store, directory, archive, bytes);
    if !made {
      return OtherError;
    }
    if archive in store.fs.names {
      return ConflictError;
    }
    var temporary := directory + [archive[|archive| - 1] + ".tmp-" + Show(sequence)];
    assert temporary[|directory|] != archive[|directory|] && temporary == TemporaryName(archive, sequence);
    ghost var mark, mid, time := store.history, store.fs, store.clock;
    TemporaryIsOld(start, mid, archive, sequence);
    var copied, inode := CopyFile(store, input, temporary, archive, directory, bytes);
    MomentsChain(start, old(store.history), mid, mark, store.history, archive, bytes);
    FaultWithin(store.faulty, old(store.clock), time, store.clock, store.clock);
    mark, mid := store.history, store.fs;
    time := store.clock;
    if copied && Shows(evidence, input) {
      EvidenceDetermines(evidence, bytes, input);
      var published := Publish(store, temporary, inode, archive, directory, bytes);
      FaultWithin(store.faulty, old(store.clock), time, store.clock, store.clock);
      FaultWithin(store.faulty, old(store.clock), old(store.clock), time, store.clock);
      MomentsChain(start, old(store.history), mid, mark, store.history, archive, bytes);
      if published {
        return Archived;
      }
    }
    mark, mid := store.history, store.fs;
    time := store.clock;
    Abandon(store, temporary, archive, bytes);
    FaultWithin(store.faulty, old(store.clock), old(store.clock), time, store.clock);
    MomentsChain(start, old(store.history), mid, mark, store.history, archive, bytes);
    return OtherError;
  }

  lemma NothingHappened(start: Fs, history: seq<Fs>, archive: Path, bytes: string)
    ensures KeptSince(start, history, history, archive, bytes)
  {
  }

  // ---- recovery ----

  /** Something is at the path, and it is not a file with the bytes that the evidence shows. */
  predicate OtherContent(f: Fs, path: Path, evidence: Evidence) {
    && path in f.names
    && !(f.names[path].File? && f.names[path].inode in f.contents && Shows(evidence, f.contents[f.names[path].inode]))
  }

  lemma SyncedFull(f: Fs, archive: Path, bytes: string)
    requires archive in f.names && f.names[archive].File? && f.names[archive].inode in f.contents
    requires f.contents[f.names[archive].inode] == bytes
    ensures var g := SyncFile(f, f.names[archive].inode);
            g.names == f.names && Full(g, g.names[archive], bytes) && Kept(f, g, archive, bytes)
  {
  }

  /** Synchronizes an archive whose content was found right: the content may be nowhere but in memory until then, and so
      may every directory entry that leads to it. */
  method Secure(store: FileSystem, archive: Path, ghost bytes: string) returns (ok: bool)
    requires store.Valid() && archive != []
    requires archive in store.fs.names && forall n :: 0 < n <= |archive| ==> archive[..n] in store.fs.names
    requires store.fs.names[archive].File? && store.fs.names[archive].inode in store.fs.contents
    requires store.fs.contents[store.fs.names[archive].inode] == bytes
    modifies store
    ensures store.Valid() && Kept(old(store.fs), store.fs, archive, bytes)
    ensures KeptSince(old(store.fs), old(store.history), store.history, archive, bytes)
    ensures ok ==> Secured(store.fs, archive, bytes)
    ensures old(store.clock) <= store.clock && (!ok ==> FaultIn(store.faulty, old(store.clock), store.clock))
  {
    hide WrittenBack, SyncFile, Bounded, ChainSettled, Safe, Full, FaultIn;
    ghost var start := store.fs;
    ghost var before, was := store.fs, store.history;
    var possible := store.Tick();
    AfterTick(before, store.fs, archive, bytes);
    NothingHappened(start, was, archive, bytes);
    OneMoment(start, old(store.history), was, store.fs, archive, bytes);
    if !possible {
      return false;
    }
    var inode := store.fs.names[archive].inode;
    ghost var ticked := store.history;
    SyncFileKeeps(store.fs, inode, archive, bytes);
    SyncedFull(store.fs, archive, bytes);
    OneMoment(start, old(store.history), ticked, SyncFile(store.fs, inode), archive, bytes);
    store.Become(SyncFile(store.fs, inode));
    ghost var synced, mid, time := store.history, store.fs, store.clock;
    ok := SyncDirectoryChain(store, archive, bytes);
    FaultWithin(store.faulty, old(store.clock), time, store.clock, store.clock);
    MomentsChain(start, old(store.history), mid, synced, store.history, archive, bytes);
    if ok {
      SettledIsStored(store.fs, archive, bytes);
    }
  }

  /** Recovery of a planned path, from any state of the file system. What is there is checked: other content is a conflict,
      and nothing else is; the right content is made stable with the way to it. What is not there is archived again, to the
      very path that the recomputed task, run and ordinal plan. */
  method RecoverArchive(store: FileSystem, workDir: Path, path: Path, name: string, evidence: Evidence,
                        input: string, sequence: nat,
                        ghost taskId: string, ghost runId: string, ghost ordinal: nat, ghost bytes: string)
    returns (outcome: Outcome)
    requires PlanAllowed(taskId, runId, ordinal) && path == ArchivePath(workDir, taskId, runId, ordinal, name)
    requires store.Valid() && Shows(evidence, bytes)
    requires path in store.fs.names ==> forall n :: 0 < n <= |path| ==> path[..n] in store.fs.names
    modifies store
    ensures store.Valid() && Kept(old(store.fs), store.fs, path, bytes)
    ensures KeptSince(old(store.fs), old(store.history), store.history, path, bytes)
    ensures outcome.Archived? ==> Secured(store.fs, path, bytes)
    ensures outcome.ConflictError? <==> OtherContent(old(store.fs), path, evidence)
    ensures outcome.Archived? && path !in old(store.fs).names ==>
              !StandsInTheWay(old(store.fs), path, sequence) && Shows(evidence, input)
    ensures outcome.OtherError? ==>
              || FaultIn(store.faulty, old(store.clock), store.clock)
              || (path !in old(store.fs).names && (StandsInTheWay(old(store.fs), path, sequence) || !Shows(evidence, input)))
  {
    hide Secured, ArchiveFilename, Sanitized, Safe, Lawful, FaultIn, StandsInTheWay;
    PlannedName(ordinal, name);
    if path in store.fs.names {
      NothingHappened(store.fs, store.history, path, bytes);
      if !store.fs.names[path].File? || !Shows(evidence, store.fs.contents[store.fs.names[path].inode]) {
        return ConflictError;
      }
      EvidenceDetermines(evidence, bytes, store.fs.contents[store.fs.names[path].inode]);
      var ok := Secure(store, path, bytes);
      return if ok then Archived else OtherError;
    }
    var filename := path[|path| - 1];
    if !HasSeparator(filename) {
      return OtherError;
    }
    outcome := ArchiveFile(store, path[..|path| - 4], path[|path| - 3], path[|path| - 2], Read(DigitPrefix(filename)), name, evidence,
                           input, sequence, bytes);
  }

  /** The leading digits of a planned name are its ordinal. */
  lemma PlannedName(ordinal: nat, name: string)
    ensures HasSeparator(ArchiveFilename(ordinal, name)) && AllDigits(DigitPrefix(ArchiveFilename(ordinal, name)))
    ensures Read(DigitPrefix(ArchiveFilename(ordinal, name))) == ordinal
  {
    DigitPrefixOf(Show(ordinal), Sanitized(name));
    ReadShow(ordinal);
    assert ArchiveFilename(ordinal, name)[|Show(ordinal)|] == '-';
  }

  // ---- recovery after a power loss ----

  /** What a power loss leaves of a safe moment: a file system in order, in which whatever has the archive name has the
      whole path to it and the bytes of the evidence. */
  lemma PowerLossIsRecoverable(f: Fs, limit: nat, path: Path, evidence: Evidence, bytes: string)
    requires Bounded(f, limit) && Safe(f, path, bytes) && Shows(evidence, bytes)
    ensures Bounded(PowerLoss(f), limit) && Safe(PowerLoss(f), path, bytes) && !OtherContent(PowerLoss(f), path, evidence)
    ensures path in PowerLoss(f).names ==> forall n :: 0 < n <= |path| ==> path[..n] in PowerLoss(f).names
  {
    PowerLossKeepsSafe(f, path, bytes);
    if path in PowerLoss(f).names {
      forall n | 0 < n <= |path| ensures path[..n] in PowerLoss(f).names {
        forall m | 0 < m <= n ensures path[..n][..m] in f.stable {
          assert path[..n][..m] == path[..m];
        }
      }
    }
  }

  /** Archives a file; whenever the power goes during that, at whatever moment of the history, recovery can begin from what
      is left, and does not find other content. */
  method ArchiveThroughPowerLoss(store: FileSystem, workDir: Path, taskId: string, runId: string, ordinal: nat, name: string,
                                 evidence: Evidence, input: string, sequence: nat, ghost bytes: string)
    returns (outcome: Outcome)
    requires store.Valid() && Shows(evidence, bytes)
    requires Safe(store.fs, ArchivePath(workDir, taskId, runId, ordinal, name), bytes)
    modifies store
    ensures store.Valid() && old(store.history) <= store.history
    ensures outcome.Archived? ==> Secured(store.fs, ArchivePath(workDir, taskId, runId, ordinal, name), bytes)
    ensures var path := ArchivePath(workDir, taskId, runId, ordinal, name);
            forall k :: |old(store.history)| - 1 <= k < |store.history| ==>
              var left := PowerLoss(store.history[k]);
              && Bounded(left, store.nextInode) && !OtherContent(left, path, evidence) && Safe(left, path, bytes)
              && (path in left.names ==> forall n :: 0 < n <= |path| ==> path[..n] in left.names)
  {
    hide Safe, Bounded, PowerLoss, OtherContent, ArchiveFilename, Shows;
    ghost var path := ArchivePath(workDir, taskId, runId, ordinal, name);
    outcome := ArchiveFile(store, workDir, taskId, runId, ordinal, name, evidence, input, sequence, bytes);
    forall k | |old(store.history)| - 1 <= k < |store.history|
      ensures var left := PowerLoss(store.history[k]);
              && Bounded(left, store.nextInode) && !OtherContent(left, path, evidence) && Safe(left, path, bytes)
              && (path in left.names ==> forall n :: 0 < n <= |path| ==> path[..n] in left.names)
    {
      assert k == |old(store.history)| - 1 ==> store.history[k] == old(store.fs);
      PowerLossIsRecoverable(store.history[k], store.nextInode, path, evidence, bytes);
    }
  }

  /** The whole story: archiving that stops anywhere, since from some moment on every operation may fail; a power loss; a
      new process with a kernel and faults of its own; and recovery. It never takes what the first attempt left for other
      content; and when it succeeds, the bytes are stored, with the way to them. */
  method RecoverAfterPowerLoss(store: FileSystem, workDir: Path, taskId: string, runId: string, ordinal: nat, name: string,
                               evidence: Evidence, input: string, sequence: nat, later: string,
                               kernel: (nat, Fs) -> Fs, faulty: nat -> bool, ghost bytes: string)
    returns (first: Outcome, second: Outcome, after: FileSystem)
    requires store.Valid() && Shows(evidence, bytes) && PlanAllowed(taskId, runId, ordinal) && Lawful(kernel)
    requires ArchivePath(workDir, taskId, runId, ordinal, name) !in store.fs.names
    requires ArchivePath(workDir, taskId, runId, ordinal, name) !in store.fs.stable
    modifies store
    ensures fresh(after) && after.Valid() && !second.ConflictError?
    ensures first.Archived? ==> ArchivePath(workDir, taskId, runId, ordinal, name) in PowerLoss(store.fs).names
    ensures second.Archived? ==> Secured(after.fs, ArchivePath(workDir, taskId, runId, ordinal, name), bytes)
  {
    hide Safe, Bounded, PowerLoss, OtherContent, ArchiveFilename, Shows, Lawful, Secured;
    var path := ArchivePath(workDir, taskId, runId, ordinal, name);
    AbsentIsSafe(store.fs, path, bytes);
    first := ArchiveThroughPowerLoss(store, workDir, taskId, runId, ordinal, name, evidence, input, sequence, bytes);
    assert store.history[|store.history| - 1] == store.fs;
    if first.Archived? {
      StoredSurvivesPowerLoss(store.fs, store.fs, path, bytes);
    }
    after := new FileSystem(PowerLoss(store.fs), store.nextInode, kernel, faulty);
    second := RecoverArchive(after, workDir, path, name, evidence, later, 0, taskId, runId, ordinal, bytes);
  }

  lemma AbsentIsSafe(f: Fs, path: Path, bytes: string)
    requires path !in f.names && path !in f.stable
    ensures Safe(f, path, bytes)
  {
  }
}
