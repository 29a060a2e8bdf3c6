/** Where an archived input goes, and how recovery reads the plan back out of that path. */
module ArchivePaths {
  import opened Decimals

  predicate SafeChar(c: char) {
    'a' <= c <= 'z' || 'A' <= c <= 'Z' || IsDigit(c) || c == '-' || c == '_' || c == '.'
  }

  ghost predicate SafeChars(text: string) { forall i :: 0 <= i < |text| ==> SafeChar(text[i]) }

  predicate SafeSegment(value: string) {
    value != "" && value != "." && value != ".." && forall i :: 0 <= i < |value| ==> SafeChar(value[i])
  }

  method SanitizedFilename(originalName: string) returns (name: string)
    ensures name == Sanitized(originalName)
  {
    name := "";
    for i := 0 to |originalName|
      invariant name == Replaced(originalName[..i])
    {
      name := name + [if SafeChar(originalName[i]) then originalName[i] else '_'];
      assert originalName[..i + 1][..i] == originalName[..i];
    }
    assert originalName[..|originalName|] == originalName;
    if name == "" || name == "." || name == ".." {
      name := "file";
    }
  }

  function Replaced(name: string): (r: string)
    ensures |r| == |name|
  {
    if name == "" then ""
    else Replaced(name[..|name| - 1]) + [if SafeChar(name[|name| - 1]) then name[|name| - 1] else '_']
  }

  function Sanitized(originalName: string): string {
    var name := Replaced(originalName);
    if name == "" || name == "." || name == ".." then "file" else name
  }

  lemma {:induction false} ReplacedIsSafe(name: string)
    ensures SafeChars(Replaced(name))
  {
    if name != "" {
      ReplacedIsSafe(name[..|name| - 1]);
    }
  }

  /** A sanitized name is one safe path segment, whatever the original name was. */
  lemma SanitizedIsSafeSegment(originalName: string)
    ensures SafeSegment(Sanitized(originalName))
  {
    ReplacedIsSafe(originalName);
  }

  lemma {:induction false} ReplacedAt(name: string, i: nat)
    requires i < |name|
    ensures Replaced(name)[i] == if SafeChar(name[i]) then name[i] else '_'
  {
    if i < |name| - 1 {
      ReplacedAt(name[..|name| - 1], i);
    }
  }

  /** Safe characters are kept where they are and each other one becomes an underscore; only a name that is empty or a
      relative directory is given up. */
  lemma SanitizedKeepsSafe(originalName: string)
    ensures originalName == "" || originalName == "." || originalName == ".." ==> Sanitized(originalName) == "file"
    ensures originalName != "" && originalName != "." && originalName != ".." ==>
              && |Sanitized(originalName)| == |originalName|
              && forall i :: 0 <= i < |originalName| ==>
                   Sanitized(originalName)[i] == if SafeChar(originalName[i]) then originalName[i] else '_'
    ensures SafeSegment(originalName) ==> Sanitized(originalName) == originalName
  {
    var name := Replaced(originalName);
    forall i | 0 <= i < |originalName| ensures name[i] == if SafeChar(originalName[i]) then originalName[i] else '_' {
      ReplacedAt(originalName, i);
    }
    if name == "." || name == ".." {
      assert forall i :: 0 <= i < |name| ==> originalName[i] == '.';
      assert originalName == name;
    }
    if SafeSegment(originalName) {
      assert name == originalName;
    }
  }

  function ArchiveFilename(ordinal: nat, originalName: string): string {
    Show(ordinal) + ("-" + Sanitized(originalName))
  }

  predicate PlanAllowed(taskId: string, runId: string, ordinal: nat) {
    SafeSegment(taskId) && SafeSegment(runId) && ordinal != 0
  }

  function RunDirectory(workDir: string, taskId: string, runId: string): string {
    workDir + "/archive" + "/" + taskId + "/" + runId
  }

  function PlanArchivePath(workDir: string, taskId: string, runId: string, ordinal: nat, originalName: string): string {
    RunDirectory(workDir, taskId, runId) + "/" + ArchiveFilename(ordinal, originalName)
  }

  // ---- the two path operations recovery uses ----

  ghost predicate NoSlash(text: string) { forall i :: 0 <= i < |text| ==> text[i] != '/' }

  function Filename(path: string): string {
    if path == "" || path[|path| - 1] == '/' then "" else Filename(path[..|path| - 1]) + [path[|path| - 1]]
  }

  function Parent(path: string): string {
    if path == "" then "" else if path[|path| - 1] == '/' then path[..|path| - 1] else Parent(path[..|path| - 1])
  }

  lemma {:induction false} JoinSplits(directory: string, name: string)
    requires NoSlash(name)
    ensures Filename(directory + "/" + name) == name && Parent(directory + "/" + name) == directory
  {
    var path := directory + "/" + name;
    if name == "" {
      assert path[..|path| - 1] == directory;
    } else {
      var shorter := name[..|name| - 1];
      JoinSplits(directory, shorter);
      assert path[..|path| - 1] == directory + "/" + shorter;
      assert shorter + [name[|name| - 1]] == name;
    }
  }

  lemma FilenameIsSafe(ordinal: nat, originalName: string)
    ensures NoSlash(ArchiveFilename(ordinal, originalName))
  {
    SanitizedIsSafeSegment(originalName);
    assert AllDigits(Show(ordinal));
  }

  /** One ordinal and one sanitized name per file name: the digits end at the first '-'. */
  lemma ArchiveFilenameInjective(m: nat, n: nat, left: string, right: string)
    requires ArchiveFilename(m, left) == ArchiveFilename(n, right)
    ensures m == n && Sanitized(left) == Sanitized(right)
  {
    DigitPrefixUnique(Show(m), Show(n), "-" + Sanitized(left), "-" + Sanitized(right));
    ReadShow(m);
    ReadShow(n);
    assert ("-" + Sanitized(left))[1..] == Sanitized(left) && ("-" + Sanitized(right))[1..] == Sanitized(right);
  }

  /** Distinct (task, run, ordinal) never share an archive path. */
  lemma PlannedPathsDistinct(workDir: string, taskA: string, runA: string, m: nat, nameA: string,
                             taskB: string, runB: string, n: nat, nameB: string)
    requires PlanAllowed(taskA, runA, m) && PlanAllowed(taskB, runB, n)
    requires PlanArchivePath(workDir, taskA, runA, m, nameA) == PlanArchivePath(workDir, taskB, runB, n, nameB)
    ensures taskA == taskB && runA == runB && m == n && Sanitized(nameA) == Sanitized(nameB)
  {
    FilenameIsSafe(m, nameA);
    FilenameIsSafe(n, nameB);
    JoinSplits(RunDirectory(workDir, taskA, runA), ArchiveFilename(m, nameA));
    JoinSplits(RunDirectory(workDir, taskB, runB), ArchiveFilename(n, nameB));
    ArchiveFilenameInjective(m, n, nameA, nameB);
    JoinSplits(workDir + "/archive" + "/" + taskA, runA);
    JoinSplits(workDir + "/archive" + "/" + taskB, runB);
    JoinSplits(workDir + "/archive", taskA);
    JoinSplits(workDir + "/archive", taskB);
  }

  // ---- what recover_archive reads back ----

  function DigitPrefix(text: string): string {
    if text == "" || text[0] == '-' then "" else [text[0]] + DigitPrefix(text[1..])
  }

  predicate HasSeparator(text: string) { exists i :: 0 <= i < |text| && text[i] == '-' }

  lemma {:induction false} DigitPrefixOf(digits: string, rest: string)
    requires AllDigits(digits)
    ensures DigitPrefix(digits + ("-" + rest)) == digits
  {
    var text := digits + ("-" + rest);
    if digits != "" {
      assert text[0] == digits[0] && IsDigit(digits[0]);
      assert text[1..] == digits[1..] + ("-" + rest);
      DigitPrefixOf(digits[1..], rest);
    }
  }

  /** Recovery of a planned path recomputes the task, the run and the ordinal it was planned with,
      and so archives to exactly that path again. */
  lemma RecoveryRecomputesPath(workDir: string, taskId: string, runId: string, ordinal: nat, originalName: string)
    requires PlanAllowed(taskId, runId, ordinal)
    ensures var path := PlanArchivePath(workDir, taskId, runId, ordinal, originalName);
            && HasSeparator(Filename(path))
            && Filename(Parent(Parent(path))) == taskId
            && Filename(Parent(path)) == runId
            && AllDigits(DigitPrefix(Filename(path)))
            && Read(DigitPrefix(Filename(path))) == ordinal
            && PlanArchivePath(workDir, Filename(Parent(Parent(path))), Filename(Parent(path)),
                               Read(DigitPrefix(Filename(path))), originalName) == path
  {
    var name := ArchiveFilename(ordinal, originalName);
    FilenameIsSafe(ordinal, originalName);
    JoinSplits(RunDirectory(workDir, taskId, runId), name);
    JoinSplits(workDir + "/archive" + "/" + taskId, runId);
    JoinSplits(workDir + "/archive", taskId);
    DigitPrefixOf(Show(ordinal), Sanitized(originalName));
    ReadShow(ordinal);
    assert name[|Show(ordinal)|] == '-';
  }
}
