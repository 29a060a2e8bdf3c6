/** Chains of retry runs: once an input has an archive, it is replayed from an archive ever after. */
module RetryChain {
  import opened ControlPlane
  import opened ServerInvariant

  /** Each run of the chain is a retry of the one before it. */
  ghost predicate Chain(s: Server, ids: seq<string>) {
    && (forall i :: 0 <= i < |ids| ==> ids[i] in s.runs)
    && (forall i :: 0 < i < |ids| ==> s.runs[ids[i]].trigger.Retry? && s.runs[ids[i]].retryOf == ids[i - 1])
  }

  /** The run reported the path as failed, with a reference to an archive. */
  ghost predicate FailedWithArchive(run: RunRow, path: string) {
    run.failedFiles.Some?
    && exists i :: 0 <= i < |run.failedFiles.value| && run.failedFiles.value[i].sourcePath == path
                   && run.failedFiles.value[i].archiveRef != ""
  }

  /** If the path is a target of the run at all, it is a replay of the archive that its reference names: path, size, hash and
      time are those recorded for the node and the task of the run that is repeated. */
  ghost predicate ReplaysArchive(s: Server, run: RunRow, path: string) {
    forall t :: run.retryFiles.Some? && t in run.retryFiles.value && t.sourcePath == path ==>
      t.inputType.ArchiveInput? && t.archiveRef != "" && run.retryOf in s.runs && ReplaysRecorded(s, s.runs[run.retryOf], t)
  }

  lemma ChildReplays(s: Server, parent: string, child: string, path: string)
    requires ServerOk(s) && parent in s.runs && child in s.runs
    requires s.runs[child].trigger.Retry? && s.runs[child].retryOf == parent
    requires FailedWithArchive(s.runs[parent], path)
             || (ReplaysArchive(s, s.runs[parent], path) && s.runs[parent].retryFiles.Some?)
    ensures ReplaysArchive(s, s.runs[child], path)
  {
    assert RunOk(s, child) && RunOk(s, parent);
    var failed, targets := s.runs[parent].failedFiles.value, s.runs[child].retryFiles.value;
    forall t | t in targets && t.sourcePath == path
      ensures t.inputType.ArchiveInput? && t.archiveRef != "" && ReplaysRecorded(s, s.runs[parent], t)
    {
      var i :| 0 <= i < |targets| && targets[i] == t;
      assert TargetOf(s, s.runs[parent], t, failed[i]);
      if ReplaysArchive(s, s.runs[parent], path) && s.runs[parent].retryFiles.Some? {
        assert failed[i] in failed && FailureKeepsTarget(s.runs[parent].retryFiles, failed[i]);
      } else {
        var j :| 0 <= j < |failed| && failed[j].sourcePath == path && failed[j].archiveRef != "";
        assert i == j;
      }
    }
  }

  /** Along any chain of retries, in any reachable database: once a failed file carries an archive reference, every
      later target for that source path replays a recorded archive, never a new read of the source. */
  lemma {:induction false} ArchiveIdentityNeverDegrades(s: Server, ids: seq<string>, i: nat, j: nat, path: string)
    requires ServerOk(s) && Chain(s, ids) && i < j < |ids|
    requires FailedWithArchive(s.runs[ids[i]], path)
    ensures ReplaysArchive(s, s.runs[ids[j]], path)
    decreases j - i
  {
    if j == i + 1 {
      ChildReplays(s, ids[i], ids[j], path);
    } else {
      ArchiveIdentityNeverDegrades(s, ids, i, j - 1, path);
      assert RunOk(s, ids[j - 1]);
      ChildReplays(s, ids[j - 1], ids[j], path);
    }
  }
}
