/** Texts that are joined line by line, and the keys made of them: a key tells all that it was made of. */
module Keys {
  import opened Messages
  import opened Decimals
  import opened Calendar

  // ---- lines ----

  predicate OneLine(path: string) { '\n' !in path }

  /** A text of one line can be split off in only one way. */
  lemma FirstLine(p: string, restP: string, q: string, restQ: string)
    requires OneLine(p) && OneLine(q) && p + restP == q + restQ
    requires restP != "" && restP[0] == '\n' && restQ != "" && restQ[0] == '\n'
    ensures p == q && restP == restQ
  {
    if |p| < |q| {
      LineEndsWithin(p, restP, q, restQ);
    } else if |q| < |p| {
      LineEndsWithin(q, restQ, p, restP);
    } else {
      assert (p + restP)[..|p|] == p && (q + restQ)[..|q|] == q;
      assert (p + restP)[|p|..] == restP && (q + restQ)[|q|..] == restQ;
    }
  }

  lemma LineEndsWithin(p: string, restP: string, q: string, restQ: string)
    requires p + restP == q + restQ && restP != "" && restP[0] == '\n' && |p| < |q|
    ensures !OneLine(q)
  {
    assert q[|p|] == (q + restQ)[|p|] == (p + restP)[|p|];
  }

  lemma NumeralIsOneLine(n: int)
    ensures OneLine(ShowInt(n))
  {
    assert AllDigits(Show(if n < 0 then -n else n));
  }

  // ---- keys ----

  lemma TailTells(head: string, x: string, y: string)
    requires head + x == head + y
    ensures x == y
  {
    assert (head + x)[|head|..] == x && (head + y)[|head|..] == y;
  }

  lemma NodeAndRun(head: string, nodeA: string, runA: string, nodeB: string, runB: string)
    requires OneLine(nodeA) && OneLine(nodeB)
    requires head + (nodeA + ("\n" + runA)) == head + (nodeB + ("\n" + runB))
    ensures nodeA == nodeB && runA == runB
  {
    TailTells(head, nodeA + ("\n" + runA), nodeB + ("\n" + runB));
    FirstLine(nodeA, "\n" + runA, nodeB, "\n" + runB);
    TailTells("\n", runA, runB);
  }

  /** A derived key tells the kind of the request, the node and the run, if the code of a node is one line. */
  lemma DerivedKeysTell(nodeA: string, runA: string, nodeB: string, runB: string)
    requires OneLine(nodeA) && OneLine(nodeB)
    ensures ManifestKey(nodeA, runA) == ManifestKey(nodeB, runB) <==> nodeA == nodeB && runA == runB
    ensures ReportKey(nodeA, runA) == ReportKey(nodeB, runB) <==> nodeA == nodeB && runA == runB
    ensures ManifestKey(nodeA, runA) != ReportKey(nodeB, runB)
  {
    assert forall n: string, r: string :: ManifestKey(n, r) == "#manifest\n" + (n + ("\n" + r));
    assert forall n: string, r: string :: ReportKey(n, r) == "#report\n" + (n + ("\n" + r));
    if ManifestKey(nodeA, runA) == ManifestKey(nodeB, runB) {
      NodeAndRun("#manifest\n", nodeA, runA, nodeB, runB);
    }
    if ReportKey(nodeA, runA) == ReportKey(nodeB, runB) {
      NodeAndRun("#report\n", nodeA, runA, nodeB, runB);
    }
    assert ManifestKey(nodeA, runA)[1] == 'm' && ReportKey(nodeB, runB)[1] == 'r';
  }

  /** The key of a slot tells the node, the task and the slot. */
  lemma SlotKeysTell(nodeA: string, taskA: string, slotA: string, nodeB: string, taskB: string, slotB: string)
    requires OneLine(nodeA) && OneLine(nodeB) && IsRfc3339Utc(slotA) && IsRfc3339Utc(slotB)
    ensures ScheduledExecutionKey(nodeA, taskA, slotA) == ScheduledExecutionKey(nodeB, taskB, slotB)
            <==> nodeA == nodeB && taskA == taskB && slotA == slotB
  {
    var restA, restB := taskA + ("\n" + slotA), taskB + ("\n" + slotB);
    assert |slotA| == 20 && |slotB| == 20;
    assert ScheduledExecutionKey(nodeA, taskA, slotA) == "#scheduled\n" + (nodeA + ("\n" + restA));
    assert ScheduledExecutionKey(nodeB, taskB, slotB) == "#scheduled\n" + (nodeB + ("\n" + restB));
    if ScheduledExecutionKey(nodeA, taskA, slotA) == ScheduledExecutionKey(nodeB, taskB, slotB) {
      NodeAndRun("#scheduled\n", nodeA, restA, nodeB, restB);
      assert restA[|restA| - 20..] == slotA && restB[|restB| - 20..] == slotB;
      assert restA[..|restA| - 21] == taskA && restB[..|restB| - 21] == taskB;
    }
  }
}
