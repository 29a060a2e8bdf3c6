/** Whole runs of the scheduler: any sequence of its calls, with the Agent restarted in between, and the slots they dispatch. */
module SchedulerRuns {
  import opened Messages
  import opened Cron
  import opened Scheduler

  /** The calls that touch the entries, and a restart, which loses them all. */
  datatype Call = Replace(tasks: seq<TaskConfig>, appliedAt: int) | Collect(now: int) | Refresh(completedAt: int) | Restart

  /** What the methods of the class promise of a call, and what it dispatches. */
  ghost predicate Makes(before: seq<Entry>, call: Call, after: seq<Entry>, due: seq<Execution>) {
    match call
    case Replace(tasks, appliedAt) => Replaced(before, tasks, appliedAt, after) && due == []
    case Collect(now) => Collected(before, now, after, due)
    case Refresh(completedAt) => Refreshed(before, completedAt, after) && due == []
    case Restart => after == [] && due == []
  }

  ghost predicate Played(calls: seq<Call>, states: seq<seq<Entry>>, dues: seq<seq<Execution>>) {
    && |states| == |calls| + 1 && |dues| == |calls| && states[0] == []
    && forall i :: 0 <= i < |calls| ==> Makes(states[i], calls[i], states[i + 1], dues[i])
  }

  /** Everything dispatched, in order. */
  function Log(dues: seq<seq<Execution>>): seq<Execution> {
    if dues == [] then [] else Log(dues[..|dues| - 1]) + dues[|dues| - 1]
  }

  lemma LogStep(dues: seq<seq<Execution>>, n: nat)
    requires n < |dues|
    ensures Log(dues[..n + 1]) == Log(dues[..n]) + dues[n]
  {
    assert dues[..n + 1][..n] == dues[..n];
  }

  // ---- what holds of entries and log ----

  ghost predicate Good(entries: seq<Entry>) { DistinctIds(entries) && forall k :: 0 <= k < |entries| ==> EntryOk(entries[k]) }

  ghost predicate SlotAhead(e: Entry, log: seq<Execution>) {
    forall x :: x in log && x.task.id == e.config.id && e.nextSlot.Some? ==> x.scheduledFor < e.nextSlot.value
  }

  /** The next slot of every entry is later than all slots that were ever dispatched for its task. */
  ghost predicate Ahead(entries: seq<Entry>, log: seq<Execution>) {
    forall k :: 0 <= k < |entries| ==> SlotAhead(entries[k], log)
  }

  ghost predicate Rising(log: seq<Execution>) {
    forall i, j :: 0 <= i < j < |log| && log[i].task.id == log[j].task.id ==> log[i].scheduledFor < log[j].scheduledFor
  }

  ghost predicate WholeMinutes(log: seq<Execution>) { forall x :: x in log ==> x.scheduledFor % MINUTE == 0 }

  /** The slot is not later than the clock, or than the last slot that the entry of its task remembers. */
  ghost predicate Covered(before: seq<Entry>, x: Execution, appliedAt: int) {
    || x.scheduledFor <= appliedAt
    || exists k :: 0 <= k < |before| && before[k].config.id == x.task.id && Remembered(before[k], x)
  }

  predicate Remembered(e: Entry, x: Execution) { e.lastSlot.Some? && x.scheduledFor <= e.lastSlot.value }

  /** The one premise about the clock: when a configuration is applied, no task in it has been dispatched for a later moment
      that its entry has forgotten. */
  ghost predicate ResumesAt(before: seq<Entry>, log: seq<Execution>, call: Call) {
    call.Replace? ==> forall x :: x in log && Listed(call.tasks, x.task.id) ==> Covered(before, x, call.appliedAt)
  }

  // ---- one call ----

  lemma SkippedAhead(e: Entry, log: seq<Execution>, now: int)
    requires EntryOk(e) && SlotAhead(e, log)
    ensures SlotAhead(Skipped(e, now), log) && SlotAhead(CaughtUp(e, now), log)
  {
    hide IsSlotOf, Denotes, NextSlot, UtcMinute;
    NextSlotIsLater(e.schedule, now);
    if e.nextSlot.Some? && UtcMinute(e.nextSlot.value) < UtcMinute(now) {
      EarlierMinute(e.nextSlot.value, now);
    }
  }

  lemma AdvancedAhead(e: Entry, log: seq<Execution>, due: seq<Execution>, now: int)
    requires EntryOk(e) && SlotAhead(e, log)
    requires forall x :: x in due && x.task.id == e.config.id ==> DueFrom(x, e, now)
    ensures SlotAhead(Advanced(e, now), log + due)
  {
    hide IsSlotOf, Denotes, NextSlot, UtcMinute, Skipped;
    SkippedAhead(e, log, now);
    SkippedKeeps(e, now);
    var s := Skipped(e, now);
    if s.nextSlot.Some? {
      NextSlotIsLater(s.schedule, s.nextSlot.value);
    }
    assert forall x :: x in log + due ==> x in log || x in due;
  }

  lemma SkippedKeeps(e: Entry, now: int)
    requires EntryOk(e)
    ensures Skipped(e, now).config == e.config && EntryOk(Skipped(e, now))
  {
    hide IsSlotOf, Denotes, NextSlot, UtcMinute;
    EntryKept(e, now);
  }

  /** Whatever is due for the task of an entry is due from that entry. */
  lemma DueFromItsEntry(before: seq<Entry>, now: int, after: seq<Entry>, due: seq<Execution>, x: Execution) returns (k: nat)
    requires Collected(before, now, after, due) && x in due
    ensures k < |before| && DueFrom(x, before[k], now)
  {
    hide DueFrom;
    assert DueFromSome(x, before, |before|, now);
    k :| 0 <= k < |before| && DueFrom(x, before[k], now);
  }

  lemma DueConfig(x: Execution, e: Entry, now: int)
    requires EntryOk(e) && DueFrom(x, e, now)
    ensures x.task == e.config && x.scheduledFor <= now && x.scheduledFor % MINUTE == 0
    ensures Skipped(e, now).nextSlot == Some(x.scheduledFor)
  {
    hide Denotes, NextSlot, Matches;
    SkippedKeeps(e, now);
  }

  lemma DueIsLater(before: seq<Entry>, now: int, after: seq<Entry>, due: seq<Execution>, log: seq<Execution>, x: Execution)
    requires Collected(before, now, after, due) && Good(before) && Ahead(before, log) && x in due
    ensures x.scheduledFor % MINUTE == 0 && x.scheduledFor <= now
    ensures forall y :: y in log && y.task.id == x.task.id ==> y.scheduledFor < x.scheduledFor
  {
    hide DueFrom, Skipped, EntryOk, Collected, DistinctIds;
    var k := DueFromItsEntry(before, now, after, due, x);
    DueConfig(x, before[k], now);
    SkippedAhead(before[k], log, now);
    SkippedKeeps(before[k], now);
  }

  lemma CollectKeeps(before: seq<Entry>, now: int, after: seq<Entry>, due: seq<Execution>, log: seq<Execution>)
    requires Collected(before, now, after, due) && Good(before) && Ahead(before, log)
    ensures Good(after) && Ahead(after, log + due)
  {
    hide DueFrom, DueFromSome, Skipped, EntryOk, Advanced, SlotAhead, OnePerTask;
    forall k | 0 <= k < |after| ensures EntryOk(after[k]) && after[k].config == before[k].config && SlotAhead(after[k], log + due) {
      forall x | x in due && x.task.id == before[k].config.id ensures DueFrom(x, before[k], now) {
        var l := DueFromItsEntry(before, now, after, due, x);
        DueConfig(x, before[l], now);
      }
      AdvancedAhead(before[k], log, due, now);
      AdvancedOk(before[k], now);
    }
  }

  lemma AdvancedOk(e: Entry, now: int)
    requires EntryOk(e)
    ensures EntryOk(Advanced(e, now)) && Advanced(e, now).config == e.config
  {
    hide IsSlotOf, Denotes, NextSlot, UtcMinute, IsDue;
    EntryKept(e, now);
    SkippedKeeps(e, now);
    if IsDue(Skipped(e, now), now) {
      EntryKept(Skipped(e, now), now);
      DueHasSlot(Skipped(e, now), now);
    }
  }

  lemma DueHasSlot(e: Entry, now: int)
    requires IsDue(e, now)
    ensures e.nextSlot.Some?
  {
  }

  lemma RisingGrows(log: seq<Execution>, due: seq<Execution>)
    requires Rising(log) && OnePerTask(due)
    requires forall x, y :: x in due && y in log && y.task.id == x.task.id ==> y.scheduledFor < x.scheduledFor
    ensures Rising(log + due)
  {
    var longer := log + due;
    forall i, j | 0 <= i < j < |longer|
      ensures longer[i].task.id == longer[j].task.id ==> longer[i].scheduledFor < longer[j].scheduledFor
    {
      if j >= |log| && i >= |log| {
        assert due[i - |log|].task.id != due[j - |log|].task.id;
      } else if j >= |log| {
        assert longer[j] == due[j - |log|] && longer[j] in due && longer[i] in log;
      }
    }
  }

  lemma RefreshKeeps(before: seq<Entry>, completedAt: int, after: seq<Entry>, log: seq<Execution>)
    requires Refreshed(before, completedAt, after) && Good(before) && Ahead(before, log)
    ensures Good(after) && Ahead(after, log)
  {
    hide EntryOk, SlotAhead, NextSlot;
    forall k | 0 <= k < |after| ensures EntryOk(after[k]) && after[k].config == before[k].config && SlotAhead(after[k], log) {
      EntryKept(before[k], completedAt);
      SkippedAhead(before[k], log, completedAt);
    }
  }

  lemma FoundEntry(entries: seq<Entry>, id: string, k: nat)
    requires DistinctIds(entries) && k < |entries| && entries[k].config.id == id
    ensures FindEntry(entries, id) == Some(k)
  {
  }

  lemma DerivedAhead(e: Entry, before: seq<Entry>, log: seq<Execution>, appliedAt: int)
    requires Good(before) && Ahead(before, log) && Derived(e, before, appliedAt)
    requires forall x :: x in log && x.task.id == e.config.id ==> Covered(before, x, appliedAt)
    ensures SlotAhead(e, log)
  {
    hide EntryOk, NextSlot, SameExecutionConfig;
    var prior := FindEntry(before, e.config.id);
    if prior.Some? && SameExecutionConfig(before[prior.value].config, e.config) {
      assert SlotAhead(before[prior.value], log);
    } else {
      var base := if e.lastSlot.Some? && e.lastSlot.value > appliedAt then e.lastSlot.value else appliedAt;
      NextSlotIsLater(e.schedule, base);
      forall x | x in log && x.task.id == e.config.id ensures x.scheduledFor <= base {
        if x.scheduledFor > appliedAt {
          var k :| 0 <= k < |before| && before[k].config.id == x.task.id && Remembered(before[k], x);
          FoundEntry(before, x.task.id, k);
        }
      }
    }
  }

  lemma ReplaceKeeps(before: seq<Entry>, call: Call, after: seq<Entry>, log: seq<Execution>)
    requires call.Replace? && Replaced(before, call.tasks, call.appliedAt, after) && Good(before) && Ahead(before, log)
    requires ResumesAt(before, log, call)
    ensures Good(after) && Ahead(after, log)
  {
    hide EntryOk, SlotAhead, Derived, Listed, Covered;
    forall k | 0 <= k < |after| ensures SlotAhead(after[k], log) {
      FoundEntry(after, after[k].config.id, k);
      DerivedAhead(after[k], before, log, call.appliedAt);
    }
  }

  ghost predicate Kept(entries: seq<Entry>, log: seq<Execution>) {
    Good(entries) && Ahead(entries, log) && Rising(log) && WholeMinutes(log)
  }

  lemma CallKeeps(before: seq<Entry>, call: Call, after: seq<Entry>, due: seq<Execution>, log: seq<Execution>)
    requires Makes(before, call, after, due) && Kept(before, log) && ResumesAt(before, log, call)
    ensures Kept(after, log + due)
  {
    hide Good, Ahead, Rising, ResumesAt, Replaced, Refreshed, OnePerTask, DueFromSome, Advanced;
    assert log + [] == log;
    match call
    case Replace(_, _) => ReplaceKeeps(before, call, after, log);
    case Collect(now) =>
      CollectKeeps(before, now, after, due, log);
      forall x | x in due
        ensures x.scheduledFor % MINUTE == 0
        ensures forall y :: y in log && y.task.id == x.task.id ==> y.scheduledFor < x.scheduledFor
      {
        DueIsLater(before, now, after, due, log, x);
      }
      RisingGrows(log, due);
    case Refresh(completedAt) => RefreshKeeps(before, completedAt, after, log);
    case Restart => NoEntries(log);
  }

  lemma NoEntries(log: seq<Execution>)
    ensures Good([]) && Ahead([], log)
  {
  }

  // ---- whole runs ----

  ghost predicate Resumes(calls: seq<Call>, states: seq<seq<Entry>>, dues: seq<seq<Execution>>)
    requires |calls| == |dues| && |states| == |calls| + 1
  {
    forall k :: 0 <= k < |calls| ==> ResumesAt(states[k], Log(dues[..k]), calls[k])
  }

  lemma {:induction false} RunKeeps(calls: seq<Call>, states: seq<seq<Entry>>, dues: seq<seq<Execution>>, n: nat)
    requires Played(calls, states, dues) && Resumes(calls, states, dues) && n <= |calls|
    ensures Kept(states[n], Log(dues[..n]))
  {
    hide Makes, ResumesAt, Good, Ahead, Rising;
    if n == 0 {
      NoEntries(Log(dues[..0]));
      NothingLogged();
    } else {
      RunKeeps(calls, states, dues, n - 1);
      assert Makes(states[n - 1], calls[n - 1], states[n - 1 + 1], dues[n - 1]);
      LogStep(dues, n - 1);
      CallKeeps(states[n - 1], calls[n - 1], states[n], dues[n - 1], Log(dues[..n - 1]));
    }
  }

  lemma NothingLogged()
    ensures Rising([]) && WholeMinutes([])
  {
  }

  /** Whatever configurations come and go, however often the Agent restarts and wherever the clock jumps: as long as no
      configuration brings a task back before a slot it was dispatched for, the slots dispatched for a task strictly
      increase over the whole run. */
  lemma DispatchedSlotsRise(calls: seq<Call>, states: seq<seq<Entry>>, dues: seq<seq<Execution>>)
    requires Played(calls, states, dues) && Resumes(calls, states, dues)
    ensures Rising(Log(dues)) && WholeMinutes(Log(dues))
  {
    hide Played, Resumes, Good, Ahead, Rising, WholeMinutes;
    LengthsMatch(calls, states, dues);
    RunKeeps(calls, states, dues, |calls|);
    assert dues[..|calls|] == dues;
  }

  lemma LengthsMatch(calls: seq<Call>, states: seq<seq<Entry>>, dues: seq<seq<Execution>>)
    requires Played(calls, states, dues)
    ensures |dues| == |calls| && |states| == |calls| + 1
  {
    hide Makes;
  }

  // ---- when the premise holds ----

  /** No configuration is applied at an earlier time than a dispatch before it. */
  ghost predicate ClockRises(calls: seq<Call>) {
    forall i, k :: 0 <= i < k < |calls| && calls[i].Collect? && calls[k].Replace? ==> calls[i].now <= calls[k].appliedAt
  }

  lemma {:induction false} LoggedAt(dues: seq<seq<Execution>>, n: nat, x: Execution) returns (i: nat)
    requires n <= |dues| && x in Log(dues[..n])
    ensures i < n && x in dues[i]
  {
    LogStep(dues, n - 1);
    if x in dues[n - 1] {
      i := n - 1;
    } else {
      i := LoggedAt(dues, n - 1, x);
    }
  }

  /** What is dispatched is due by the clock. */
  lemma DispatchedInTime(before: seq<Entry>, call: Call, after: seq<Entry>, due: seq<Execution>, x: Execution)
    requires Makes(before, call, after, due) && Good(before) && x in due
    ensures call.Collect? && x.scheduledFor <= call.now
  {
    hide EntryOk, Advanced, DueFrom, Skipped, OnePerTask;
    var k := DueFromItsEntry(before, call.now, after, due, x);
    DueConfig(x, before[k], call.now);
  }

  lemma GoodStep(before: seq<Entry>, call: Call, after: seq<Entry>, due: seq<Execution>)
    requires Makes(before, call, after, due) && Good(before)
    ensures Good(after)
  {
    hide EntryOk, Derived, Listed, Advanced, OnePerTask, NextSlot, DueFromSome;
    match call
    case Replace(_, _) =>
    case Collect(now) =>
      forall k | 0 <= k < |after| ensures EntryOk(after[k]) && after[k].config == before[k].config {
        AdvancedOk(before[k], now);
      }
    case Refresh(completedAt) =>
      forall k | 0 <= k < |after| ensures EntryOk(after[k]) && after[k].config == before[k].config {
        EntryKept(before[k], completedAt);
      }
    case Restart =>
  }

  lemma {:induction false} AllGood(calls: seq<Call>, states: seq<seq<Entry>>, dues: seq<seq<Execution>>, n: nat)
    requires Played(calls, states, dues) && n <= |calls|
    ensures Good(states[n])
  {
    hide Makes;
    if n > 0 {
      AllGood(calls, states, dues, n - 1);
      assert Makes(states[n - 1], calls[n - 1], states[n - 1 + 1], dues[n - 1]);
      GoodStep(states[n - 1], calls[n - 1], states[n], dues[n - 1]);
    }
  }

  /** The premise holds when the clock never goes back from a dispatch to a configuration, whatever tasks come and go and
      however often the Agent restarts. */
  lemma RisingClockResumes(calls: seq<Call>, states: seq<seq<Entry>>, dues: seq<seq<Execution>>)
    requires Played(calls, states, dues) && ClockRises(calls)
    ensures Resumes(calls, states, dues)
  {
    hide Makes, Good, Listed;
    forall n | 0 <= n < |calls| ensures ResumesAt(states[n], Log(dues[..n]), calls[n]) {
      if calls[n].Replace? {
        forall x | x in Log(dues[..n]) ensures x.scheduledFor <= calls[n].appliedAt {
          var i := LoggedAt(dues, n, x);
          AllGood(calls, states, dues, i);
          assert Makes(states[i], calls[i], states[i + 1], dues[i]);
          DispatchedInTime(states[i], calls[i], states[i + 1], dues[i], x);
        }
      }
    }
  }

  /** Every task that was dispatched is still configured. */
  ghost predicate Stays(states: seq<seq<Entry>>, dues: seq<seq<Execution>>)
    requires |states| == |dues| + 1
  {
    forall n, x :: 0 <= n <= |dues| && x in Log(dues[..n]) ==> FindEntry(states[n], x.task.id).Some?
  }

  ghost predicate AllRemembered(entries: seq<Entry>, log: seq<Execution>) {
    forall x :: x in log ==> exists k :: 0 <= k < |entries| && entries[k].config.id == x.task.id && Remembered(entries[k], x)
  }

  lemma RememberedResumes(entries: seq<Entry>, log: seq<Execution>, call: Call)
    requires AllRemembered(entries, log)
    ensures ResumesAt(entries, log, call)
  {
    hide Remembered, Listed;
  }

  lemma AdvancedRemembers(e: Entry, log: seq<Execution>, now: int, x: Execution)
    requires EntryOk(e) && SlotAhead(e, log)
    requires x.task.id == e.config.id && (DueFrom(x, e, now) || (x in log && Remembered(e, x)))
    ensures Remembered(Advanced(e, now), x)
  {
    hide IsSlotOf, Denotes, NextSlot, UtcMinute;
    SkippedAhead(e, log, now);
  }

  lemma DerivedRemembers(e: Entry, before: seq<Entry>, appliedAt: int, k: nat, x: Execution)
    requires DistinctIds(before) && Derived(e, before, appliedAt) && k < |before| && before[k].config.id == e.config.id
    requires Remembered(before[k], x)
    ensures Remembered(e, x)
  {
    hide NextSlot, SameExecutionConfig, WellFormed;
    FoundEntry(before, e.config.id, k);
  }

  lemma CallRemembers(before: seq<Entry>, call: Call, after: seq<Entry>, due: seq<Execution>, log: seq<Execution>)
    requires Makes(before, call, after, due) && Kept(before, log) && AllRemembered(before, log)
    requires forall x :: x in log + due ==> FindEntry(after, x.task.id).Some?
    ensures AllRemembered(after, log + due)
  {
    hide EntryOk, Derived, Listed, Advanced, OnePerTask, NextSlot, SlotAhead, Remembered, Rising, DueFrom, DueFromSome;
    forall x | x in log + due
      ensures exists k :: 0 <= k < |after| && after[k].config.id == x.task.id && Remembered(after[k], x)
    {
      var at := FindEntry(after, x.task.id).value;
      assert x in log || x in due;
      if x in due {
        var k := DueFromItsEntry(before, call.now, after, due, x);
        DueConfig(x, before[k], call.now);
        AdvancedOk(before[k], call.now);
        AdvancedRemembers(before[k], log, call.now, x);
      } else {
        var k :| 0 <= k < |before| && before[k].config.id == x.task.id && Remembered(before[k], x);
        match call
        case Replace(_, appliedAt) => DerivedRemembers(after[at], before, appliedAt, k, x);
        case Collect(now) =>
          AdvancedOk(before[k], now);
          AdvancedRemembers(before[k], log, now, x);
        case Refresh(completedAt) => RefreshedRemembers(before[k], completedAt, x);
        case Restart =>
      }
    }
  }

  lemma RefreshedRemembers(e: Entry, completedAt: int, x: Execution)
    requires EntryOk(e) && Remembered(e, x)
    ensures Remembered(CaughtUp(e, completedAt), x) && CaughtUp(e, completedAt).config == e.config
  {
    hide NextSlot, IsSlotOf, Denotes;
  }

  lemma {:induction false} StayingRemembers(calls: seq<Call>, states: seq<seq<Entry>>, dues: seq<seq<Execution>>, n: nat)
    requires Played(calls, states, dues) && Stays(states, dues) && n <= |calls|
    ensures Kept(states[n], Log(dues[..n])) && AllRemembered(states[n], Log(dues[..n]))
  {
    hide Makes, Kept, AllRemembered, ResumesAt;
    if n == 0 {
      StartKept(dues);
    } else {
      StayingRemembers(calls, states, dues, n - 1);
      assert Makes(states[n - 1], calls[n - 1], states[n - 1 + 1], dues[n - 1]);
      LogStep(dues, n - 1);
      RememberedResumes(states[n - 1], Log(dues[..n - 1]), calls[n - 1]);
      CallKeeps(states[n - 1], calls[n - 1], states[n], dues[n - 1], Log(dues[..n - 1]));
      CallRemembers(states[n - 1], calls[n - 1], states[n], dues[n - 1], Log(dues[..n - 1]));
    }
  }

  lemma StartKept(dues: seq<seq<Execution>>)
    ensures Kept([], Log(dues[..0])) && AllRemembered([], Log(dues[..0]))
  {
    NothingLogged();
  }

  /** And it holds, wherever the clock jumps, as long as every task that was dispatched stays configured. */
  lemma StayingResumes(calls: seq<Call>, states: seq<seq<Entry>>, dues: seq<seq<Execution>>)
    requires Played(calls, states, dues) && Stays(states, dues)
    ensures Resumes(calls, states, dues)
  {
    hide Makes, Kept, AllRemembered, ResumesAt, Stays;
    forall n | 0 <= n < |calls| ensures ResumesAt(states[n], Log(dues[..n]), calls[n]) {
      StayingRemembers(calls, states, dues, n);
      RememberedResumes(states[n], Log(dues[..n]), calls[n]);
    }
  }

  // ---- and what happens when it does not ----

  function FirstEntry(task: TaskConfig, schedule: Schedule, slot: int): Entry { Entry(task, schedule, Some(slot), None) }

  lemma Configured(task: TaskConfig, schedule: Schedule, appliedAt: int, slot: int)
    requires Schedulable(task) && Denotes(Fields(task.schedule), schedule) && WellFormed(schedule)
    requires NextSlot(schedule, appliedAt) == Some(slot)
    ensures Makes([], Replace([task], appliedAt), [FirstEntry(task, schedule, slot)], [])
  {
    hide Denotes, NextSlot, IsSlotOf, Schedulable;
    NextSlotIsLater(schedule, appliedAt);
    var after := [FirstEntry(task, schedule, slot)];
    assert after[..0] == [];
    assert EntryOk(after[0]);
    forall id ensures FindEntry(after, id).Some? <==> Listed([task], id) {
      assert [task][0] == task;
    }
  }

  lemma DispatchedOnce(task: TaskConfig, schedule: Schedule, slot: int)
    requires WellFormed(schedule)
    ensures var e := FirstEntry(task, schedule, slot);
            Makes([e], Collect(slot), [Marked(e)], [Execution(task, slot)])
  {
    hide NextSlot, UtcMinute;
    var e := FirstEntry(task, schedule, slot);
    forall x ensures x in [Execution(task, slot)] <==> DueFromSome(x, [e], 1, slot) {
      assert DueFrom(x, [e][0], slot) <==> x == Execution(task, slot);
    }
  }

  /** For every task and every time: if the Agent restarts after the next slot was dispatched, and the clock is then back at
      that time, the same slot is dispatched again. */
  lemma ClockBackRepeatsSlot(task: TaskConfig, schedule: Schedule, appliedAt: int, slot: int)
    returns (calls: seq<Call>, states: seq<seq<Entry>>, dues: seq<seq<Execution>>)
    requires Schedulable(task) && Denotes(Fields(task.schedule), schedule) && WellFormed(schedule)
    requires NextSlot(schedule, appliedAt) == Some(slot)
    ensures Played(calls, states, dues) && !ClockRises(calls)
    ensures Log(dues) == [Execution(task, slot), Execution(task, slot)]
  {
    hide Makes, Denotes, NextSlot, Schedulable, WellFormed, Log, Played;
    var e, x := FirstEntry(task, schedule, slot), Execution(task, slot);
    var marked := Marked(e);
    calls := [Replace([task], appliedAt), Collect(slot), Restart, Replace([task], appliedAt), Collect(slot)];
    states := [[], [e], [marked], [], [e], [marked]];
    dues := [[], [x], [], [], [x]];
    Configured(task, schedule, appliedAt, slot);
    DispatchedOnce(task, schedule, slot);
    Restarts([marked]);
    PlayedFive(calls, states, dues);
    NextSlotIsLater(schedule, appliedAt);
    assert calls[1].now > calls[3].appliedAt;
    LoggedTwice(x);
  }

  lemma PlayedFive(calls: seq<Call>, states: seq<seq<Entry>>, dues: seq<seq<Execution>>)
    requires |calls| == |dues| == 5 && |states| == 6 && states[0] == []
    requires Makes(states[0], calls[0], states[1], dues[0]) && Makes(states[1], calls[1], states[2], dues[1])
    requires Makes(states[2], calls[2], states[3], dues[2]) && Makes(states[3], calls[3], states[4], dues[3])
    requires Makes(states[4], calls[4], states[5], dues[4])
    ensures Played(calls, states, dues)
  {
    hide Makes;
    forall i | 0 <= i < 5 ensures Makes(states[i], calls[i], states[i + 1], dues[i]) {
      assert i == 0 || i == 1 || i == 2 || i == 3 || i == 4;
    }
  }

  lemma LoggedTwice(x: Execution)
    ensures Log([[], [x], [], [], [x]]) == [x, x]
  {
    var dues := [[], [x], [], [], [x]];
    LogStep(dues, 0);
    LogStep(dues, 1);
    LogStep(dues, 2);
    LogStep(dues, 3);
    LogStep(dues, 4);
    assert dues[..5] == dues && dues[..0] == [];
  }

  lemma Restarts(before: seq<Entry>)
    ensures Makes(before, Restart, [], [])
  {
  }
}
