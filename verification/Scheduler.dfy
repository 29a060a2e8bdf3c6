/**
 The scheduler's bookkeeping of time slots. Clock readings are parameters, so the clock may jump either way between any
 two of them; configurations may be replaced between any two calls, and execution may take any time.
 */
module Scheduler {
  import opened Messages
  import opened Decimals
  import opened Calendar
  import opened Cron

  // ---- comparisons ----

  function SameQcRule(a: QcRule, b: QcRule): bool { a.id == b.id && a.ruleType == b.ruleType && a.config == b.config }

  /** Everything that matters to an execution; a new name alone changes nothing. */
  predicate SameExecutionConfig(a: TaskConfig, b: TaskConfig) {
    && a.id == b.id && a.node == b.node && a.taskType == b.taskType && a.schedule == b.schedule
    && a.parserType == b.parserType
    && a.dataSourceId == b.dataSourceId && a.dataSource.id == b.dataSource.id && a.dataSource.node == b.dataSource.node
    && a.dataSource.sourceType == b.dataSource.sourceType && a.dataSource.config == b.dataSource.config
    && |a.qcRules| == |b.qcRules| && forall i :: 0 <= i < |a.qcRules| ==> SameQcRule(a.qcRules[i], b.qcRules[i])
  }

  /** A configuration without what an execution does not depend on: names, the profile and the flag. */
  function Nameless(t: TaskConfig): TaskConfig {
    t.(name := "", qcProfile := "", enabled := true, dataSource := t.dataSource.(name := ""),
       qcRules := seq(|t.qcRules|, i requires 0 <= i < |t.qcRules| => t.qcRules[i].(name := "")))
  }

  /** Whatever else changes is noticed: an id, the node, the type, the schedule, the parser, the data source or a rule. */
  lemma SameExecutionIff(a: TaskConfig, b: TaskConfig)
    ensures SameExecutionConfig(a, b) <==> Nameless(a) == Nameless(b)
  {
    if SameExecutionConfig(a, b) {
      forall i | 0 <= i < |a.qcRules| ensures Nameless(a).qcRules[i] == Nameless(b).qcRules[i] {
        assert SameQcRule(a.qcRules[i], b.qcRules[i]);
      }
      assert Nameless(a).qcRules == Nameless(b).qcRules;
    }
    if Nameless(a) == Nameless(b) {
      assert |Nameless(a).qcRules| == |a.qcRules| && |Nameless(b).qcRules| == |b.qcRules|;
      assert Nameless(a).dataSource == Nameless(b).dataSource;
      forall i | 0 <= i < |a.qcRules| ensures SameQcRule(a.qcRules[i], b.qcRules[i]) {
        assert Nameless(a).qcRules[i] == Nameless(b).qcRules[i];
      }
    }
  }

  predicate Numeric(id: string) { id != "" && forall i :: 0 <= i < |id| ==> IsDigit(id[i]) }

  function Normalized(id: string): (r: string)
    ensures r != ""
  {
    if id == "" then "0" else if id[0] == '0' then Normalized(id[1..]) else id
  }

  /** std::string comparison: a proper prefix comes first. */
  predicate StringLess(a: string, b: string) {
    b != "" && (a == "" || a[0] < b[0] || (a[0] == b[0] && StringLess(a[1..], b[1..])))
  }

  predicate TaskIdLess(a: string, b: string) {
    if Numeric(a) && Numeric(b) && |Normalized(a)| != |Normalized(b)| then |Normalized(a)| < |Normalized(b)|
    else if Numeric(a) && Numeric(b) && Normalized(a) != Normalized(b) then StringLess(Normalized(a), Normalized(b))
    else StringLess(a, b)
  }

  lemma {:induction false} StringLessIrreflexive(a: string)
    ensures !StringLess(a, a)
  {
    if a != "" {
      StringLessIrreflexive(a[1..]);
    }
  }

  lemma {:induction false} StringLessOrder(a: string, b: string, c: string)
    ensures StringLess(a, b) && StringLess(b, c) ==> StringLess(a, c)
    ensures StringLess(a, b) || StringLess(b, a) || a == b
    decreases |a| + |b| + |c|
  {
    if a != "" && b != "" {
      assert a == [a[0]] + a[1..] && b == [b[0]] + b[1..];
      if c != "" {
        StringLessOrder(a[1..], b[1..], c[1..]);
      } else {
        StringLessOrder(a[1..], b[1..], c);
      }
    }
  }

  lemma {:induction false} StringLessIsLexLess(a: string, b: string)
    requires |a| == |b|
    ensures StringLess(a, b) <==> LexLess(a, b)
  {
    if a != "" {
      StringLessIsLexLess(a[1..], b[1..]);
    }
  }

  lemma {:induction false} ReadPrepended(c: char, text: string)
    requires IsDigit(c) && AllDigits(text)
    ensures AllDigits([c] + text)
    ensures c == '0' ==> Read([c] + text) == Read(text)
    ensures c != '0' ==> Read([c] + text) >= Power(|text|)
  {
    if text == "" {
      assert ([c] + text)[..0] == "" && ([c] + text)[0] == c;
    } else {
      var n := |text| - 1;
      ReadPrepended(c, text[..n]);
      assert ([c] + text)[..n + 1] == [c] + text[..n] && ([c] + text)[n + 1] == text[n];
    }
  }

  lemma {:induction false} PowerGrows(m: nat, n: nat)
    requires m <= n
    ensures Power(m) <= Power(n)
  {
    if m < n {
      PowerGrows(m, n - 1);
    }
  }

  /** Leading zeros carry no value; what is left is "0" or starts with another digit. */
  lemma {:induction false} NormalizedValue(id: string)
    requires forall i :: 0 <= i < |id| ==> IsDigit(id[i])
    ensures AllDigits(Normalized(id)) && Read(Normalized(id)) == Read(id)
    ensures Normalized(id) == "0" || Normalized(id)[0] != '0'
  {
    if id == "" {
      assert "0"[..0] == "" && Read("0") == 0;
    } else if id[0] == '0' {
      NormalizedValue(id[1..]);
      ReadPrepended('0', id[1..]);
      assert id == ['0'] + id[1..];
    }
  }

  lemma LongerIsLarger(a: string, b: string)
    requires AllDigits(a) && AllDigits(b) && a != "" && |a| < |b| && b[0] != '0'
    ensures Read(a) < Read(b)
  {
    ReadBound(a);
    ReadPrepended(b[0], b[1..]);
    assert b == [b[0]] + b[1..];
    PowerGrows(|a|, |b| - 1);
  }

  /** On numeric ids the comparison is by value, and by spelling where leading zeros make values equal. */
  lemma NumericIdOrder(a: string, b: string)
    requires Numeric(a) && Numeric(b)
    ensures TaskIdLess(a, b) <==> Read(a) < Read(b) || (Read(a) == Read(b) && StringLess(a, b))
  {
    NormalizedValue(a);
    NormalizedValue(b);
    var x, y := Normalized(a), Normalized(b);
    if |x| < |y| {
      LongerIsLarger(x, y);
    } else if |y| < |x| {
      LongerIsLarger(y, x);
    } else {
      StringLessIsLexLess(x, y);
      NumeralOrder(x, y);
    }
  }

  /** So it is a strict total order on numeric ids, which is what sorting needs. */
  lemma TaskIdLessIsTotalOnNumericIds(a: string, b: string, c: string)
    requires Numeric(a) && Numeric(b) && Numeric(c)
    ensures !TaskIdLess(a, a)
    ensures TaskIdLess(a, b) && TaskIdLess(b, c) ==> TaskIdLess(a, c)
    ensures TaskIdLess(a, b) || TaskIdLess(b, a) || a == b
  {
    hide TaskIdLess, StringLess, Read, Numeric;
    NumericIdOrder(a, a);
    NumericIdOrder(a, b);
    NumericIdOrder(b, a);
    NumericIdOrder(b, c);
    NumericIdOrder(a, c);
    StringLessIrreflexive(a);
    StringLessOrder(a, b, c);
    StringLessOrder(b, a, c);
  }

  /** With other ids it is not even an order: a cycle of three. */
  lemma TaskIdLessCycles()
    ensures TaskIdLess("9", "10") && TaskIdLess("10", "1a") && TaskIdLess("1a", "9")
  {
    assert Normalized("9") == "9" && Normalized("10") == "10";
    assert Numeric("9") && Numeric("10") && "1a"[1] == 'a' && !Numeric("1a");
    assert "10"[1..] == "0" && "1a"[1..] == "a";
    assert StringLess("0", "a") && StringLess("10", "1a") && StringLess("1a", "9");
  }

  lemma BySpelling(a: string, b: string)
    ensures !Numeric(a) || !Numeric(b) ==> (TaskIdLess(a, b) <==> StringLess(a, b))
  {
    hide StringLess;
  }

  /** Of two different ids exactly one comes first. */
  lemma TaskIdLessDecides(a: string, b: string)
    ensures !TaskIdLess(a, a) && (TaskIdLess(a, b) || TaskIdLess(b, a) || a == b) && !(TaskIdLess(a, b) && TaskIdLess(b, a))
  {
    hide TaskIdLess, StringLess, Numeric;
    if Numeric(a) {
      TaskIdLessIsTotalOnNumericIds(a, a, a);
    } else {
      BySpelling(a, a);
      StringLessIrreflexive(a);
    }
    if Numeric(a) && Numeric(b) {
      TaskIdLessIsTotalOnNumericIds(a, b, a);
    } else {
      BySpelling(a, b);
      BySpelling(b, a);
      StringLessOrder(a, b, a);
      StringLessIrreflexive(a);
    }
  }

  /** Two numbers, the smaller one first, with another id between them the other way round by spelling. */
  predicate Straddled(a: string, b: string, c: string) {
    Numeric(a) && Numeric(b) && !Numeric(c) && TaskIdLess(a, b) && StringLess(b, c) && StringLess(c, a)
  }

  /** Every cycle of three ids is one that is straddled. */
  lemma CyclesAreStraddled(a: string, b: string, c: string)
    ensures TaskIdLess(a, b) && TaskIdLess(b, c) && TaskIdLess(c, a)
            <==> Straddled(a, b, c) || Straddled(b, c, a) || Straddled(c, a, b)
  {
    hide TaskIdLess, StringLess, Numeric;
    StringLessOrder(a, b, c);
    StringLessOrder(a, c, a);
    StringLessIrreflexive(a);
    if Numeric(a) && Numeric(b) && Numeric(c) {
      TaskIdLessIsTotalOnNumericIds(a, b, c);
      TaskIdLessDecides(a, c);
    } else {
      BySpelling(a, b);
      BySpelling(b, c);
      BySpelling(c, a);
    }
  }

  ghost predicate StrictTotalOrder(ids: iset<string>) {
    && (forall a :: a in ids ==> !TaskIdLess(a, a))
    && (forall a, b :: a in ids && b in ids ==> TaskIdLess(a, b) || TaskIdLess(b, a) || a == b)
    && (forall a, b, c :: a in ids && b in ids && c in ids && TaskIdLess(a, b) && TaskIdLess(b, c) ==> TaskIdLess(a, c))
  }

  /** Exactly when the comparison is a strict total order on a set of ids: when no two numbers of it are straddled. */
  lemma TaskIdLessIsOrderIff(ids: iset<string>)
    ensures StrictTotalOrder(ids) <==> forall a, b, c :: a in ids && b in ids && c in ids ==> !Straddled(a, b, c)
  {
    hide TaskIdLess, Straddled;
    forall a, b ensures !TaskIdLess(a, a) && (TaskIdLess(a, b) || TaskIdLess(b, a) || a == b) {
      TaskIdLessDecides(a, b);
    }
    forall a, b, c
      ensures TaskIdLess(a, b) && TaskIdLess(b, c) && TaskIdLess(c, a)
              <==> Straddled(a, b, c) || Straddled(b, c, a) || Straddled(c, a, b)
      ensures !(TaskIdLess(a, b) && TaskIdLess(b, a))
    {
      CyclesAreStraddled(a, b, c);
      TaskIdLessDecides(a, b);
    }
  }

  // ---- entries ----

  datatype Entry = Entry(config: TaskConfig, schedule: Schedule, nextSlot: Option<int>, lastSlot: Option<int>)

  /** One decision to dispatch: the slot, the schedule of that moment, and the clock reading. */
  datatype Decision = Decision(slot: int, schedule: Schedule, at: int)

  datatype Execution = Execution(task: TaskConfig, scheduledFor: int)

  datatype PendingExecution = PendingExecution(taskId: string, executionKey: string)

  function UtcMinute(time: int): int { TruncatedDiv(time, MINUTE) }

  ghost predicate IsSlotOf(s: Schedule, slot: int) { WellFormed(s) && slot % MINUTE == 0 && Matches(s, slot / MINUTE) }

  /** The invariant of the bookkeeping: the next slot is later than the last one dispatched. */
  ghost predicate EntryOk(e: Entry) {
    && WellFormed(e.schedule) && Denotes(Fields(e.config.schedule), e.schedule)
    && (e.nextSlot.Some? ==> IsSlotOf(e.schedule, e.nextSlot.value))
    && (e.nextSlot.Some? && e.lastSlot.Some? ==> e.nextSlot.value > e.lastSlot.value)
  }

  /** Slots strictly increase, each matches the schedule it was dispatched under, and each was dispatched in its own
      minute, not before it began. */
  ghost predicate HistoryOk(history: seq<Decision>) {
    && (forall i :: 0 <= i < |history| ==>
          IsSlotOf(history[i].schedule, history[i].slot) && history[i].slot <= history[i].at
          && UtcMinute(history[i].slot) == UtcMinute(history[i].at))
    && (forall i, j :: 0 <= i < j < |history| ==> history[i].slot < history[j].slot)
  }

  ghost predicate Remembers(e: Entry, history: seq<Decision>) {
    e.lastSlot == if history == [] then None else Some(history[|history| - 1].slot)
  }

  /** A slot whose minute is over is skipped, never made up for. */
  function Skipped(e: Entry, now: int): Entry
    requires WellFormed(e.schedule)
  {
    if e.nextSlot.Some? && UtcMinute(e.nextSlot.value) < UtcMinute(now) then e.(nextSlot := NextSlot(e.schedule, now)) else e
  }

  predicate IsDue(e: Entry, now: int) {
    e.nextSlot.Some? && e.nextSlot.value <= now && UtcMinute(e.nextSlot.value) == UtcMinute(now)
  }

  function Marked(e: Entry): Entry
    requires WellFormed(e.schedule) && e.nextSlot.Some?
  {
    e.(lastSlot := e.nextSlot, nextSlot := NextSlot(e.schedule, e.nextSlot.value))
  }

  /** After the round, slots that came and went while it was executing are skipped. */
  function CaughtUp(e: Entry, completedAt: int): Entry
    requires WellFormed(e.schedule)
  {
    if e.nextSlot.Some? && e.nextSlot.value <= completedAt then e.(nextSlot := NextSlot(e.schedule, completedAt)) else e
  }

  lemma NextSlotIsLater(s: Schedule, time: int)
    requires WellFormed(s)
    ensures NextSlot(s, time).Some? ==> NextSlot(s, time).value > time && IsSlotOf(s, NextSlot(s, time).value)
  {
    hide Matches;
    NextMinuteIsLeast(time);
    if NextSlot(s, time).Some? {
      var t := NextSlot(s, time).value;
      assert t == (t / MINUTE) * MINUTE && t / MINUTE >= NextMinute(time);
    }
  }

  lemma TruncationIsMonotone(a: int, b: int)
    requires a >= b
    ensures UtcMinute(a) >= UtcMinute(b)
  {
  }

  lemma EarlierMinute(a: int, b: int)
    requires UtcMinute(a) < UtcMinute(b)
    ensures a < b
  {
    hide UtcMinute;
    if a >= b {
      TruncationIsMonotone(a, b);
    }
  }

  lemma EntryKept(e: Entry, now: int)
    requires EntryOk(e)
    ensures EntryOk(Skipped(e, now)) && EntryOk(CaughtUp(e, now))
    ensures e.nextSlot.Some? ==> EntryOk(Marked(e))
  {
    hide IsSlotOf, Denotes, NextSlot, UtcMinute;
    NextSlotIsLater(e.schedule, now);
    if e.nextSlot.Some? {
      NextSlotIsLater(e.schedule, e.nextSlot.value);
      if UtcMinute(e.nextSlot.value) < UtcMinute(now) {
        EarlierMinute(e.nextSlot.value, now);
      }
    }
  }

  lemma SameMinuteEnds(slot: int, now: int, next: int)
    requires slot % MINUTE == 0 && next % MINUTE == 0 && slot <= now && next > slot && UtcMinute(slot) == UtcMinute(now)
    ensures next > now
  {
  }

  /** One look at the clock, case by case: a slot that is to come is left; one in this minute is dispatched, and the next one
      comes after it; one whose minute is over is skipped, for the next one after the clock. Whatever it was, the next slot is
      then later than the clock. */
  lemma LookExactly(e: Entry, now: int)
    requires EntryOk(e)
    ensures var after := Advanced(e, now);
            var due := IsDue(Skipped(e, now), now);
            && after.config == e.config && after.schedule == e.schedule
            && (due <==> e.nextSlot.Some? && e.nextSlot.value <= now && UtcMinute(e.nextSlot.value) == UtcMinute(now))
            && after.lastSlot == (if due then e.nextSlot else e.lastSlot)
            && after.nextSlot == (if due then NextSlot(e.schedule, e.nextSlot.value)
                                  else if e.nextSlot.Some? && e.nextSlot.value <= now then NextSlot(e.schedule, now)
                                  else e.nextSlot)
            && (after.nextSlot.Some? ==> after.nextSlot.value > now)
  {
    hide Matches, NextSlot, Denotes, UtcMinute;
    NextSlotIsLater(e.schedule, now);
    if e.nextSlot.Some? {
      var slot := e.nextSlot.value;
      NextSlotIsLater(e.schedule, slot);
      if UtcMinute(slot) < UtcMinute(now) {
        EarlierMinute(slot, now);
      } else if slot <= now {
        TruncationIsMonotone(now, slot);
        if NextSlot(e.schedule, slot).Some? {
          SameMinuteEnds(slot, now, NextSlot(e.schedule, slot).value);
        }
      }
    }
  }

  /** After a round every next slot is later than its end: a slot that came and went meanwhile is given up for the next one
      after it, and any other is left. */
  lemma RoundExactly(e: Entry, completedAt: int)
    requires EntryOk(e)
    ensures var after := CaughtUp(e, completedAt);
            && after == e.(nextSlot := after.nextSlot)
            && after.nextSlot == (if e.nextSlot.Some? && e.nextSlot.value <= completedAt then NextSlot(e.schedule, completedAt)
                                  else e.nextSlot)
            && (after.nextSlot.Some? ==> after.nextSlot.value > completedAt)
  {
    hide Matches, NextSlot, Denotes;
    NextSlotIsLater(e.schedule, completedAt);
  }

  lemma HistoryGrows(e: Entry, history: seq<Decision>, now: int)
    requires EntryOk(e) && HistoryOk(history) && Remembers(e, history) && IsDue(e, now)
    ensures var longer := history + [Decision(e.nextSlot.value, e.schedule, now)];
            HistoryOk(longer) && Remembers(Marked(e), longer)
  {
    hide IsSlotOf, Denotes, NextSlot, UtcMinute;
    var longer := history + [Decision(e.nextSlot.value, e.schedule, now)];
    if history != [] {
      assert history[|history| - 1].slot < e.nextSlot.value;
    }
    forall i, j | 0 <= i < j < |longer| ensures longer[i].slot < longer[j].slot {
      if j == |history| && i < |history| - 1 {
        assert history[i].slot < history[|history| - 1].slot;
      }
    }
  }

  // ---- order of execution ----

  predicate ExecutedBefore(a: Execution, b: Execution) {
    a.scheduledFor < b.scheduledFor || (a.scheduledFor == b.scheduledFor && TaskIdLess(a.task.id, b.task.id))
  }

  ghost predicate InOrder(due: seq<Execution>) {
    forall i, j :: 0 <= i < j < |due| ==> !ExecutedBefore(due[j], due[i])
  }

  /** No three executions of one slot have ids that straddle each other. */
  ghost predicate Comparable(due: seq<Execution>) {
    forall x, y, z :: x in due && y in due && z in due && x.scheduledFor == y.scheduledFor == z.scheduledFor ==>
      !Straddled(x.task.id, y.task.id, z.task.id)
  }

  predicate NumericIds(due: seq<Execution>) { forall x :: x in due ==> Numeric(x.task.id) }

  /** With numbers for ids every list is comparable. */
  lemma NumericIdsAreComparable(due: seq<Execution>)
    requires NumericIds(due)
    ensures Comparable(due)
  {
    hide Numeric, TaskIdLess, StringLess;
  }

  lemma ExecutedBeforeDecides(a: Execution, b: Execution)
    ensures !(ExecutedBefore(a, b) && ExecutedBefore(b, a))
    ensures ExecutedBefore(a, b) || ExecutedBefore(b, a) || (a.scheduledFor == b.scheduledFor && a.task.id == b.task.id)
  {
    hide TaskIdLess;
    TaskIdLessDecides(a.task.id, b.task.id);
  }

  lemma NoCycleOfThree(due: seq<Execution>, a: Execution, b: Execution, c: Execution)
    requires Comparable(due) && a in due && b in due && c in due
    ensures !(ExecutedBefore(a, b) && ExecutedBefore(b, c) && ExecutedBefore(c, a))
  {
    hide TaskIdLess, Straddled;
    CyclesAreStraddled(a.task.id, b.task.id, c.task.id);
  }

  lemma ExecutedBeforeTransitive(due: seq<Execution>, a: Execution, b: Execution, c: Execution)
    requires Comparable(due) && a in due && b in due && c in due
    requires !ExecutedBefore(b, a) && !ExecutedBefore(c, b)
    ensures !ExecutedBefore(c, a)
  {
    hide TaskIdLess, Comparable;
    ExecutedBeforeDecides(a, b);
    ExecutedBeforeDecides(b, c);
    NoCycleOfThree(due, a, b, c);
  }

  lemma SameComparable(a: seq<Execution>, b: seq<Execution>)
    requires multiset(a) == multiset(b) && Comparable(a)
    ensures Comparable(b)
  {
    hide Straddled;
    assert forall x :: x in b ==> x in multiset(b);
    assert forall x :: x in multiset(a) ==> x in a;
  }

  predicate OnePerTask(due: seq<Execution>) { forall i, j :: 0 <= i < j < |due| ==> due[i].task.id != due[j].task.id }

  /** Puts one execution in its place among those before it. */
  method Insert(due: seq<Execution>, execution: Execution) returns (longer: seq<Execution>)
    ensures multiset(longer) == multiset(due) + multiset{execution}
    ensures InOrder(due) && Comparable(due + [execution]) ==> InOrder(longer)
    ensures OnePerTask(due + [execution]) ==> OnePerTask(longer)
  {
    hide ExecutedBefore, Comparable, OnePerTask;
    var at := |due|;
    while at > 0 && ExecutedBefore(execution, due[at - 1])
      invariant 0 <= at <= |due|
      invariant forall k :: at <= k < |due| ==> ExecutedBefore(execution, due[k])
    {
      at := at - 1;
    }
    longer := due[..at] + [execution] + due[at..];
    assert due == due[..at] + due[at..];
    if InOrder(due) && Comparable(due + [execution]) {
      InsertedInOrder(due, execution, at);
    }
    if OnePerTask(due + [execution]) {
      InsertedOnePerTask(due, execution, at);
    }
  }

  lemma InsertedOnePerTask(due: seq<Execution>, execution: Execution, at: nat)
    requires at <= |due| && OnePerTask(due + [execution])
    ensures OnePerTask(due[..at] + [execution] + due[at..])
  {
    var longer := due[..at] + [execution] + due[at..];
    forall i, j | 0 <= i < j < |longer| ensures longer[i].task.id != longer[j].task.id {
      var x := if i < at then i else if i == at then |due| else i - 1;
      var y := if j < at then j else if j == at then |due| else j - 1;
      assert longer[i] == (due + [execution])[x] && longer[j] == (due + [execution])[y];
    }
  }

  lemma InsertedInOrder(due: seq<Execution>, execution: Execution, at: nat)
    requires at <= |due| && InOrder(due) && Comparable(due + [execution])
    requires at > 0 ==> !ExecutedBefore(execution, due[at - 1])
    requires forall k :: at <= k < |due| ==> ExecutedBefore(execution, due[k])
    ensures InOrder(due[..at] + [execution] + due[at..])
  {
    hide ExecutedBefore, Comparable;
    var longer := due[..at] + [execution] + due[at..];
    forall k | 0 <= k < at ensures !ExecutedBefore(execution, due[k]) {
      if k < at - 1 {
        ExecutedBeforeTransitive(due + [execution], due[k], due[at - 1], execution);
      }
    }
    forall k | at <= k < |due| ensures !ExecutedBefore(due[k], execution) {
      ExecutedBeforeDecides(execution, due[k]);
    }
    forall i, j | 0 <= i < j < |longer| ensures !ExecutedBefore(longer[j], longer[i]) {
      var x, y := if i <= at then i else i - 1, if j <= at then j else j - 1;
      assert i != at ==> longer[i] == due[x];
      assert j != at ==> longer[j] == due[y];
    }
  }

  /** Three straddling executions of one slot are in order nowhere: whichever comes first, one of the others should. */
  lemma StraddledIsOutOfOrder(due: seq<Execution>, x: Execution, y: Execution, z: Execution)
    requires x in due && y in due && z in due && x.scheduledFor == y.scheduledFor == z.scheduledFor
    requires Straddled(x.task.id, y.task.id, z.task.id)
    ensures !InOrder(due)
  {
    hide TaskIdLess, Straddled;
    CyclesAreStraddled(x.task.id, y.task.id, z.task.id);
    TaskIdLessDecides(x.task.id, y.task.id);
    TaskIdLessDecides(y.task.id, z.task.id);
    TaskIdLessDecides(z.task.id, x.task.id);
    var i :| 0 <= i < |due| && due[i] == x;
    var j :| 0 <= j < |due| && due[j] == y;
    var k :| 0 <= k < |due| && due[k] == z;
    assert ExecutedBefore(due[i], due[j]) && ExecutedBefore(due[j], due[k]) && ExecutedBefore(due[k], due[i]);
    assert i != j && j != k && k != i;
  }

  lemma InOrderIsComparable(due: seq<Execution>)
    requires InOrder(due)
    ensures Comparable(due)
  {
    hide InOrder, Straddled;
    forall x, y, z | x in due && y in due && z in due && x.scheduledFor == y.scheduledFor == z.scheduledFor
      ensures !Straddled(x.task.id, y.task.id, z.task.id)
    {
      if Straddled(x.task.id, y.task.id, z.task.id) {
        StraddledIsOutOfOrder(due, x, y, z);
      }
    }
  }

  lemma PrefixComparable(due: seq<Execution>, sorted: seq<Execution>, i: nat)
    requires Comparable(due) && i < |due| && multiset(sorted) == multiset(due[..i])
    ensures Comparable(sorted + [due[i]])
  {
    hide Straddled;
    forall x | x in sorted + [due[i]] ensures x in due {
      if x in sorted {
        assert x in multiset(sorted);
        assert x in due[..i];
      }
    }
  }

  /** Sorts the due executions by slot and then by task id. The result is in order if and only if they are comparable; if
      they are not, no list of them would be. */
  method SortDue(due: seq<Execution>) returns (sorted: seq<Execution>)
    ensures multiset(sorted) == multiset(due)
    ensures InOrder(sorted) <==> Comparable(due)
    ensures NumericIds(due) ==> InOrder(sorted)
    ensures OnePerTask(due) ==> OnePerTask(sorted)
  {
    hide InOrder, Comparable, NumericIds, OnePerTask;
    assert OnePerTask([]) by { EmptyInOrder(); }
    sorted := [];
    assert InOrder([]) by { EmptyInOrder(); }
    for i := 0 to |due|
      invariant multiset(sorted) == multiset(due[..i])
      invariant Comparable(due) ==> InOrder(sorted)
      invariant OnePerTask(due) ==> OnePerTask(sorted)
    {
      assert due[..i + 1] == due[..i] + [due[i]];
      if Comparable(due) {
        PrefixComparable(due, sorted, i);
      }
      if OnePerTask(due) && OnePerTask(sorted) {
        PrefixOnePerTask(due, sorted, i);
      }
      sorted := Insert(sorted, due[i]);
    }
    assert due[..|due|] == due;
    if InOrder(sorted) {
      InOrderIsComparable(sorted);
      SameComparable(sorted, due);
    }
    if NumericIds(due) {
      NumericIdsAreComparable(due);
    }
  }

  lemma PrefixOnePerTask(due: seq<Execution>, sorted: seq<Execution>, i: nat)
    requires OnePerTask(due) && OnePerTask(sorted) && i < |due| && multiset(sorted) == multiset(due[..i])
    ensures OnePerTask(sorted + [due[i]])
  {
    forall k | 0 <= k < |sorted| ensures sorted[k].task.id != due[i].task.id {
      assert sorted[k] in multiset(sorted);
      assert sorted[k] in due[..i];
    }
  }

  lemma EmptyInOrder()
    ensures InOrder([]) && OnePerTask([])
  {
  }

  // ---- the scheduler ----

  predicate DistinctIds(entries: seq<Entry>) {
    forall i, j :: 0 <= i < j < |entries| ==> entries[i].config.id != entries[j].config.id
  }

  function FindEntry(entries: seq<Entry>, id: string): (at: Option<nat>)
    ensures at.Some? ==> at.value < |entries| && entries[at.value].config.id == id
    ensures at.None? ==> forall i :: 0 <= i < |entries| ==> entries[i].config.id != id
  {
    if entries == [] then None
    else if entries[|entries| - 1].config.id == id then Some(|entries| - 1)
    else FindEntry(entries[..|entries| - 1], id)
  }

  /** A task enters the projection when it is enabled, has an id and a valid schedule. */
  ghost predicate Schedulable(task: TaskConfig) { task.enabled && task.id != "" && ValidExpression(task.schedule) }

  ghost predicate Listed(tasks: seq<TaskConfig>, id: string) {
    exists i :: 0 <= i < |tasks| && tasks[i].id == id && Schedulable(tasks[i])
  }

  /** The bookkeeping of all entries, with the decisions made for each task since it is in the configuration. */
  ghost predicate SlotsOk(entries: seq<Entry>, history: map<string, seq<Decision>>) {
    && DistinctIds(entries)
    && forall i :: 0 <= i < |entries| ==> SlotOk(entries[i], history)
  }

  ghost predicate SlotOk(e: Entry, history: map<string, seq<Decision>>) {
    EntryOk(e) && e.config.id in history && HistoryOk(history[e.config.id]) && Remembers(e, history[e.config.id])
  }

  /** What one look at the clock makes of an entry. */
  function Advanced(e: Entry, now: int): Entry
    requires WellFormed(e.schedule)
  {
    if IsDue(Skipped(e, now), now) then Marked(Skipped(e, now)) else Skipped(e, now)
  }

  /** The execution that one look at the clock gives for an entry. */
  predicate DueFrom(x: Execution, e: Entry, now: int)
    requires WellFormed(e.schedule)
  {
    IsDue(Skipped(e, now), now) && x == Execution(e.config, Skipped(e, now).nextSlot.value)
  }

  ghost predicate DueFromSome(x: Execution, entries: seq<Entry>, n: nat, now: int)
    requires n <= |entries| && forall i :: 0 <= i < |entries| ==> WellFormed(entries[i].schedule)
  {
    exists i :: 0 <= i < n && DueFrom(x, entries[i], now)
  }

  method AdvanceEntry(e: Entry, now: int) returns (advanced: Entry, due: bool)
    requires WellFormed(e.schedule)
    ensures advanced == Advanced(e, now) && due == IsDue(Skipped(e, now), now)
  {
    hide NextSlot, UtcMinute, Found;
    var entry := e;
    if entry.nextSlot.Some? && UtcMinute(entry.nextSlot.value) < UtcMinute(now) {
      var next := NextAfter(entry.schedule, now);
      entry := entry.(nextSlot := next);
    }
    due := IsDue(entry, now);
    if due {
      var following := NextAfter(entry.schedule, entry.nextSlot.value);
      entry := entry.(lastSlot := entry.nextSlot, nextSlot := following);
    }
    return entry, due;
  }

  /** A decision is in its own minute, later than every earlier one, and leaves the bookkeeping in order. */
  lemma AdvanceKeepsSlot(e: Entry, history: map<string, seq<Decision>>, now: int)
    requires SlotOk(e, history)
    ensures var s := Skipped(e, now);
            var id := e.config.id;
            SlotOk(Advanced(e, now), if IsDue(s, now) then history[id := history[id] + [Decision(s.nextSlot.value, s.schedule, now)]] else history)
  {
    hide IsSlotOf, NextSlot, UtcMinute, HistoryOk, Denotes;
    EntryKept(e, now);
    var s := Skipped(e, now);
    if IsDue(s, now) {
      HistoryGrows(s, history[e.config.id], now);
      EntryKept(s, now);
    }
  }

  /** The entry of a configured task: the old one under its new config when the execution is the same; otherwise its next
      slot comes after both the clock and the last slot dispatched, whichever is later. */
  ghost predicate Derived(e: Entry, before: seq<Entry>, appliedAt: int) {
    && WellFormed(e.schedule)
    && var prior := FindEntry(before, e.config.id);
       if prior.Some? && SameExecutionConfig(before[prior.value].config, e.config) then e == before[prior.value].(config := e.config)
       else
         && e.lastSlot == (if prior.Some? then before[prior.value].lastSlot else None)
         && e.nextSlot == NextSlot(e.schedule, if e.lastSlot.Some? && e.lastSlot.value > appliedAt then e.lastSlot.value else appliedAt)
  }

  /** The entry of a task that stays in the configuration or enters it. */
  method NewEntry(entries: seq<Entry>, ghost history: map<string, seq<Decision>>, task: TaskConfig,
                  schedule: Schedule, appliedAt: int)
    returns (entry: Entry)
    requires SlotsOk(entries, history) && Denotes(Fields(task.schedule), schedule)
    ensures entry.config == task && EntryOk(entry) && Derived(entry, entries, appliedAt)
    ensures var prior := if FindEntry(entries, task.id).Some? then history[task.id] else [];
            HistoryOk(prior) && Remembers(entry, prior)
  {
    hide IsSlotOf, Denotes, NextSlot, HistoryOk, ValidExpression;
    EmptyHistory();
    DenotesIsWellFormed(task, schedule);
    var prior := FindEntry(entries, task.id);
    if prior.Some? && SameExecutionConfig(entries[prior.value].config, task) {
      return entries[prior.value].(config := task);
    }
    var last := if prior.Some? then entries[prior.value].lastSlot else None;
    var base := if last.Some? && last.value > appliedAt then last.value else appliedAt;
    var next := NextAfter(schedule, base);
    NextSlotIsLater(schedule, base);
    return Entry(task, schedule, next, last);
  }

  lemma DenotesIsWellFormed(task: TaskConfig, schedule: Schedule)
    requires Denotes(Fields(task.schedule), schedule)
    ensures WellFormed(schedule)
  {
  }

  lemma SlotsOkAppend(entries: seq<Entry>, history: map<string, seq<Decision>>, entry: Entry, prior: seq<Decision>)
    requires SlotsOk(entries, history) && FindEntry(entries, entry.config.id).None?
    requires EntryOk(entry) && HistoryOk(prior) && Remembers(entry, prior)
    ensures SlotsOk(entries + [entry], history[entry.config.id := prior])
  {
    hide EntryOk, HistoryOk, Remembers;
    var longer, log := entries + [entry], history[entry.config.id := prior];
    forall i | 0 <= i < |longer| ensures SlotOk(longer[i], log) {
      if i < |entries| {
        assert SlotOk(entries[i], history) && entries[i].config.id != entry.config.id;
      }
    }
  }

  /** A task that was configured before keeps its history; one that was not starts anew, whatever it did long ago. */
  ghost predicate KeepsHistory(before: seq<Entry>, was: map<string, seq<Decision>>, after: map<string, seq<Decision>>) {
    forall id :: id in after ==>
      if FindEntry(before, id).Some? then id in was && after[id] == was[id] else after[id] == []
  }

  /** Histories only grow. */
  ghost predicate Extends(was: map<string, seq<Decision>>, after: map<string, seq<Decision>>) {
    forall id :: id in was ==> id in after && was[id] <= after[id]
  }

  // ---- what each call makes of the entries ----

  ghost predicate Replaced(before: seq<Entry>, tasks: seq<TaskConfig>, appliedAt: int, after: seq<Entry>) {
    && DistinctIds(after) && (forall id :: FindEntry(after, id).Some? <==> Listed(tasks, id))
    && forall k :: 0 <= k < |after| ==> EntryOk(after[k]) && Derived(after[k], before, appliedAt)
  }

  ghost predicate Collected(before: seq<Entry>, now: int, after: seq<Entry>, due: seq<Execution>) {
    && |after| == |before| && (forall i :: 0 <= i < |before| ==> WellFormed(before[i].schedule))
    && (forall i :: 0 <= i < |after| ==> after[i] == Advanced(before[i], now))
    && (forall x :: x in due <==> DueFromSome(x, before, |before|, now)) && OnePerTask(due)
  }

  ghost predicate Refreshed(before: seq<Entry>, completedAt: int, after: seq<Entry>) {
    && |after| == |before| && (forall i :: 0 <= i < |before| ==> WellFormed(before[i].schedule))
    && forall i :: 0 <= i < |after| ==> after[i] == CaughtUp(before[i], completedAt)
  }

  lemma EntriesOk(entries: seq<Entry>, history: map<string, seq<Decision>>)
    requires SlotsOk(entries, history)
    ensures DistinctIds(entries) && forall k :: 0 <= k < |entries| ==> EntryOk(entries[k])
  {
    hide EntryOk, HistoryOk, Remembers;
    forall k | 0 <= k < |entries| ensures EntryOk(entries[k]) {
      assert SlotOk(entries[k], history);
    }
  }

  datatype Replacement = Replacement(tasks: seq<TaskConfig>, candidates: seq<PendingExecution>, appliedAt: int)

  class TaskScheduler {
    var entries: seq<Entry>
    var pending: seq<PendingExecution>
    ghost var history: map<string, seq<Decision>>

    ghost predicate Valid()
      reads this
    {
      SlotsOk(entries, history)
    }

    constructor ()
      ensures Valid() && entries == [] && pending == []
    {
      entries := [];
      pending := [];
      history := map[];
    }

    /** Replaces the configuration. A task that stays keeps its history: with the same execution config also its next
        slot, otherwise the next slot is computed anew, after the last one dispatched whatever the clock says. */
    method ReplaceConfig(tasks: seq<TaskConfig>, candidates: seq<PendingExecution>, appliedAt: int)
      requires Valid()
      modifies this
      ensures Valid() && pending == candidates
      ensures Replaced(old(entries), tasks, appliedAt, entries)
      ensures KeepsHistory(old(entries), old(history), history)
    {
      hide SlotsOk, Derived, EntryOk, Listed, KeepsHistory;
      var replacement: seq<Entry>;
      ghost var kept: map<string, seq<Decision>>;
      replacement, kept := Projection(entries, history, tasks, appliedAt);
      EntriesOk(replacement, kept);
      entries, history := replacement, kept;
      pending := candidates;
    }

    /** One look at the clock: skips what is over, and marks what is due before anything is executed. */
    method CollectDue(now: int) returns (due: seq<Execution>)
      requires Valid()
      modifies this`entries, this`history
      ensures Valid() && Collected(old(entries), now, entries, due)
      ensures InOrder(due) <==> Comparable(due)
      ensures NumericIds(due) ==> InOrder(due)
      ensures Extends(old(history), history)
    {
      hide InOrder, Comparable, NumericIds, DueFromSome, SlotsOk, OnePerTask;
      SchedulesWellFormed(entries, history);
      var updated, found;
      ghost var log;
      updated, found, log := AdvanceAll(entries, history, now);
      due := SortDue(found);
      assert Comparable(due) <==> Comparable(found) by {
        if Comparable(due) {
          SameComparable(due, found);
        }
        if Comparable(found) {
          SameComparable(found, due);
        }
      }
      assert NumericIds(due) ==> NumericIds(found) by {
        if NumericIds(due) {
          SameNumericIds(due, found);
        }
      }
      forall x ensures x in due <==> x in found {
        assert x in due <==> x in multiset(due);
        assert x in found <==> x in multiset(found);
      }
      entries, history := updated, log;
    }

    /** Just before an execution: the task must still be configured, and for the same execution. */
    method StillConfigured(execution: Execution) returns (ok: bool)
      ensures ok <==> var current := FindEntry(entries, execution.task.id);
                      current.Some? && SameExecutionConfig(entries[current.value].config, execution.task)
    {
      var current := FindEntry(entries, execution.task.id);
      return current.Some? && SameExecutionConfig(entries[current.value].config, execution.task);
    }

    /** After a round of executions. */
    method CatchUp(completedAt: int)
      requires Valid()
      modifies this`entries
      ensures Valid() && Refreshed(old(entries), completedAt, entries)
    {
      SchedulesWellFormed(entries, history);
      var updated := CatchUpAll(entries, completedAt);
      CatchUpKeepsSlots(entries, updated, history, completedAt);
      entries := updated;
    }

    /** Takes the first candidate whose task is configured; the ones before it are dropped. No slot is touched. */
    method TakeCandidate() returns (taken: Option<PendingExecution>)
      modifies this`pending
      ensures var first := FirstConfigured(entries, old(pending));
              && taken == (if first == |old(pending)| then None else Some(old(pending)[first]))
              && pending == old(pending)[if taken.Some? then first + 1 else first..]
    {
      var at := 0;
      while at < |pending| && FindEntry(entries, pending[at].taskId).None?
        invariant at <= |pending| && FirstConfigured(entries, pending) == at + FirstConfigured(entries, pending[at..])
        decreases |pending| - at
      {
        assert pending[at..][1..] == pending[at + 1..];
        at := at + 1;
      }
      if at == |pending| {
        pending := pending[at..];
        return None;
      }
      taken := Some(pending[at]);
      pending := pending[at + 1..];
    }

    /** One candidate is taken and executed. The lock is not held during the execution, so the configuration may be replaced
        meanwhile; a candidate that finds the queue full goes back to the front of whatever list there is then. */
    method DispatchOnePending(queueFull: bool, meanwhile: Option<Replacement>) returns (dispatched: Option<PendingExecution>)
      requires Valid()
      modifies this
      ensures Valid()
      ensures var first := FirstConfigured(old(entries), old(pending));
              var found := first < |old(pending)|;
              var rest := if !found then [] else if meanwhile.Some? then meanwhile.value.candidates else old(pending)[first + 1..];
              && dispatched == (if found && !queueFull then Some(old(pending)[first]) else None)
              && pending == (if found && queueFull then [old(pending)[first]] + rest else rest)
              && (!found || meanwhile.None? ==> entries == old(entries) && history == old(history))
              && (found && meanwhile.Some? ==>
                    Replaced(old(entries), meanwhile.value.tasks, meanwhile.value.appliedAt, entries)
                    && KeepsHistory(old(entries), old(history), history))
    {
      hide Replaced, KeepsHistory, SlotsOk;
      var taken := TakeCandidate();
      if taken.None? {
        return None;
      }
      if meanwhile.Some? {
        ReplaceConfig(meanwhile.value.tasks, meanwhile.value.candidates, meanwhile.value.appliedAt);
      }
      if queueFull {
        pending := [taken.value] + pending;
        return None;
      }
      return taken;
    }
  }

  /** A candidate that was put back in front of a list it is not on is harmless: it goes first if its task is configured
      still, and is dropped otherwise. */
  lemma PutBackGoesFirstOrGoes(entries: seq<Entry>, candidate: PendingExecution, candidates: seq<PendingExecution>)
    ensures FirstConfigured(entries, [candidate] + candidates)
            == if FindEntry(entries, candidate.taskId).Some? then 0 else 1 + FirstConfigured(entries, candidates)
  {
    assert ([candidate] + candidates)[1..] == candidates;
  }

  lemma SameNumericIds(a: seq<Execution>, b: seq<Execution>)
    requires multiset(a) == multiset(b) && NumericIds(a)
    ensures NumericIds(b)
  {
    hide Numeric;
    forall x | x in b ensures Numeric(x.task.id) {
      assert x in multiset(b);
      assert x in multiset(a);
    }
  }

  lemma SchedulesWellFormed(entries: seq<Entry>, history: map<string, seq<Decision>>)
    requires SlotsOk(entries, history)
    ensures forall i :: 0 <= i < |entries| ==> WellFormed(entries[i].schedule)
    ensures DistinctIds(entries)
  {
    hide HistoryOk, Remembers;
    forall i | 0 <= i < |entries| ensures WellFormed(entries[i].schedule) {
      assert SlotOk(entries[i], history);
    }
  }

  method CatchUpAll(entries: seq<Entry>, completedAt: int) returns (updated: seq<Entry>)
    requires forall k :: 0 <= k < |entries| ==> WellFormed(entries[k].schedule)
    ensures |updated| == |entries| && forall k :: 0 <= k < |entries| ==> updated[k] == CaughtUp(entries[k], completedAt)
  {
    hide NextSlot, Found;
    updated := [];
    for i := 0 to |entries|
      invariant |updated| == i && forall k :: 0 <= k < i ==> updated[k] == CaughtUp(entries[k], completedAt)
    {
      var entry := entries[i];
      if entry.nextSlot.Some? && entry.nextSlot.value <= completedAt {
        var next := NextAfter(entry.schedule, completedAt);
        entry := entry.(nextSlot := next);
      }
      updated := updated + [entry];
    }
  }

  lemma CatchUpKeepsSlots(entries: seq<Entry>, updated: seq<Entry>, history: map<string, seq<Decision>>,
                          completedAt: int)
    requires SlotsOk(entries, history) && |updated| == |entries|
    requires forall k :: 0 <= k < |entries| ==> WellFormed(entries[k].schedule)
    requires forall k :: 0 <= k < |entries| ==> updated[k] == CaughtUp(entries[k], completedAt)
    ensures SlotsOk(updated, history)
  {
    hide NextSlot, HistoryOk, EntryOk;
    forall i | 0 <= i < |updated| ensures SlotOk(updated[i], history) {
      assert SlotOk(entries[i], history);
      EntryKept(entries[i], completedAt);
    }
  }

  /** The history of the task at position i is extended when it is due. */
  function Logged(entries: seq<Entry>, history: map<string, seq<Decision>>, i: nat,
                  now: int): map<string, seq<Decision>>
    requires i < |entries| && WellFormed(entries[i].schedule) && entries[i].config.id in history
  {
    var s := Skipped(entries[i], now);
    if IsDue(s, now) then history[s.config.id := history[s.config.id] + [Decision(s.nextSlot.value, s.schedule, now)]] else history
  }

  lemma AdvanceOne(entries: seq<Entry>, updated: seq<Entry>, log: map<string, seq<Decision>>, i: nat, now: int)
    requires DistinctIds(entries) && i < |entries| && |updated| == i
    requires forall k :: 0 <= k < |entries| ==> WellFormed(entries[k].schedule)
    requires forall k :: 0 <= k < i ==> updated[k] == Advanced(entries[k], now) && SlotOk(updated[k], log)
    requires forall k :: i <= k < |entries| ==> SlotOk(entries[k], log)
    ensures entries[i].config.id in log
    ensures var after := Logged(entries, log, i, now);
            && SlotOk(Advanced(entries[i], now), after)
            && (forall k :: 0 <= k < i ==> SlotOk(updated[k], after))
            && (forall k :: i < k < |entries| ==> SlotOk(entries[k], after))
  {
    hide EntryOk, HistoryOk, NextSlot, UtcMinute;
    assert SlotOk(entries[i], log);
    AdvanceKeepsSlot(entries[i], log, now);
    var after := Logged(entries, log, i, now);
    forall k | 0 <= k < i ensures SlotOk(updated[k], after) {
      assert updated[k].config == entries[k].config && SlotOk(updated[k], log);
    }
    forall k | i < k < |entries| ensures SlotOk(entries[k], after) {
      assert SlotOk(entries[k], log);
    }
  }

  lemma DueStep(entries: seq<Entry>, found: seq<Execution>, i: nat, now: int)
    requires i < |entries| && forall k :: 0 <= k < |entries| ==> WellFormed(entries[k].schedule)
    requires forall x :: x in found <==> DueFromSome(x, entries, i, now)
    ensures var s := Skipped(entries[i], now);
            var more := if IsDue(s, now) then found + [Execution(entries[i].config, s.nextSlot.value)] else found;
            forall x :: x in more <==> DueFromSome(x, entries, i + 1, now)
  {
    hide Skipped, UtcMinute;
    var s := Skipped(entries[i], now);
    var more := if IsDue(s, now) then found + [Execution(entries[i].config, s.nextSlot.value)] else found;
    forall x ensures x in more <==> DueFromSome(x, entries, i + 1, now) {
      if DueFromSome(x, entries, i + 1, now) {
        var k :| 0 <= k < i + 1 && DueFrom(x, entries[k], now);
        assert k < i ==> DueFromSome(x, entries, i, now);
      }
      if DueFromSome(x, entries, i, now) {
        var k :| 0 <= k < i && DueFrom(x, entries[k], now);
        assert DueFrom(x, entries[k], now);
      }
      if x in more && x !in found {
        assert DueFrom(x, entries[i], now);
      }
    }
  }

  method AdvanceAll(entries: seq<Entry>, ghost history: map<string, seq<Decision>>, now: int)
    returns (updated: seq<Entry>, found: seq<Execution>, ghost log: map<string, seq<Decision>>)
    requires SlotsOk(entries, history) && forall k :: 0 <= k < |entries| ==> WellFormed(entries[k].schedule)
    ensures SlotsOk(updated, log) && |updated| == |entries|
    ensures forall k :: 0 <= k < |entries| ==> updated[k] == Advanced(entries[k], now)
    ensures forall x :: x in found <==> DueFromSome(x, entries, |entries|, now)
    ensures OnePerTask(found)
    ensures Extends(history, log)
  {
    hide SlotOk, Advanced, DueFromSome, Skipped, IsDue, OnePerTask;
    assert OnePerTask([]) by { EmptyInOrder(); }
    updated, found, log := [], [], history;
    NothingDueYet(entries, now);
    for i := 0 to |entries|
      invariant |updated| == i && forall k :: 0 <= k < i ==> updated[k] == Advanced(entries[k], now) && SlotOk(updated[k], log)
      invariant forall k :: i <= k < |entries| ==> SlotOk(entries[k], log)
      invariant forall x :: x in found <==> DueFromSome(x, entries, i, now)
      invariant OnePerTask(found)
      invariant Extends(history, log)
    {
      FoundOnePerTask(entries, found, i, now);
      AdvanceOne(entries, updated, log, i, now);
      DueStep(entries, found, i, now);
      var advanced, due := AdvanceEntry(entries[i], now);
      log := Logged(entries, log, i, now);
      updated := updated + [advanced];
      DueSlot(entries[i], now);
      if due {
        found := found + [Execution(entries[i].config, advanced.lastSlot.value)];
      }
    }
    AdvancedIds(entries, updated, now);
  }

  lemma FoundOnePerTask(entries: seq<Entry>, found: seq<Execution>, i: nat, now: int)
    requires DistinctIds(entries) && i < |entries| && forall k :: 0 <= k < |entries| ==> WellFormed(entries[k].schedule)
    requires OnePerTask(found) && forall x :: x in found <==> DueFromSome(x, entries, i, now)
    ensures forall slot :: OnePerTask(found + [Execution(entries[i].config, slot)])
  {
    hide IsDue, Skipped;
    forall k | 0 <= k < |found| ensures found[k].task.id != entries[i].config.id {
      assert DueFromSome(found[k], entries, i, now);
      var l :| 0 <= l < i && DueFrom(found[k], entries[l], now);
    }
  }

  lemma NothingDueYet(entries: seq<Entry>, now: int)
    requires forall k :: 0 <= k < |entries| ==> WellFormed(entries[k].schedule)
    ensures forall x :: !DueFromSome(x, entries, 0, now)
  {
  }

  lemma DueSlot(e: Entry, now: int)
    requires WellFormed(e.schedule)
    ensures IsDue(Skipped(e, now), now) ==> Skipped(e, now).nextSlot.Some? && Advanced(e, now).lastSlot == Skipped(e, now).nextSlot
  {
  }

  lemma AdvancedIds(entries: seq<Entry>, updated: seq<Entry>, now: int)
    requires DistinctIds(entries) && |updated| == |entries| && forall k :: 0 <= k < |entries| ==> WellFormed(entries[k].schedule)
    requires forall k :: 0 <= k < |entries| ==> updated[k] == Advanced(entries[k], now)
    ensures DistinctIds(updated)
  {
    hide IsDue, NextSlot, UtcMinute;
    assert forall k :: 0 <= k < |entries| ==> updated[k].config == entries[k].config;
  }

  method Projection(entries: seq<Entry>, ghost history: map<string, seq<Decision>>, tasks: seq<TaskConfig>,
                    appliedAt: int)
    returns (replacement: seq<Entry>, ghost kept: map<string, seq<Decision>>)
    requires SlotsOk(entries, history)
    ensures SlotsOk(replacement, kept) && KeepsHistory(entries, history, kept)
    ensures forall id :: FindEntry(replacement, id).Some? <==> Listed(tasks, id)
    ensures forall k :: 0 <= k < |replacement| ==> Derived(replacement[k], entries, appliedAt)
  {
    hide Derived, EntryOk, HistoryOk, Schedulable, Denotes, Listed, SlotsOk, ValidExpression;
    replacement, kept := [], map[];
    NothingListed(kept);
    for i := 0 to |tasks|
      invariant SlotsOk(replacement, kept) && KeepsHistory(entries, history, kept)
      invariant forall id :: FindEntry(replacement, id).Some? <==> Listed(tasks[..i], id)
      invariant forall k :: 0 <= k < |replacement| ==> Derived(replacement[k], entries, appliedAt)
    {
      ListedStep(tasks, i);
      var task := tasks[i];
      if !task.enabled || task.id == "" {
        NotSchedulable(task);
        continue;
      }
      if FindEntry(replacement, task.id).Some? {
        continue;
      }
      var parsed := Parse(task.schedule);
      SchedulableIff(task);
      if parsed.None? {
        continue;
      }
      var entry := NewEntry(entries, history, task, parsed.value, appliedAt);
      HistoryKept(entries, history, task.id);
      ghost var prior := if FindEntry(entries, task.id).Some? then history[task.id] else [];
      SlotsOkAppend(replacement, kept, entry, prior);
      kept := kept[task.id := prior];
      FindAppended(replacement, entry);
      replacement := replacement + [entry];
    }
    assert tasks[..|tasks|] == tasks;
  }

  lemma HistoryKept(entries: seq<Entry>, history: map<string, seq<Decision>>, id: string)
    requires SlotsOk(entries, history)
    ensures FindEntry(entries, id).Some? ==> id in history
  {
    hide EntryOk, HistoryOk;
    if FindEntry(entries, id).Some? {
      assert SlotOk(entries[FindEntry(entries, id).value], history);
    }
  }

  lemma NothingListed(kept: map<string, seq<Decision>>)
    ensures SlotsOk([], kept) && forall id :: !Listed([], id)
  {
  }

  /** The position of the first candidate whose task is configured, or the length when there is none. */
  function FirstConfigured(entries: seq<Entry>, candidates: seq<PendingExecution>): (at: nat)
    ensures at <= |candidates| && (at < |candidates| ==> FindEntry(entries, candidates[at].taskId).Some?)
    ensures forall i :: 0 <= i < at ==> FindEntry(entries, candidates[i].taskId).None?
  {
    if candidates == [] || FindEntry(entries, candidates[0].taskId).Some? then 0
    else 1 + FirstConfigured(entries, candidates[1..])
  }

  lemma EmptyHistory()
    ensures HistoryOk([])
  {
  }

  lemma NotSchedulable(task: TaskConfig)
    requires !task.enabled || task.id == ""
    ensures !Schedulable(task)
  {
  }

  lemma SchedulableIff(task: TaskConfig)
    requires task.enabled && task.id != ""
    ensures Schedulable(task) <==> ValidExpression(task.schedule)
  {
  }

  lemma ListedStep(tasks: seq<TaskConfig>, i: nat)
    requires i < |tasks|
    ensures forall id :: Listed(tasks[..i + 1], id) <==> Listed(tasks[..i], id) || (tasks[i].id == id && Schedulable(tasks[i]))
  {
    hide Schedulable;
    forall id ensures Listed(tasks[..i + 1], id) <==> Listed(tasks[..i], id) || (tasks[i].id == id && Schedulable(tasks[i])) {
      if Listed(tasks[..i], id) {
        var k :| 0 <= k < i && tasks[..i][k].id == id && Schedulable(tasks[..i][k]);
        assert tasks[..i + 1][k] == tasks[..i][k];
      }
      if Listed(tasks[..i + 1], id) {
        var k :| 0 <= k < i + 1 && tasks[..i + 1][k].id == id && Schedulable(tasks[..i + 1][k]);
        assert k < i ==> tasks[..i][k] == tasks[..i + 1][k];
      }
      if tasks[i].id == id && Schedulable(tasks[i]) {
        assert tasks[..i + 1][i] == tasks[i];
      }
    }
  }

  lemma FindAppended(entries: seq<Entry>, entry: Entry)
    ensures forall id :: FindEntry(entries + [entry], id).Some? <==> FindEntry(entries, id).Some? || entry.config.id == id
  {
    assert (entries + [entry])[..|entries|] == entries;
  }
}
