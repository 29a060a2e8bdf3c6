/** The search bound for schedules that restrict the day of week: exactly when eight years of 366 days are enough. */
module CronWeekdays {
  import opened Calendar
  import opened Cron
  import opened CronSearch

  // Years are counted from the first of March, so that a leap day is the last day of its year and every other date has
  // the same place in every year.

  /** The place of a date in its year from March. */
  function Offset(month: int, day: int): int
    requires 1 <= month <= 12
  {
    MonthOffset(month) + day - 1
  }

  /** The weekday of the first of March of a year. */
  function MarchWeekday(year: int): int { Weekday(MarchStart(year)) }

  predicate Ordinary(month: int, day: int) { RealDay(month, day) && !(month == 2 && day == 29) }

  predicate AcceptsDate(s: Schedule, month: int, day: int, weekday: int)
    requires WellFormed(s)
  {
    && RealDay(month, day) && 0 <= weekday < 7
    && s.fields[3][month] && s.fields[2][day] && s.fields[4][weekday]
  }

  /** The weekday that the first of March needs for the date to fall on the weekday. */
  function TargetFor(month: int, day: int, weekday: int): int
    requires 1 <= month <= 12
  {
    (weekday - Offset(month, day)) % 7
  }

  /** A year that begins on this weekday in March has a day that the schedule accepts, whether it is a leap year or not. */
  ghost predicate Target(s: Schedule, t: int)
    requires WellFormed(s)
  {
    exists month, day, weekday ::
      AcceptsDate(s, month, day, weekday) && Ordinary(month, day) && TargetFor(month, day, weekday) == t
  }

  predicate AcceptsLeapDay(s: Schedule, weekday: int)
    requires WellFormed(s)
  {
    AcceptsDate(s, 2, 29, weekday)
  }

  /** Two different targets, or a target that is also the weekday of an accepted leap day. */
  ghost predicate Enough(s: Schedule)
    requires WellFormed(s)
  {
    || (exists t, u :: t != u && Target(s, t) && Target(s, u))
    || (exists w :: AcceptsLeapDay(s, w) && Target(s, w))
  }

  // ---- the weekdays of consecutive years ----

  lemma LeapYearsApart(a: int, b: int)
    requires IsLeapYear(a) && IsLeapYear(b) && a < b
    ensures b - a >= 4
  {
    hide IsLeapYear;
    EveryFourth(a);
    EveryFourth(b);
  }

  lemma EveryFourth(year: int)
    requires IsLeapYear(year)
    ensures year % 4 == 0
  {
    assert year % 400 == 0 ==> year == 4 * (100 * (year / 400));
  }

  /** How far the weekdays have moved after j years, whole turns of the years left out: one a year, two over a leap day. */
  function Drift(year: int, j: nat): int { MarchStart(year + j) - MarchStart(year) - 364 * j }

  lemma DriftStep(year: int, j: nat)
    ensures Drift(year, j + 1) == Drift(year, j) + (if IsLeapYear(year + j + 1) then 2 else 1)
  {
    hide IsLeapYear, MarchStart;
    MarchStartStep(year + j);
  }

  lemma WeekdayPlus(n: int, weeks: int, k: int)
    ensures Weekday(n + 7 * weeks + k) == (Weekday(n) + k) % 7
  {
  }

  lemma DriftMoves(year: int, j: nat)
    ensures Drift(year, 0) == 0 && MarchWeekday(year + j) == (MarchWeekday(year) + Drift(year, j)) % 7
  {
    hide MarchStart, Weekday;
    WeekdayPlus(MarchStart(year), 52 * j, Drift(year, j));
  }

  /** The distance from one weekday forward to another. */
  function Ahead(a: int, t: int): (x: int)
    requires 0 <= a < 7 && 0 <= t < 7
    ensures 0 <= x <= 6 && (a + x) % 7 == t
  {
    if t >= a then t - a else t - a + 7
  }

  lemma {:induction false} DriftGrows(year: int, i: nat, j: nat)
    requires i <= j
    ensures j - i <= Drift(year, j) - Drift(year, i)
    decreases j - i
  {
    hide Drift;
    if i < j {
      DriftGrows(year, i, j - 1);
      DriftStep(year, j - 1);
    }
  }

  /** A distance of less than a week is either reached within six years or leapt over by a leap day. */
  lemma {:induction false} Reach(year: int, x: int, from: nat) returns (j: nat, skipped: bool)
    requires from <= 6 && from <= Drift(year, from) <= x <= 6
    ensures from <= j && (skipped ==> j <= 5 && Drift(year, j) == x - 1 && IsLeapYear(year + j + 1))
    ensures !skipped ==> j <= 6 && Drift(year, j) == x
    decreases 6 - from
  {
    hide Drift, IsLeapYear;
    if Drift(year, from) == x {
      return from, false;
    }
    DriftStep(year, from);
    DriftGrows(year, from, from + 1);
    if Drift(year, from + 1) == x + 1 {
      return from, true;
    }
    j, skipped := Reach(year, x, from + 1);
  }

  lemma LeapDayWeekday(year: int)
    requires IsLeapYear(year + 1)
    ensures Weekday(MarchStart(year + 1) - 1) == (MarchWeekday(year) + 1) % 7
  {
    hide MarchStart, Weekday, IsLeapYear;
    MarchStartStep(year);
    WeekdayPlus(MarchStart(year), 52, 1);
  }

  /** Of seven consecutive years, one begins on the weekday in March, or a leap day between them falls on it. */
  lemma SkippedByLeapDay(year: int, t: int) returns (j: nat, skipped: bool)
    requires 0 <= t < 7
    ensures !skipped ==> j <= 6 && MarchWeekday(year + j) == t
    ensures skipped ==> j <= 5 && IsLeapYear(year + j + 1) && Weekday(MarchStart(year + j + 1) - 1) == t
  {
    hide IsLeapYear, MarchStart, Drift, MarchWeekday, Ahead;
    var a := MarchWeekday(year);
    assert 0 <= a < 7 by { MarchWeekdayRange(year); }
    DriftMoves(year, 0);
    j, skipped := Reach(year, Ahead(a, t), 0);
    DriftMoves(year, j);
    if skipped {
      LeapDayWeekday(year + j);
    }
  }

  lemma MarchWeekdayRange(year: int)
    ensures 0 <= MarchWeekday(year) < 7
  {
    hide MarchStart;
  }

  /** Of seven consecutive years, one begins on one of two different weekdays in March. */
  lemma OneOfTwo(year: int, t: int, u: int) returns (j: nat)
    requires 0 <= t < 7 && 0 <= u < 7 && t != u
    ensures j <= 6 && (MarchWeekday(year + j) == t || MarchWeekday(year + j) == u)
  {
    hide IsLeapYear, MarchStart, Drift, MarchWeekday, Ahead;
    var a := MarchWeekday(year);
    assert 0 <= a < 7 by { MarchWeekdayRange(year); }
    var x, y := Ahead(a, t), Ahead(a, u);
    DriftMoves(year, 0);
    var jx, sx := Reach(year, x, 0);
    var jy, sy := Reach(year, y, 0);
    if !sx {
      DriftMoves(year, jx);
      return jx;
    }
    if !sy {
      DriftMoves(year, jy);
      return jy;
    }
    DriftMoves(year, 6);
    if jx <= jy {
      BothSkipped(year, x, y, jx, jy);
      AheadAWeek(a, t);
    } else {
      BothSkipped(year, y, x, jy, jx);
      AheadAWeek(a, u);
    }
    return 6;
  }

  lemma AheadAWeek(a: int, t: int)
    requires 0 <= a < 7 && 0 <= t < 7
    ensures (a + (Ahead(a, t) + 7)) % 7 == t
  {
  }

  /** Two leap days leap over two distances only when they are the first and the fifth; then the first one is reached in
      the sixth year, a week later. */
  lemma BothSkipped(year: int, x: int, y: int, jx: nat, jy: nat)
    requires jx <= jy <= 5 && x != y && Drift(year, jx) == x - 1 && Drift(year, jy) == y - 1 && y <= 6
    requires IsLeapYear(year + jx + 1) && IsLeapYear(year + jy + 1) && Drift(year, 0) == 0
    ensures Drift(year, 6) == x + 7
  {
    hide Drift, IsLeapYear;
    LeapYearsApart(year + jx + 1, year + jy + 1);
    DriftGrows(year, 0, jx);
    DriftStep(year, jx);
    DriftGrows(year, jx + 1, jy);
    DriftStep(year, jy);
    DriftStep(year, jy + 1);
    if IsLeapYear(year + jy + 2) {
      LeapYearsApart(year + jy + 1, year + jy + 2);
    }
  }

  // ---- days and years ----

  function MarchYear(d: Date): int { if d.month <= 2 then d.year - 1 else d.year }

  lemma DayParts(n: int)
    ensures var d := DateOf(n);
            && n == MarchStart(MarchYear(d)) + Offset(d.month, d.day) && RealDay(d.month, d.day)
            && MarchStart(MarchYear(d)) <= n < MarchStart(MarchYear(d) + 1)
            && (d.month == 2 && d.day == 29 ==> IsLeapYear(MarchYear(d) + 1) && n == MarchStart(MarchYear(d) + 1) - 1)
  {
    hide DateOf, MarchStart, DaysFromCivil;
    var d := DateOf(n);
    ConversionIsDayCount(d);
    MarchStartStep(MarchYear(d));
  }

  lemma DateAt(year: int, month: int, day: int)
    requires Ordinary(month, day)
    ensures var n := MarchStart(year) + Offset(month, day);
            && DateOf(n).month == month && DateOf(n).day == day && MarchStart(year) <= n < MarchStart(year + 1)
  {
    hide DateOf, MarchStart, DaysFromCivil;
    var d := Date(if month <= 2 then year + 1 else year, month, day);
    ConversionIsDayCount(d);
    DateOfDays(d);
    MarchStartStep(year);
  }

  lemma WeekdayAt(year: int, month: int, day: int, weekday: int)
    requires 1 <= month <= 12 && 0 <= weekday < 7
    ensures Weekday(MarchStart(year) + Offset(month, day)) == weekday <==> MarchWeekday(year) == TargetFor(month, day, weekday)
  {
    hide MarchStart, Offset;
    WeekdayPlus(MarchStart(year), 0, Offset(month, day));
  }

  // ---- enough ----

  lemma MatchThere(s: Schedule, n: int, minute: int, hour: int)
    requires WellFormed(s) && SomeTime(s, minute, hour) && AcceptsDate(s, DateOf(n).month, DateOf(n).day, Weekday(n))
    ensures Matches(s, n * MINUTES_PER_DAY + hour * 60 + minute)
  {
    hide DateOf, Weekday;
    PartsOfMinute(n, hour, minute);
  }

  /** A match within 2927 days of the first day of the search is found. */
  lemma MatchIsFound(s: Schedule, time: int, n: int, minute: int, hour: int)
    requires WellFormed(s) && SomeTime(s, minute, hour) && AcceptsDate(s, DateOf(n).month, DateOf(n).day, Weekday(n))
    requires NextMinute(time) / MINUTES_PER_DAY < n <= NextMinute(time) / MINUTES_PER_DAY + 2927
    ensures NextSlot(s, time).Some?
  {
    hide Matches, NextMinute, DateOf, Weekday, NextSlot, AcceptsDate;
    MatchThere(s, n, minute, hour);
    var at, first := n * MINUTES_PER_DAY + hour * 60 + minute, NextMinute(time);
    assert first <= at <= first + SEARCH_LIMIT && Matches(s, at);
  }

  /** The whole years that a search passes: it sees at least the seven years from March after its first day. */
  lemma SevenYears(today: int, year: int, j: nat)
    requires MarchStart(year) <= today < MarchStart(year + 1) && j <= 6
    ensures today < MarchStart(year + 1 + j) && MarchStart(year + 2 + j) <= today + 2923
  {
    hide MarchStart;
    MarchStartMonotonic(year + 1, year + 1 + j);
    LeapSpan(year, year + 2 + j);
  }

  lemma TargetYearMatches(s: Schedule, time: int, t: int, year: int, minute: int, hour: int)
    requires WellFormed(s) && SomeTime(s, minute, hour) && Target(s, t) && MarchWeekday(year) == t
    requires var today := NextMinute(time) / MINUTES_PER_DAY;
             today < MarchStart(year) && MarchStart(year + 1) <= today + 2928
    ensures NextSlot(s, time).Some?
  {
    hide NextMinute, DateOf, MarchStart, NextSlot, MarchWeekday, SomeTime;
    var month, day, weekday :|
      AcceptsDate(s, month, day, weekday) && Ordinary(month, day) && TargetFor(month, day, weekday) == t;
    var n := MarchStart(year) + Offset(month, day);
    DateAt(year, month, day);
    WeekdayAt(year, month, day, weekday);
    MatchIsFound(s, time, n, minute, hour);
  }

  lemma EnoughIsFound(s: Schedule, time: int, minute: int, hour: int)
    requires WellFormed(s) && SomeTime(s, minute, hour) && Enough(s)
    ensures NextSlot(s, time).Some?
  {
    hide NextMinute, DateOf, MarchStart, NextSlot, Target, AcceptsLeapDay, MarchWeekday, SomeTime;
    var today := NextMinute(time) / MINUTES_PER_DAY;
    DayParts(today);
    var year := MarchYear(DateOf(today));
    if t, u :| t != u && Target(s, t) && Target(s, u) {
      TargetRange(s, t);
      TargetRange(s, u);
      var j := OneOfTwo(year + 1, t, u);
      SevenYears(today, year, j);
      TargetYearMatches(s, time, MarchWeekday(year + 1 + j), year + 1 + j, minute, hour);
    } else {
      var w :| AcceptsLeapDay(s, w) && Target(s, w);
      TargetRange(s, w);
      var j, skipped := SkippedByLeapDay(year + 1, w);
      SevenYears(today, year, j);
      if skipped {
        LeapDayMatches(s, time, w, year + 1 + j, minute, hour);
      } else {
        TargetYearMatches(s, time, w, year + 1 + j, minute, hour);
      }
    }
  }

  lemma TargetRange(s: Schedule, t: int)
    requires WellFormed(s) && Target(s, t)
    ensures 0 <= t < 7
  {
    hide AcceptsDate, Ordinary;
  }

  lemma LeapDayMatches(s: Schedule, time: int, w: int, year: int, minute: int, hour: int)
    requires WellFormed(s) && SomeTime(s, minute, hour) && AcceptsLeapDay(s, w)
    requires IsLeapYear(year + 1) && Weekday(MarchStart(year + 1) - 1) == w
    requires var today := NextMinute(time) / MINUTES_PER_DAY;
             today < MarchStart(year) && MarchStart(year + 1) <= today + 2928
    ensures NextSlot(s, time).Some?
  {
    hide NextMinute, DateOf, MarchStart, NextSlot, Weekday, SomeTime, IsLeapYear, AcceptsDate;
    LeapDayOf(year + 1);
    MarchStartMonotonic(year, year + 1);
    MatchIsFound(s, time, MarchStart(year + 1) - 1, minute, hour);
  }

  // ---- not enough ----

  /** A year from which the first of March misses its weekday for ten years. */
  lemma BaseYear(t: int) returns (h: int)
    requires 0 <= t < 7
    ensures 1974 <= h <= 1998 && h % 4 == 2 && MarchWeekday(h) == t
  {
    h := [1998, 1982, 1994, 1978, 1990, 1974, 1986][t];
  }

  lemma LeapYearsAfter(h: int, j: nat)
    requires 1974 <= h <= 1998 && h % 4 == 2 && 1 <= j <= 11
    ensures IsLeapYear(h + j) <==> j == 2 || j == 6 || j == 10
  {
  }

  /** How far the weekdays have moved in each of the ten years: never a whole week. */
  lemma {:induction false} DriftAfter(h: int, j: nat)
    requires 1974 <= h <= 1998 && h % 4 == 2 && j <= 10
    ensures Drift(h, j) == j + (if j >= 10 then 3 else if j >= 6 then 2 else if j >= 2 then 1 else 0)
  {
    hide IsLeapYear;
    if j > 0 {
      DriftAfter(h, j - 1);
      DriftStep(h, j - 1);
      LeapYearsAfter(h, j);
    }
  }

  lemma TenYearsMiss(h: int, j: nat, t: int)
    requires 1974 <= h <= 1998 && h % 4 == 2 && 1 <= j <= 10 && MarchWeekday(h) == t && 0 <= t < 7
    ensures MarchWeekday(h + j) != t
    ensures j == 1 ==> (MarchWeekday(h + j) + 1) % 7 == (t + 2) % 7
    ensures j == 5 ==> (MarchWeekday(h + j) + 1) % 7 == t
    ensures j == 9 ==> (MarchWeekday(h + j) + 1) % 7 == (t + 5) % 7
  {
    hide Drift, MarchWeekday;
    DriftAfter(h, j);
    DriftMoves(h, j);
    var d := Drift(h, j);
    assert MarchWeekday(h + j) == (t + d) % 7;
    assert j == 1 || j == 2 || j == 3 || j == 4 || j == 5 || j == 6 || j == 7 || j == 8 || j == 9 || j == 10;
  }

  /** The schedule accepts dates on one weekday only, and all of them need the same first of March; and a leap day, if it is
      accepted, is not on that one. */
  ghost predicate OneTarget(s: Schedule, t: int, w: int)
    requires WellFormed(s)
  {
    && 0 <= w < 7 && Target(s, t) && (forall u :: Target(s, u) ==> u == t)
    && (forall v :: AcceptsLeapDay(s, v) ==> v == w && v != t)
  }

  lemma NotEnoughIsOneTarget(s: Schedule, t: int) returns (w: int)
    requires WellFormed(s) && Target(s, t) && !Enough(s)
    ensures OneTarget(s, t, w)
  {
    var month, day, weekday :|
      AcceptsDate(s, month, day, weekday) && Ordinary(month, day) && TargetFor(month, day, weekday) == t;
    w := weekday;
    hide Target;
    forall v | AcceptsLeapDay(s, v) ensures v == w && v != t {
      assert AcceptsDate(s, month, day, v);
      OtherTarget(s, month, day, v);
      SameTargetSameWeekday(month, day, v, w);
    }
  }

  lemma OtherTarget(s: Schedule, month: int, day: int, weekday: int)
    requires WellFormed(s) && AcceptsDate(s, month, day, weekday) && Ordinary(month, day)
    ensures Target(s, TargetFor(month, day, weekday))
  {
  }

  lemma SameTargetSameWeekday(month: int, day: int, v: int, w: int)
    requires 1 <= month <= 12 && 0 <= v < 7 && 0 <= w < 7 && TargetFor(month, day, v) == TargetFor(month, day, w)
    ensures v == w
  {
    hide Offset;
  }

  /** A day of one of the ten years is accepted only if it is a leap day. */
  lemma OnlyLeapDaysMatch(s: Schedule, t: int, w: int, h: int, j: nat, n: int)
    requires WellFormed(s) && OneTarget(s, t, w) && 0 <= t < 7
    requires 1974 <= h <= 1998 && h % 4 == 2 && 1 <= j <= 10 && MarchWeekday(h) == t
    requires MarchStart(h + j) <= n < MarchStart(h + j + 1)
    requires AcceptsDate(s, DateOf(n).month, DateOf(n).day, Weekday(n))
    ensures n == MarchStart(h + j + 1) - 1 && (j == 1 || j == 5 || j == 9) && Weekday(n) == w && w != t
    ensures w == (MarchWeekday(h + j) + 1) % 7
  {
    hide DateOf, MarchStart, Weekday, MarchWeekday, Target, TargetFor, OneTarget, AcceptsDate, IsLeapYear, Offset;
    var d := DateOf(n);
    DayParts(n);
    OneYear(MarchYear(d), h + j, n);
    TenYearsMiss(h, j, t);
    if Ordinary(d.month, d.day) {
      OtherTarget(s, d.month, d.day, Weekday(n));
      OnlyTarget(s, t, w, TargetFor(d.month, d.day, Weekday(n)));
      WeekdayRange(n);
      WeekdayAt(h + j, d.month, d.day, Weekday(n));
    } else {
      OnlyLeapDay(s, t, w, d.month, d.day, Weekday(n));
      LeapYearsAfter(h, j + 1);
      LeapDayWeekday(h + j);
    }
  }

  lemma OnlyTarget(s: Schedule, t: int, w: int, u: int)
    requires WellFormed(s) && OneTarget(s, t, w) && Target(s, u)
    ensures u == t
  {
    hide Target;
  }

  lemma OnlyLeapDay(s: Schedule, t: int, w: int, month: int, day: int, v: int)
    requires WellFormed(s) && OneTarget(s, t, w) && AcceptsDate(s, month, day, v) && !Ordinary(month, day)
    ensures month == 2 && day == 29 && v == w && v != t
  {
    hide Target;
    assert AcceptsLeapDay(s, v);
  }

  lemma WeekdayRange(n: int)
    ensures 0 <= Weekday(n) < 7
  {
  }

  lemma OneYear(a: int, b: int, n: int)
    requires MarchStart(a) <= n < MarchStart(a + 1) && MarchStart(b) <= n < MarchStart(b + 1)
    ensures a == b
  {
    hide MarchStart;
    if a < b {
      MarchStartMonotonic(a + 1, b);
    } else if b < a {
      MarchStartMonotonic(b + 1, a);
    }
  }

  /** The first day of a search that fails: after the first of the three leap days, or before the last one. */
  function FailingDay(h: int, t: int, w: int): int {
    if w == (t + 5) % 7 then MarchStart(h + 10) - 2930 else MarchStart(h + 2)
  }

  lemma WithinTenYears(h: int, t: int, w: int, n: int) returns (j: nat)
    requires 1974 <= h <= 1998 && h % 4 == 2 && FailingDay(h, t, w) <= n <= FailingDay(h, t, w) + 2928
    ensures 1 <= j <= 10 && MarchStart(h + j) <= n < MarchStart(h + j + 1)
    ensures w == (t + 5) % 7 ==> n < MarchStart(h + 10) - 1
    ensures w != (t + 5) % 7 ==> j >= 2
  {
    hide MarchStart, DateOf, Drift;
    DayParts(n);
    var year := MarchYear(DateOf(n));
    DriftAfter(h, 1);
    DriftAfter(h, 10);
    TenYearSpan(h);
    MarchStartMonotonic(h + 2, h + 11);
    if year <= h {
      MarchStartMonotonic(year + 1, h + 1);
    }
    if year <= h + 1 {
      MarchStartMonotonic(year + 1, h + 2);
    }
    if year >= h + 11 {
      MarchStartMonotonic(h + 11, year);
      MarchStartMonotonic(h + 10, h + 11);
    }
    j := year - h;
  }

  lemma TenYearSpan(h: int)
    requires Drift(h, 10) == 13 && Drift(h, 1) == 1
    ensures MarchStart(h + 10) - MarchStart(h + 1) == 3288
  {
  }

  lemma NothingMatches(s: Schedule, t: int, w: int, h: int, m: int)
    requires WellFormed(s) && OneTarget(s, t, w) && 0 <= t < 7
    requires 1974 <= h <= 1998 && h % 4 == 2 && MarchWeekday(h) == t
    requires FailingDay(h, t, w) * MINUTES_PER_DAY <= m <= FailingDay(h, t, w) * MINUTES_PER_DAY + SEARCH_LIMIT
    ensures !Matches(s, m)
  {
    hide MarchStart, DateOf, OneTarget, MarchWeekday, Weekday, FailingDay, AcceptsDate;
    if Matches(s, m) {
      var n := m / MINUTES_PER_DAY;
      var j := WithinTenYears(h, t, w, n);
      assert AcceptsDate(s, DateOf(n).month, DateOf(n).day, Weekday(n)) by { MatchAccepts(s, m); }
      OnlyLeapDaysMatch(s, t, w, h, j, n);
      TenYearsMiss(h, j, t);
    }
  }

  lemma MatchAccepts(s: Schedule, m: int)
    requires WellFormed(s) && Matches(s, m)
    ensures var n := m / MINUTES_PER_DAY; AcceptsDate(s, DateOf(n).month, DateOf(n).day, Weekday(n))
  {
    hide DateOf;
    DayParts(m / MINUTES_PER_DAY);
  }

  /** The search that begins at a day: from a time point one minute before it. */
  lemma SearchFromDay(day: int)
    requires day > 0
    ensures NextMinute((day * MINUTES_PER_DAY - 1) * MINUTE) == day * MINUTES_PER_DAY
  {
  }

  lemma NotEnoughIsMissed(s: Schedule, t: int) returns (time: int)
    requires WellFormed(s) && Target(s, t) && !Enough(s)
    ensures NextSlot(s, time).None?
  {
    hide MarchStart, DateOf, Target, Enough, NextMinute, Matches, NextSlot, OneTarget, MarchWeekday;
    TargetRange(s, t);
    var w := NotEnoughIsOneTarget(s, t);
    var h := BaseYear(t);
    var day := FailingDay(h, t, w);
    assert day > 0 by { LateEnough(h); }
    time := (day * MINUTES_PER_DAY - 1) * MINUTE;
    SearchFromDay(day);
    forall m | NextMinute(time) <= m <= NextMinute(time) + SEARCH_LIMIT ensures !Matches(s, m) {
      NothingMatches(s, t, w, h, m);
    }
    assert Found(s, time, NextSlot(s, time));
  }

  lemma LateEnough(h: int)
    requires 1974 <= h <= 1998 && h % 4 == 2
    ensures MarchStart(h + 2) > 0 && MarchStart(h + 10) - 2930 > 0
  {
  }

  /** For every schedule that accepts some date other than 29 February: the search succeeds from every time point if and only
      if the accepted dates and weekdays need two different weekdays for the first of March, or need just the one on which
      an accepted leap day falls too. */
  lemma BoundIsEnoughIff(s: Schedule, t: int, minute: int, hour: int)
    requires WellFormed(s) && SomeTime(s, minute, hour) && Target(s, t)
    ensures (forall time :: NextSlot(s, time).Some?) <==> Enough(s)
  {
    hide Target, Enough, NextSlot, SomeTime;
    if Enough(s) {
      forall time ensures NextSlot(s, time).Some? {
        EnoughIsFound(s, time, minute, hour);
      }
    } else {
      var time := NotEnoughIsMissed(s, t);
      assert NextSlot(s, time).None?;
    }
  }

  /** So a schedule that accepts two days of one month in a row, neither of them 29 February, never stops, whatever weekdays
      it accepts. */
  lemma TwoDaysInARow(s: Schedule, month: int, day: int, weekday: int)
    requires WellFormed(s) && AcceptsDate(s, month, day, weekday) && AcceptsDate(s, month, day + 1, weekday)
    requires Ordinary(month, day) && Ordinary(month, day + 1)
    ensures Enough(s)
  {
    hide Offset, Target, TargetFor, AcceptsDate, Enough;
    OtherTarget(s, month, day, weekday);
    OtherTarget(s, month, day + 1, weekday);
    NextTarget(month, day, weekday);
    TwoTargets(s, TargetFor(month, day, weekday), TargetFor(month, day + 1, weekday));
  }

  lemma TwoTargets(s: Schedule, t: int, u: int)
    requires WellFormed(s) && Target(s, t) && Target(s, u) && t != u
    ensures Enough(s)
  {
    hide Target;
  }

  lemma NextTarget(month: int, day: int, weekday: int)
    requires 1 <= month <= 12
    ensures TargetFor(month, day, weekday) != TargetFor(month, day + 1, weekday)
  {
    hide Offset;
    NextOffset(month, day);
  }

  lemma NextOffset(month: int, day: int)
    requires 1 <= month <= 12
    ensures Offset(month, day + 1) == Offset(month, day) + 1
  {
  }

  /** And one that accepts two weekdays on some date other than 29 February never stops. */
  lemma TwoWeekdays(s: Schedule, month: int, day: int, v: int, w: int)
    requires WellFormed(s) && AcceptsDate(s, month, day, v) && AcceptsDate(s, month, day, w) && v != w && Ordinary(month, day)
    ensures Enough(s)
  {
    hide Target, TargetFor, Enough;
    OtherTarget(s, month, day, v);
    OtherTarget(s, month, day, w);
    if TargetFor(month, day, v) == TargetFor(month, day, w) {
      SameTargetSameWeekday(month, day, v, w);
    }
    TwoTargets(s, TargetFor(month, day, v), TargetFor(month, day, w));
  }

  /** For every expression whose day of month is a star, whatever months and weekdays it accepts: a slot is found from every
      time point. */
  lemma EveryDayOfMonthIsFound(expression: string, s: Schedule, time: int)
    requires Denotes(Fields(expression), s) && Fields(expression)[2] == "*"
    ensures NextSlot(s, time).Some?
  {
    hide Enough, NextSlot, AcceptsDate;
    var minute := FieldAcceptsSome(Fields(expression), s, 0);
    var hour := FieldAcceptsSome(Fields(expression), s, 1);
    var month := FieldAcceptsSome(Fields(expression), s, 3);
    var weekday := FieldAcceptsSome(Fields(expression), s, 4);
    StarAccepts(Fields(expression), s, month, weekday);
    TwoDaysInARow(s, month, 1, weekday);
    EnoughIsFound(s, time, minute, hour);
  }

  lemma StarAccepts(fields: seq<string>, s: Schedule, month: int, weekday: int)
    requires Denotes(fields, s) && fields[2] == "*" && 1 <= month <= 12 && 0 <= weekday < 7
    requires s.fields[3][month] && s.fields[4][weekday]
    ensures AcceptsDate(s, month, 1, weekday) && AcceptsDate(s, month, 2, weekday)
  {
    assert Accepts(2, "*", 1) && Accepts(2, "*", 2);
  }

  // ---- only 29 February ----

  /** What a schedule needs that accepts no other date: the weekdays of the leap days beside a century without one, which are
      alone for eight years, and one of any two successive leap days elsewhere. */
  predicate EnoughLeapDays(s: Schedule)
    requires WellFormed(s)
  {
    && AcceptsLeapDay(s, 1) && AcceptsLeapDay(s, 3) && AcceptsLeapDay(s, 5) && AcceptsLeapDay(s, 6)
    && (AcceptsLeapDay(s, 2) || (AcceptsLeapDay(s, 0) && AcceptsLeapDay(s, 4)))
  }

  function LeapDayOfYear(year: int): int { MarchStart(year) - 1 }

  function NextLeap(year: int): int
    requires IsLeapYear(year)
  {
    if IsLeapYear(year + 4) then year + 4 else year + 8
  }

  lemma NextLeapIsNext(year: int, other: int)
    requires IsLeapYear(year)
    ensures IsLeapYear(NextLeap(year)) && (IsLeapYear(other) && year < other ==> NextLeap(year) <= other)
  {
    hide IsLeapYear;
    if !IsLeapYear(year + 4) {
      var q, r := AfterCentury(year);
    }
    if IsLeapYear(other) && year < other {
      LeapYearsApart(year, other);
      if other != year + 4 {
        MultiplesOfFour(year, other);
      }
    }
  }

  lemma MultiplesOfFour(a: int, b: int)
    requires IsLeapYear(a) && IsLeapYear(b) && b > a + 4
    ensures b >= a + 8
  {
    hide IsLeapYear;
    EveryFourth(a);
    EveryFourth(b);
  }

  /** A year by its place in its century and its century in its era of four hundred years. */
  function YearOf(q: int, r: int, k: int): int { 400 * q + 100 * r + k }

  lemma PartsOf(year: int) returns (q: int, r: int, k: int)
    ensures 0 <= r < 4 && 0 <= k < 100 && year == YearOf(q, r, k)
  {
    var rest := year % 400;
    q, r, k := year / 400, rest / 100, rest % 100;
  }

  lemma LeapYearParts(q: int, r: int, k: int)
    requires 0 <= r < 4 && 0 <= k < 100
    ensures IsLeapYear(YearOf(q, r, k)) <==> k % 4 == 0 && (k != 0 || r == 0)
  {
    var year := YearOf(q, r, k);
    assert year % 4 == k % 4 by { RemainderOfFour(year, 100 * q + 25 * r, k); }
    assert year % 100 == k by { RemainderOfHundred(year, 4 * q + r, k); }
    assert year % 400 == 100 * r + k by { RemainderOfEra(year, q, 100 * r + k); }
  }

  lemma RemainderOfFour(year: int, n: int, k: int)
    requires year == 4 * n + k
    ensures year % 4 == k % 4
  {
  }

  lemma RemainderOfHundred(year: int, n: int, k: int)
    requires year == 100 * n + k && 0 <= k < 100
    ensures year % 100 == k
  {
  }

  lemma RemainderOfEra(year: int, n: int, k: int)
    requires year == 400 * n + k && 0 <= k < 400
    ensures year % 400 == k
  {
  }

  lemma AfterCentury(year: int) returns (q: int, r: int)
    requires IsLeapYear(year) && !IsLeapYear(year + 4)
    ensures 0 <= r < 3 && year == YearOf(q, r, 96) && IsLeapYear(year + 8)
  {
    hide IsLeapYear;
    var k;
    q, r, k := PartsOf(year);
    LeapYearParts(q, r, k);
    if k < 96 {
      LeapYearParts(q, r, k + 4);
    } else if r == 3 {
      LeapYearParts(q + 1, 0, 0);
    } else {
      LeapYearParts(q, r + 1, 4);
    }
  }

  lemma BeforeCentury(year: int) returns (q: int, r: int)
    requires IsLeapYear(year) && !IsLeapYear(year - 4)
    ensures 1 <= r < 4 && year == YearOf(q, r, 4)
  {
    hide IsLeapYear;
    var k;
    q, r, k := PartsOf(year);
    LeapYearParts(q, r, k);
    if k >= 4 {
      LeapYearParts(q, r, k - 4);
    } else if r == 0 {
      LeapYearParts(q - 1, 3, 96);
    }
  }

  /** The last leap day up to a day and the next one after it. */
  lemma BetweenLeapDays(today: int) returns (year: int)
    ensures IsLeapYear(year) && LeapDayOfYear(year) <= today < LeapDayOfYear(NextLeap(year))
  {
    hide MarchStart, DateOf;
    DayParts(today);
    var now := MarchYear(DateOf(today));
    year := LastLeapYear(now);
    MarchStartMonotonic(year, now);
    NextLeapIsNext(year, 0);
    MarchStartMonotonic(now + 1, NextLeap(year));
    if today >= LeapDayOfYear(NextLeap(year)) {
      year := NextLeap(year);
      NextLeapIsNext(year, 0);
      MarchStartMonotonic(now + 1, year);
      MarchStartMonotonic(year, NextLeap(year));
    }
  }

  lemma LastLeapYear(now: int) returns (year: int)
    ensures IsLeapYear(year) && year <= now < NextLeap(year)
  {
    year := now - now % 4;
    if !IsLeapYear(year) {
      year := year - 4;
    }
  }

  lemma NextLeapWeekday(year: int)
    requires IsLeapYear(year) && IsLeapYear(year + 4)
    ensures Weekday(LeapDayOfYear(year + 4)) == (Weekday(LeapDayOfYear(year)) + 5) % 7
  {
    hide MarchStart, Weekday, IsLeapYear;
    FourYears(year);
    WeekdayPlus(LeapDayOfYear(year), 208, 5);
  }

  lemma FourYears(year: int)
    requires IsLeapYear(year) && IsLeapYear(year + 4)
    ensures MarchStart(year + 4) == MarchStart(year) + 1461
  {
    hide MarchStart;
    MarchStartStep(year);
    MarchStartStep(year + 1);
    MarchStartStep(year + 2);
    MarchStartStep(year + 3);
  }

  /** The leap days beside a century without one fall on Monday, Wednesday, Friday or Saturday. */
  lemma LonelyLeapDay(year: int)
    requires IsLeapYear(year) && (!IsLeapYear(year + 4) || !IsLeapYear(year - 4))
    ensures Weekday(LeapDayOfYear(year)) in {1, 3, 5, 6}
  {
    hide IsLeapYear, LeapDayOfYear, Weekday;
    if !IsLeapYear(year + 4) {
      var q, r := AfterCentury(year);
      CenturyWeekday(q, r, 96);
    } else {
      var q, r := BeforeCentury(year);
      CenturyWeekday(q, r, 4);
    }
  }

  lemma CenturyWeekday(q: int, r: int, k: int)
    requires 0 <= r < 4 && (k == 96 || k == 4)
    ensures Weekday(LeapDayOfYear(YearOf(q, r, k))) == (5 * r + if k == 96 then 3 else 0) % 7
  {
    hide MarchStart, Weekday;
    StartOfYearOf(q, r, k);
    EraWeekday(q, MarchStart(100 * r + k) - 1);
    CenturyWeekdayInEra(r, k);
  }

  lemma EraWeekday(q: int, n: int)
    ensures Weekday(146097 * q + n) == Weekday(n)
  {
    WeekdayPlus(n, 20871 * q, 0);
  }

  lemma CenturyWeekdayInEra(r: int, k: int)
    requires 0 <= r < 4 && (k == 96 || k == 4)
    ensures Weekday(MarchStart(100 * r + k) - 1) == (5 * r + if k == 96 then 3 else 0) % 7
  {
  }

  lemma StartOfYearOf(q: int, r: int, k: int)
    requires 0 <= r < 4 && 0 <= k < 100
    ensures MarchStart(YearOf(q, r, k)) == 146097 * q + MarchStart(100 * r + k)
  {
    var rest := 100 * r + k;
    assert (400 * q + rest) / 4 == 100 * q + rest / 4;
    assert (400 * q + rest) / 100 == 4 * q + rest / 100;
    assert (400 * q + rest) / 400 == q;
  }

  lemma LeapDayIsFound(s: Schedule, time: int, year: int, minute: int, hour: int)
    requires WellFormed(s) && SomeTime(s, minute, hour) && IsLeapYear(year) && AcceptsLeapDay(s, Weekday(LeapDayOfYear(year)))
    requires var today := NextMinute(time) / MINUTES_PER_DAY; today < LeapDayOfYear(year) <= today + 2927
    ensures NextSlot(s, time).Some?
  {
    hide NextMinute, DateOf, MarchStart, NextSlot, Weekday, SomeTime, IsLeapYear, AcceptsDate;
    LeapDayOf(year);
    MatchIsFound(s, time, LeapDayOfYear(year), minute, hour);
  }

  lemma EnoughLeapDaysFound(s: Schedule, time: int, minute: int, hour: int)
    requires WellFormed(s) && SomeTime(s, minute, hour) && EnoughLeapDays(s)
    ensures NextSlot(s, time).Some?
  {
    hide NextMinute, DateOf, MarchStart, NextSlot, Weekday, SomeTime, IsLeapYear, AcceptsLeapDay;
    var today := NextMinute(time) / MINUTES_PER_DAY;
    var last := BetweenLeapDays(today);
    NextLeapIsNext(last, 0);
    var next := NextLeap(last);
    WeekdayRange(LeapDayOfYear(next));
    LeapSpan(last, next);
    if next == last + 4 && IsLeapYear(next + 4) {
      NextLeapWeekday(next);
      LeapSpan(last, next + 4);
      MarchStartMonotonic(next, next + 4);
      if AcceptsLeapDay(s, Weekday(LeapDayOfYear(next))) {
        LeapDayIsFound(s, time, next, minute, hour);
      } else {
        LeapDayIsFound(s, time, next + 4, minute, hour);
      }
    } else {
      LonelyLeapDay(next);
      LeapDayIsFound(s, time, next, minute, hour);
    }
  }

  /** Leap days from which the search for the weekdays x and y alone would be needed: the windows of eight years after them. */
  predicate Window(b: int, x: int, y: int) {
    || (b == 1992 && x == 4 && y == 2) || (b == 1996 && x == 2 && y == 0) || (b == 2092 && x == 3 == y)
    || (b == 2096 && x == 5 == y) || (b == 2192 && x == 1 == y) || (b == 2292 && x == 6 == y)
  }

  lemma LeapDaysInWindow(b: int, x: int, y: int, year: int)
    requires Window(b, x, y) && IsLeapYear(year) && MarchStart(b) <= LeapDayOfYear(year) <= MarchStart(b) + 2928
    ensures Weekday(LeapDayOfYear(year)) == x || Weekday(LeapDayOfYear(year)) == y
  {
    if year <= b {
      MarchStartMonotonic(year, b);
    } else if year > b + 8 {
      MarchStartMonotonic(b + 9, year);
    }
    assert b < year <= b + 8;
    assert year == b + 4 || year == b + 8;
  }

  lemma NoDateInWindow(s: Schedule, b: int, x: int, y: int, m: int)
    requires WellFormed(s) && (forall t :: !Target(s, t)) && Window(b, x, y) && !AcceptsLeapDay(s, x) && !AcceptsLeapDay(s, y)
    requires MarchStart(b) * MINUTES_PER_DAY <= m <= MarchStart(b) * MINUTES_PER_DAY + SEARCH_LIMIT
    ensures !Matches(s, m)
  {
    hide MarchStart, DateOf, Target, Weekday, AcceptsDate, Window;
    if Matches(s, m) {
      var n := m / MINUTES_PER_DAY;
      var d := DateOf(n);
      assert AcceptsDate(s, d.month, d.day, Weekday(n)) by { MatchAccepts(s, m); }
      DayParts(n);
      if Ordinary(d.month, d.day) {
        OtherTarget(s, d.month, d.day, Weekday(n));
      } else {
        LeapDaysInWindow(b, x, y, MarchYear(d) + 1);
      }
    }
  }

  lemma MissedFrom(s: Schedule, b: int, x: int, y: int) returns (time: int)
    requires WellFormed(s) && (forall t :: !Target(s, t)) && Window(b, x, y) && !AcceptsLeapDay(s, x) && !AcceptsLeapDay(s, y)
    ensures NextSlot(s, time).None?
  {
    hide DateOf, Target, NextMinute, Matches, NextSlot, AcceptsLeapDay;
    var day := MarchStart(b);
    assert day > 0;
    time := (day * MINUTES_PER_DAY - 1) * MINUTE;
    SearchFromDay(day);
    hide MarchStart, Window;
    forall m | NextMinute(time) <= m <= NextMinute(time) + SEARCH_LIMIT ensures !Matches(s, m) {
      NoDateInWindow(s, b, x, y, m);
    }
    assert Found(s, time, NextSlot(s, time));
  }

  /** For every schedule that accepts no date but 29 February: the search succeeds from every time point if and only if it
      accepts Mondays, Wednesdays, Fridays and Saturdays, and also Tuesdays or both Sundays and Thursdays. */
  lemma LeapDayBoundIsEnoughIff(s: Schedule, minute: int, hour: int)
    requires WellFormed(s) && SomeTime(s, minute, hour) && forall t :: !Target(s, t)
    ensures (forall time :: NextSlot(s, time).Some?) <==> EnoughLeapDays(s)
  {
    hide Target, NextSlot, SomeTime, AcceptsLeapDay;
    if EnoughLeapDays(s) {
      forall time ensures NextSlot(s, time).Some? {
        EnoughLeapDaysFound(s, time, minute, hour);
      }
    } else {
      var b, x, y := UnmetWindow(s);
      var time := MissedFrom(s, b, x, y);
      assert NextSlot(s, time).None?;
    }
  }

  lemma UnmetWindow(s: Schedule) returns (b: int, x: int, y: int)
    requires WellFormed(s) && !EnoughLeapDays(s)
    ensures Window(b, x, y) && !AcceptsLeapDay(s, x) && !AcceptsLeapDay(s, y)
  {
    hide AcceptsLeapDay;
    if !AcceptsLeapDay(s, 1) {
      return 2192, 1, 1;
    }
    if !AcceptsLeapDay(s, 3) {
      return 2092, 3, 3;
    }
    if !AcceptsLeapDay(s, 5) {
      return 2096, 5, 5;
    }
    if !AcceptsLeapDay(s, 6) {
      return 2292, 6, 6;
    }
    if !AcceptsLeapDay(s, 0) {
      return 1996, 2, 0;
    }
    return 1992, 4, 2;
  }

  /** For every accepted expression: from every time point a slot is found if and only if the accepted dates and weekdays
      meet the condition for dates that every year has or, where no such date is accepted, the one for leap days. */
  lemma ExpressionBoundIsEnoughIff(expression: string, s: Schedule)
    requires Denotes(Fields(expression), s)
    ensures (forall time :: NextSlot(s, time).Some?) <==> if exists t :: Target(s, t) then Enough(s) else EnoughLeapDays(s)
  {
    hide Target, NextSlot, Enough, EnoughLeapDays;
    var minute := FieldAcceptsSome(Fields(expression), s, 0);
    var hour := FieldAcceptsSome(Fields(expression), s, 1);
    if t :| Target(s, t) {
      BoundIsEnoughIff(s, t, minute, hour);
    } else {
      LeapDayBoundIsEnoughIff(s, minute, hour);
    }
  }
}
