/** The search bound of eight years of 366 days: when it is enough, and when it is not. */
module CronSearch {
  import opened Messages
  import opened Decimals
  import opened Calendar
  import opened Cron

  /** A day of the month that some year has: 29 February counts. */
  predicate RealDay(month: int, day: int) { 1 <= month <= 12 && 1 <= day <= DaysInMonth(2000, month) }

  predicate EveryWeekday(s: Schedule)
    requires WellFormed(s)
  {
    forall v :: 0 <= v < 7 ==> s.fields[4][v]
  }

  /** Some time of day is accepted; every parsed schedule has one. */
  predicate SomeTime(s: Schedule, minute: int, hour: int)
    requires WellFormed(s)
  {
    0 <= minute < 60 && 0 <= hour < 24 && s.fields[0][minute] && s.fields[1][hour]
  }

  ghost predicate SomeRealDay(s: Schedule)
    requires WellFormed(s)
  {
    exists month, day :: RealDay(month, day) && s.fields[3][month] && s.fields[2][day]
  }

  // ---- a day of the wanted month and number within 2927 days ----

  function FirstOfYear(year: int): int { MarchStart(year - 1) + 306 }

  lemma DayInYear(d: Date)
    requires ValidDate(d)
    ensures FirstOfYear(d.year) <= DaysFromCivil(d) < FirstOfYear(d.year + 1)
  {
    ConversionIsDayCount(d);
    ConversionIsDayCount(Date(d.year, 1, 1));
    ConversionIsDayCount(Date(d.year + 1, 1, 1));
    if d.month > 1 || d.day > 1 {
      DaysIncrease(Date(d.year, 1, 1), d);
    }
    DaysIncrease(d, Date(d.year + 1, 1, 1));
  }

  lemma OrdinaryDay(now: int, month: int, day: int) returns (n: int)
    requires RealDay(month, day) && !(month == 2 && day == 29)
    ensures now < n <= now + 731 && DateOf(n).month == month && DateOf(n).day == day
  {
    var today := DateOf(now);
    var wanted := Date(today.year + 1, month, day);
    n := DaysFromCivil(wanted);
    DateOfDays(wanted);
    DayInYear(today);
    DayInYear(wanted);
    MarchStartStep(today.year - 1);
    MarchStartStep(today.year);
  }

  lemma LeapDayNumber(year: int)
    requires IsLeapYear(year)
    ensures ValidDate(Date(year, 2, 29)) && DaysFromCivil(Date(year, 2, 29)) == MarchStart(year) - 1
  {
    ConversionIsDayCount(Date(year, 2, 29));
    MarchStartStep(year - 1);
  }

  /** The next leap year: within eight years, and within seven of a year that is not one itself. */
  lemma NextLeapYear(year: int) returns (leap: int)
    ensures IsLeapYear(leap) && year < leap <= year + 8 && (IsLeapYear(year) || leap <= year + 7)
  {
    var four := year + 4 - year % 4;
    leap := if IsLeapYear(four) then four else four + 4;
  }

  lemma LeapSpan(from: int, to: int)
    requires from <= to <= from + 8
    ensures MarchStart(to) - MarchStart(from) <= 2923
  {
    MarchStartMonotonic(to, from + 8);
    assert (from + 8) / 4 == from / 4 + 2 && (from + 8) / 100 >= from / 100 && (from + 8) / 400 <= from / 400 + 1;
  }

  lemma LeapDayOf(year: int)
    requires IsLeapYear(year)
    ensures DateOf(MarchStart(year) - 1) == Date(year, 2, 29)
  {
    LeapDayNumber(year);
    DateOfDays(Date(year, 2, 29));
  }

  /** Today is in the year, past its leap day if it has one: the next leap day is at most 2927 days away. */
  lemma LaterLeapDay(now: int, year: int, leap: int)
    requires FirstOfYear(year) <= now < FirstOfYear(year + 1) && (IsLeapYear(year) ==> now >= MarchStart(year) - 1)
    requires IsLeapYear(leap) && year < leap <= year + 8 && (IsLeapYear(year) || leap <= year + 7)
    ensures now < MarchStart(leap) - 1 <= now + 2927
  {
    MarchStartMonotonic(year, leap - 1);
    MarchStartStep(leap - 1);
    if IsLeapYear(year) {
      LeapSpan(year, leap);
    } else {
      LeapSpan(year - 1, leap);
    }
  }

  lemma LeapDay(now: int) returns (n: int)
    ensures now < n <= now + 2927 && DateOf(n).month == 2 && DateOf(n).day == 29
  {
    hide DateOf, MarchStart, IsLeapYear;
    var year := DateOf(now).year;
    DayInYear(DateOf(now));
    MarchStartStep(year - 1);
    if IsLeapYear(year) && now < MarchStart(year) - 1 {
      n := MarchStart(year) - 1;
      LeapDayOf(year);
    } else {
      var leap := NextLeapYear(year);
      n := MarchStart(leap) - 1;
      LeapDayOf(leap);
      LaterLeapDay(now, year, leap);
    }
  }

  // ---- the bound is enough ----

  lemma MatchOnDay(s: Schedule, n: int, minute: int, hour: int)
    requires WellFormed(s) && EveryWeekday(s) && SomeTime(s, minute, hour)
    requires s.fields[3][DateOf(n).month] && s.fields[2][DateOf(n).day]
    ensures Matches(s, n * MINUTES_PER_DAY + hour * 60 + minute)
  {
    hide DateOf;
    var at := n * MINUTES_PER_DAY + hour * 60 + minute;
    PartsOfMinute(n, hour, minute);
  }

  /** When the day of week is unrestricted, the search succeeds from every time point exactly when the schedule accepts at
      least one day that exists, 29 February across a century without a leap year included. */
  lemma BoundIsEnough(s: Schedule, time: int, result: Option<int>, minute: int, hour: int)
    requires WellFormed(s) && EveryWeekday(s) && SomeTime(s, minute, hour) && Found(s, time, result)
    ensures result.Some? <==> SomeRealDay(s)
  {
    hide Matches, NextMinute;
    if SomeRealDay(s) {
      var month, day :| RealDay(month, day) && s.fields[3][month] && s.fields[2][day];
      var first := NextMinute(time);
      var today := first / MINUTES_PER_DAY;
      var n;
      if month == 2 && day == 29 {
        n := LeapDay(today);
      } else {
        n := OrdinaryDay(today, month, day);
      }
      MatchOnDay(s, n, minute, hour);
      var at := n * MINUTES_PER_DAY + hour * 60 + minute;
      assert first <= at <= first + SEARCH_LIMIT && Matches(s, at);
    }
    if result.Some? {
      MatchIsReal(s, result.value / MINUTE);
    }
  }

  lemma MatchIsReal(s: Schedule, minute: int)
    requires WellFormed(s) && Matches(s, minute)
    ensures SomeRealDay(s)
  {
    var date := DateOf(minute / MINUTES_PER_DAY);
    hide DateOf;
    assert RealDay(date.month, date.day);
  }

  /** Every valid field accepts some value. */
  lemma FieldAcceptsSome(fields: seq<string>, s: Schedule, i: nat) returns (v: int)
    requires Denotes(fields, s) && i < 5
    ensures MINIMUMS[i] <= v <= MAXIMUMS[i] && s.fields[i][v]
  {
    v := if fields[i] == "*" || IsStep(fields[i]) then MINIMUMS[i] else Read(fields[i]);
    assert Accepts(i, fields[i], v);
  }

  /** For every expression whose day of week is a star: a slot is found from every time point exactly when the expression
      accepts a day that exists. */
  lemma ParsedBoundIsEnough(expression: string, s: Schedule, time: int)
    requires Denotes(Fields(expression), s) && Fields(expression)[4] == "*"
    ensures NextSlot(s, time).Some? <==> SomeRealDay(s)
  {
    hide Matches, Found, SomeRealDay, Read;
    var minute := FieldAcceptsSome(Fields(expression), s, 0);
    var hour := FieldAcceptsSome(Fields(expression), s, 1);
    forall v | 0 <= v < 7 ensures s.fields[4][v] {
      assert Accepts(4, "*", v);
    }
    BoundIsEnough(s, time, NextSlot(s, time), minute, hour);
  }

  // ---- and when it is not ----

  lemma SundayNewYearsEves(year: int)
    requires 2007 <= year <= 2014
    ensures Weekday(DaysFromCivil(Date(year, 12, 31))) != 0
  {
    assert year == 2007 || year == 2008 || year == 2009 || year == 2010 || year == 2011 || year == 2012 || year == 2013 || year == 2014;
  }

  /** A field that is a plain number accepts only that number. */
  lemma SingleValue(fields: seq<string>, s: Schedule, i: nat, v: int)
    requires Denotes(fields, s) && i < 5 && fields[i] != "*" && !IsStep(fields[i]) && 0 <= v < 60 && s.fields[i][v]
    ensures AllDigits(fields[i]) && v == Read(fields[i])
  {
  }

  const EVE_FIELDS := ["0", "0", "31", "12", "0"]

  lemma NewYearsEveOnly(s: Schedule, minute: int)
    requires Denotes(EVE_FIELDS, s) && Matches(s, minute)
    ensures var date := DateOf(minute / MINUTES_PER_DAY);
            && date.month == 12 && date.day == 31 && Weekday(minute / MINUTES_PER_DAY) == 0
            && minute % MINUTES_PER_DAY == 0
  {
    hide DateOf, Denotes, Read, IsStep;
    var day := minute / MINUTES_PER_DAY;
    var date := DateOf(day);
    EveFields();
    SingleValue(EVE_FIELDS, s, 0, minute % 60);
    SingleValue(EVE_FIELDS, s, 1, (minute / 60) % 24);
    SingleValue(EVE_FIELDS, s, 2, date.day);
    SingleValue(EVE_FIELDS, s, 3, date.month);
    SingleValue(EVE_FIELDS, s, 4, Weekday(day));
    Midnight(minute);
  }

  lemma Midnight(minute: int)
    requires minute % 60 == 0 && (minute / 60) % 24 == 0
    ensures minute % MINUTES_PER_DAY == 0
  {
  }

  lemma EveFields()
    ensures |EVE_FIELDS| == 5
    ensures forall i :: 0 <= i < 5 ==> EVE_FIELDS[i] != "*" && !IsStep(EVE_FIELDS[i]) && AllDigits(EVE_FIELDS[i])
    ensures Read(EVE_FIELDS[0]) == 0 && Read(EVE_FIELDS[1]) == 0 && Read(EVE_FIELDS[2]) == 31
    ensures Read(EVE_FIELDS[3]) == 12 && Read(EVE_FIELDS[4]) == 0
  {
    assert EVE_FIELDS[0] == "0" && EVE_FIELDS[1] == "0" && EVE_FIELDS[2] == "31" && EVE_FIELDS[3] == "12" && EVE_FIELDS[4] == "0";
    ReadSmall();
  }

  lemma ReadSmall()
    ensures Read("31") == 31 && Read("12") == 12 && Read("0") == 0
  {
    assert "31"[..1] == "3" && "12"[..1] == "1" && "3"[..0] == "" && "1"[..0] == "" && "0"[..0] == "";
  }

  const EVE_2006 := Date(2006, 12, 31)

  lemma NoEveInWindow(s: Schedule, minute: int)
    requires WellFormed(s) && Denotes(EVE_FIELDS, s)
    requires DaysFromCivil(EVE_2006) * MINUTES_PER_DAY < minute <= DaysFromCivil(EVE_2006) * MINUTES_PER_DAY + 1 + SEARCH_LIMIT
    ensures !Matches(s, minute)
  {
    hide Matches, DateOf, Denotes;
    if Matches(s, minute) {
      NewYearsEveOnly(s, minute);
      var date := DateOf(minute / MINUTES_PER_DAY);
      DaysIncrease(EVE_2006, date);
      DaysIncrease(date, Date(2015, 12, 31));
      SundayNewYearsEves(date.year);
    }
  }

  /** 31 December on a Sunday: after the one of 2006 the next is in 2017, and the search gives up before it. */
  lemma SundayNewYearsEveIsMissed(s: Schedule, time: int, result: Option<int>)
    requires WellFormed(s) && Denotes(EVE_FIELDS, s) && Found(s, time, result)
    requires time == DaysFromCivil(EVE_2006) * MINUTES_PER_DAY * MINUTE
    ensures result == None && Weekday(DaysFromCivil(Date(2017, 12, 31))) == 0
  {
    hide Matches, DateOf, Denotes;
    assert NextMinute(time) == DaysFromCivil(EVE_2006) * MINUTES_PER_DAY + 1;
    forall m | NextMinute(time) <= m <= NextMinute(time) + SEARCH_LIMIT ensures !Matches(s, m) {
      NoEveInWindow(s, m);
    }
  }
}
