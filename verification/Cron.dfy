/** Five-field cron expressions: what they accept, and the search for the next minute that matches. */
module Cron {
  import opened Messages
  import opened Decimals
  import opened Calendar

  // Time points are nanoseconds since 1970-01-01T00:00:00Z.
  const SECOND: int := 1_000_000_000
  const MINUTE: int := 60_000_000_000
  const MINUTES_PER_DAY := 1440
  const SEARCH_LIMIT := 8 * 366 * 24 * 60

  const MINIMUMS := [0, 0, 1, 1, 0]
  const MAXIMUMS := [59, 23, 31, 12, 6]

  /** For each of minute, hour, day of month, month and day of week: the accepted values. */
  datatype Schedule = Schedule(fields: seq<seq<bool>>)

  predicate WellFormed(s: Schedule) { |s.fields| == 5 && forall i :: 0 <= i < 5 ==> |s.fields[i]| == 60 }

  // ---- fields ----

  predicate IsSpace(c: char) { c == ' ' || ('\t' <= c <= '\r') }

  ghost predicate Solid(text: string) { text != "" && forall i :: 0 <= i < |text| ==> !IsSpace(text[i]) }

  datatype Scan = Scan(fields: seq<string>, current: string)

  /** The complete fields of a text and the field it ends in. */
  function Scanned(text: string): Scan {
    if text == "" then Scan([], "")
    else
      var before, value := Scanned(text[..|text| - 1]), text[|text| - 1];
      if !IsSpace(value) then before.(current := before.current + [value])
      else if before.current == "" then before
      else Scan(before.fields + [before.current], "")
  }

  /** The maximal runs of other characters between white space, in order. */
  function Fields(expression: string): seq<string> {
    var scan := Scanned(expression);
    if scan.current == "" then scan.fields else scan.fields + [scan.current]
  }

  method SplitFields(expression: string) returns (fields: seq<string>)
    ensures fields == Fields(expression)
  {
    fields := [];
    var current := "";
    for n := 0 to |expression|
      invariant Scanned(expression[..n]) == Scan(fields, current)
    {
      var value := expression[n];
      assert expression[..n + 1][..n] == expression[..n];
      if IsSpace(value) {
        if current != "" {
          fields := fields + [current];
          current := "";
        }
      } else {
        current := current + [value];
      }
    }
    assert expression[..|expression|] == expression;
    if current != "" {
      fields := fields + [current];
    }
  }

  function WithoutSpaces(text: string): string {
    if text == "" then ""
    else WithoutSpaces(text[..|text| - 1]) + (if IsSpace(text[|text| - 1]) then "" else [text[|text| - 1]])
  }

  function Concatenated(fields: seq<string>): string {
    if fields == [] then "" else Concatenated(fields[..|fields| - 1]) + fields[|fields| - 1]
  }

  lemma ConcatenatedAppend(fields: seq<string>, field: string)
    ensures Concatenated(fields + [field]) == Concatenated(fields) + field
  {
    assert (fields + [field])[..|fields|] == fields;
  }

  lemma {:induction false} ScanSound(text: string)
    ensures var scan := Scanned(text);
            && (forall i :: 0 <= i < |scan.fields| ==> Solid(scan.fields[i]))
            && (scan.current == "" || Solid(scan.current))
            && Concatenated(scan.fields) + scan.current == WithoutSpaces(text)
  {
    if text != "" {
      ScanSound(text[..|text| - 1]);
      var before, value := Scanned(text[..|text| - 1]), text[|text| - 1];
      if IsSpace(value) {
        ConcatenatedAppend(before.fields, before.current);
      } else {
        assert Concatenated(before.fields) + (before.current + [value]) == (Concatenated(before.fields) + before.current) + [value];
      }
    }
  }

  /** Splitting loses nothing but white space: the fields are solid, and make up the rest of the text in order. */
  lemma FieldsSound(expression: string)
    ensures forall i :: 0 <= i < |Fields(expression)| ==> Solid(Fields(expression)[i])
    ensures Concatenated(Fields(expression)) == WithoutSpaces(expression)
  {
    hide Solid, Scanned, WithoutSpaces, Concatenated;
    ScanSound(expression);
    var scan := Scanned(expression);
    ConcatenatedAppend(scan.fields, scan.current);
    assert Concatenated(scan.fields) + "" == Concatenated(scan.fields);
  }

  ghost predicate Number(text: string) { text != "" && AllDigits(text) }

  lemma ReadStep(text: string, n: nat)
    requires AllDigits(text) && n < |text|
    ensures Read(text[..n + 1]) == Read(text[..n]) * 10 + DigitValue(text[n])
  {
    assert text[..n + 1][..n] == text[..n];
  }

  lemma {:induction false} ReadGrows(text: string, n: nat)
    requires AllDigits(text) && n <= |text|
    ensures Read(text[..n]) <= Read(text)
    decreases |text| - n
  {
    if n < |text| {
      ReadStep(text, n);
      ReadGrows(text, n + 1);
    } else {
      assert text[..n] == text;
    }
  }

  /** Reads a number; None when it is not one, or so large that no field could accept it. */
  method ParseDecimal(text: string) returns (number: Option<nat>)
    ensures number.Some? ==> Number(text) && number.value == Read(text)
    ensures number.None? ==> !Number(text) || Read(text) > 1000
  {
    if text == "" {
      return None;
    }
    for i := 0 to |text|
      invariant forall k :: 0 <= k < i ==> IsDigit(text[k])
    {
      if !IsDigit(text[i]) {
        return None;
      }
    }
    var result := 0;
    for i := 0 to |text|
      invariant result == Read(text[..i])
    {
      if result > 1000 {
        ReadGrows(text, i);
        return None;
      }
      ReadStep(text, i);
      result := result * 10 + DigitValue(text[i]);
    }
    assert text[..|text|] == text;
    return Some(result);
  }

  predicate IsStep(value: string) { |value| > 2 && value[..2] == "*/" }

  ghost predicate FieldValid(index: nat, value: string)
    requires index < 5
  {
    if value == "*" then true
    else if IsStep(value) then Number(value[2..]) && 0 < Read(value[2..]) <= MAXIMUMS[index] - MINIMUMS[index] + 1
    else Number(value) && MINIMUMS[index] <= Read(value) <= MAXIMUMS[index]
  }

  /** What a valid field means. */
  ghost predicate Accepts(index: nat, value: string, v: int)
    requires index < 5 && FieldValid(index, value)
  {
    && MINIMUMS[index] <= v <= MAXIMUMS[index]
    && if value == "*" then true
       else if IsStep(value) then OnStep(MINIMUMS[index], v, Read(value[2..]))
       else v == Read(value)
  }

  predicate OnStep(base: int, v: int, step: int)
    requires step > 0
  {
    (v - base) % step == 0
  }

  lemma MulAtLeast(k: int, step: int)
    requires k >= 1 && step > 0
    ensures k * step >= step
  {
    assert (k - 1) * step >= 0;
  }

  lemma SameRemainder(q: int, r: int, d: int, e: int, step: int)
    requires q * step + r == d * step + e && 0 <= r < step && 0 <= e < step
    ensures r == e
  {
    assert (q - d) * step == e - r && (d - q) * step == r - e;
    if q > d {
      MulAtLeast(q - d, step);
    } else if q < d {
      MulAtLeast(d - q, step);
    }
  }

  lemma MultipleMod(q: int, step: int, r: int)
    requires step > 0 && 0 <= r < step
    ensures (q * step + r) % step == r
  {
    var x := q * step + r;
    SameRemainder(q, r, x / step, x % step, step);
  }

  lemma WithinStep(base: int, at: int, step: int, v: int)
    requires step > 0 && OnStep(base, at, step) && at <= v <= at + step
    ensures OnStep(base, v, step) <==> v == at || v == at + step
  {
    var q := (at - base) / step;
    assert at - base == q * step;
    if v < at + step {
      MultipleMod(q, step, v - at);
    } else {
      assert at + step - base == (q + 1) * step + 0;
      MultipleMod(q + 1, step, 0);
    }
  }

  lemma NextMultiple(base: int, at: int, step: int)
    requires step > 0 && OnStep(base, at, step)
    ensures OnStep(base, at + step, step)
    ensures forall v :: at < v < at + step ==> !OnStep(base, v, step)
  {
    hide OnStep;
    forall v | at < v < at + step ensures !OnStep(base, v, step) {
      WithinStep(base, at, step, v);
    }
    WithinStep(base, at, step, at + step);
  }

  /** Fills the accepted values of one field in place; None when the field is not valid. */
  method ParseField(index: nat, value: string) returns (accepted: Option<seq<bool>>)
    requires index < 5
    ensures accepted.Some? <==> FieldValid(index, value)
    ensures accepted.Some? ==> |accepted.value| == 60 && forall v :: 0 <= v < 60 ==> (accepted.value[v] <==> Accepts(index, value, v))
  {
    var minimum, maximum := MINIMUMS[index], MAXIMUMS[index];
    var slots := new bool[60](_ => false);
    if value == "*" {
      for v := minimum to maximum + 1
        invariant forall k :: 0 <= k < 60 ==> (slots[k] <==> minimum <= k < v)
      {
        slots[v] := true;
      }
      return Some(slots[..]);
    }
    if IsStep(value) {
      var step := ParseDecimal(value[2..]);
      if step.None? || step.value == 0 || step.value > maximum - minimum + 1 {
        return None;
      }
      FillSteps(slots, minimum, maximum, step.value);
      return Some(slots[..]);
    }
    var number := ParseDecimal(value);
    if number.None? || number.value < minimum || number.value > maximum {
      return None;
    }
    slots[number.value] := true;
    return Some(slots[..]);
  }

  method FillSteps(slots: array<bool>, minimum: int, maximum: int, step: int)
    requires slots.Length == 60 && 0 <= minimum <= maximum < 60 && step > 0 && forall k :: 0 <= k < 60 ==> !slots[k]
    modifies slots
    ensures forall k :: 0 <= k < 60 ==> (slots[k] <==> minimum <= k <= maximum && OnStep(minimum, k, step))
  {
    StepStart(minimum, step);
    hide OnStep;
    var at := minimum;
    while at <= maximum
      invariant minimum <= at && OnStep(minimum, at, step)
      invariant forall k :: 0 <= k < 60 ==> (slots[k] <==> minimum <= k <= maximum && k < at && OnStep(minimum, k, step))
      decreases maximum - at
    {
      NextMultiple(minimum, at, step);
      slots[at] := true;
      at := at + step;
    }
  }

  lemma StepStart(base: int, step: int)
    requires step > 0
    ensures OnStep(base, base, step)
  {
  }

  /** The fields that stand for the schedule. */
  ghost predicate Denotes(fields: seq<string>, s: Schedule) {
    && |fields| == 5 && WellFormed(s)
    && forall i :: 0 <= i < 5 ==>
         FieldValid(i, fields[i]) && forall v :: 0 <= v < 60 ==> (s.fields[i][v] <==> Accepts(i, fields[i], v))
  }

  ghost predicate ValidExpression(expression: string) {
    |Fields(expression)| == 5 && forall i :: 0 <= i < 5 ==> FieldValid(i, Fields(expression)[i])
  }

  /** Parses an expression of exactly five valid fields, and refuses every other. */
  method Parse(expression: string) returns (schedule: Option<Schedule>)
    ensures schedule.Some? <==> ValidExpression(expression)
    ensures schedule.Some? ==> Denotes(Fields(expression), schedule.value)
  {
    var values := SplitFields(expression);
    if |values| != 5 {
      return None;
    }
    var parsed: seq<seq<bool>> := [];
    for index := 0 to |values|
      invariant |parsed| == index
      invariant forall i :: 0 <= i < index ==>
                  FieldValid(i, values[i]) && |parsed[i]| == 60
                  && forall v :: 0 <= v < 60 ==> (parsed[i][v] <==> Accepts(i, values[i], v))
    {
      var accepted := ParseField(index, values[index]);
      if accepted.None? {
        return None;
      }
      parsed := parsed + [accepted.value];
    }
    return Some(Schedule(parsed));
  }

  // ---- matching ----

  function Weekday(day: int): int { (day + 4) % 7 }

  /** Whether the schedule accepts a minute, counted from 1970-01-01T00:00Z. */
  predicate Matches(s: Schedule, minute: int)
    requires WellFormed(s)
  {
    var day := minute / MINUTES_PER_DAY;
    var date := DateOf(day);
    && s.fields[0][minute % 60] && s.fields[1][(minute / 60) % 24] && s.fields[2][date.day] && s.fields[3][date.month]
    && s.fields[4][Weekday(day)]
  }

  lemma NextWeekday(day: int)
    ensures Weekday(day + 1) == (Weekday(day) + 1) % 7 && Weekday(0) == 4
  {
  }

  /** The days of the week follow each other, beginning with a Thursday on 1 January 1970; Sunday is 0. */
  lemma WeekdaysFollow(d: Date)
    requires ValidDate(d)
    ensures Weekday(DaysFromCivil(Date(1970, 1, 1))) == 4
    ensures Weekday(DaysFromCivil(NextDay(d))) == (Weekday(DaysFromCivil(d)) + 1) % 7
  {
    hide DaysFromCivil, NextDay, ValidDate, Weekday;
    NextDayIsSuccessor(d);
    ConversionIsBijection(0);
    NextWeekday(DaysFromCivil(d));
  }

  /** A minute of a day matches if and only if the expression accepts its minute, its hour, its day of the month, its month and
      its weekday, each by its own field. */
  lemma MatchesIff(fields: seq<string>, s: Schedule, d: Date, hour: int, minute: int)
    requires Denotes(fields, s) && ValidDate(d) && 0 <= hour < 24 && 0 <= minute < 60
    ensures Matches(s, DaysFromCivil(d) * MINUTES_PER_DAY + hour * 60 + minute)
            <==> && Accepts(0, fields[0], minute) && Accepts(1, fields[1], hour) && Accepts(2, fields[2], d.day)
                 && Accepts(3, fields[3], d.month) && Accepts(4, fields[4], Weekday(DaysFromCivil(d)))
  {
    hide Accepts, FieldValid, DaysFromCivil, ValidDate, DateOf;
    var day := DaysFromCivil(d);
    var at := day * MINUTES_PER_DAY + hour * 60 + minute;
    PartsOfMinute(day, hour, minute);
    DayOfDate(d);
    assert forall v :: 0 <= v < 60 ==> (s.fields[0][v] <==> Accepts(0, fields[0], v));
    assert s.fields[0][minute] <==> Accepts(0, fields[0], minute);
    assert s.fields[1][hour] <==> Accepts(1, fields[1], hour);
    assert s.fields[2][d.day] <==> Accepts(2, fields[2], d.day);
    assert s.fields[3][d.month] <==> Accepts(3, fields[3], d.month);
    assert s.fields[4][Weekday(day)] <==> Accepts(4, fields[4], Weekday(day));
  }

  lemma PartsOfMinute(day: int, hour: int, minute: int)
    requires 0 <= hour < 24 && 0 <= minute < 60
    ensures var at := day * MINUTES_PER_DAY + hour * 60 + minute;
            at / MINUTES_PER_DAY == day && at % 60 == minute && (at / 60) % 24 == hour
  {
    var at := day * MINUTES_PER_DAY + hour * 60 + minute;
    assert at == 60 * (day * 24 + hour) + minute;
    assert at / 60 == 24 * day + hour;
  }

  lemma DayOfDate(d: Date)
    requires ValidDate(d)
    ensures DateOf(DaysFromCivil(d)) == d && 1 <= d.day <= 31 && 1 <= d.month <= 12
  {
    ConversionIsBijection(DaysFromCivil(d));
  }

  /** The index of the minute after a time point; seconds are cut off toward zero first. */
  function NextMinute(time: int): int {
    var elapsed := TruncatedDiv(time, SECOND);
    (if elapsed >= 0 then elapsed / 60 else TruncatedDiv(elapsed - 59, 60)) + 1
  }

  /** The first minute after the time point, except for a time before 1970 that is a fraction of a second short of a
      whole minute: there the search starts one minute late. */
  lemma NextMinuteIsLeast(time: int)
    ensures time < NextMinute(time) * MINUTE
    ensures (NextMinute(time) - 1) * MINUTE <= time
            <==> !(time < 0 && time % SECOND != 0 && TruncatedDiv(time, SECOND) % 60 == 0)
  {
    var q := time / SECOND;
    assert time == q * SECOND + time % SECOND;
    assert time < 0 ==> TruncatedDiv(time, SECOND) == if time % SECOND == 0 then q else q + 1;
  }

  /** The first accepted minute of a window. */
  function Search(accepts: int -> bool, from: int, limit: int): (found: Option<int>)
    ensures found.Some? ==> from <= found.value <= limit && accepts(found.value)
                            && forall m :: from <= m < found.value ==> !accepts(m)
    ensures found.None? ==> forall m :: from <= m <= limit ==> !accepts(m)
    decreases limit - from
  {
    if from > limit then None else if accepts(from) then Some(from) else Search(accepts, from + 1, limit)
  }

  /** What the search returns: the least matching minute from the first one on, or nothing when the window has none. */
  ghost predicate Found(s: Schedule, time: int, result: Option<int>)
    requires WellFormed(s)
  {
    var first := NextMinute(time);
    match result
    case Some(t) =>
      && t % MINUTE == 0 && first <= t / MINUTE <= first + SEARCH_LIMIT && Matches(s, t / MINUTE)
      && forall m :: first <= m < t / MINUTE ==> !Matches(s, m)
    case None => forall m :: first <= m <= first + SEARCH_LIMIT ==> !Matches(s, m)
  }

  function Accepting(s: Schedule): (accepts: int -> bool)
    requires WellFormed(s)
    ensures forall m :: accepts(m) <==> Matches(s, m)
  {
    hide Matches;
    m => Matches(s, m)
  }

  function NextSlot(s: Schedule, time: int): (slot: Option<int>)
    requires WellFormed(s)
    ensures Found(s, time, slot)
  {
    hide Matches, NextMinute, Search;
    match Search(Accepting(s), NextMinute(time), NextMinute(time) + SEARCH_LIMIT)
    case Some(m) =>
      assert (m * MINUTE) / MINUTE == m;
      Some(m * MINUTE)
    case None => None
  }

  method NextAfter(s: Schedule, time: int) returns (result: Option<int>)
    requires WellFormed(s)
    ensures Found(s, time, result) && result == NextSlot(s, time)
  {
    hide Matches, NextMinute;
    var candidate := NextMinute(time);
    var end := candidate + SEARCH_LIMIT;
    while candidate <= end
      invariant NextMinute(time) <= candidate <= end + 1
      invariant Search(Accepting(s), NextMinute(time), end) == Search(Accepting(s), candidate, end)
    {
      if Matches(s, candidate) {
        return Some(candidate * MINUTE);
      }
      candidate := candidate + 1;
    }
    return None;
  }
}
