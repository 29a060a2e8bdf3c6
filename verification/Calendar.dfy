/** The two pieces of calendar arithmetic in the control plane: the RFC 3339 validator for UTC timestamps and
    the civil-date conversion behind the timestamp parser. */
module Calendar {
  import opened Messages
  import opened Decimals

  datatype Date = Date(year: int, month: int, day: int)

  predicate IsLeapYear(year: int) { (year % 4 == 0 && year % 100 != 0) || year % 400 == 0 }

  function DaysInMonth(year: int, month: int): int
    requires 1 <= month <= 12
  {
    if month == 2 then if IsLeapYear(year) then 29 else 28
    else if month == 4 || month == 6 || month == 9 || month == 11 then 30 else 31
  }

  predicate ValidDate(d: Date) { 1 <= d.month <= 12 && 1 <= d.day <= DaysInMonth(d.year, d.month) }

  /** Integer division that truncates toward zero, as the program's does. */
  function TruncatedDiv(a: int, b: int): int
    requires b > 0
  {
    if a >= 0 then a / b else -((-a) / b)
  }

  function DaysFromCivil(date: Date): int {
    var year := if date.month <= 2 then date.year - 1 else date.year;
    var era := TruncatedDiv(if year >= 0 then year else year - 399, 400);
    var yearOfEra := year - era * 400;
    var dayOfYear := TruncatedDiv(153 * (date.month + (if date.month > 2 then -3 else 9)) + 2, 5) + date.day - 1;
    var dayOfEra := yearOfEra * 365 + TruncatedDiv(yearOfEra, 4) - TruncatedDiv(yearOfEra, 100) + dayOfYear;
    era * 146097 + dayOfEra - 719468
  }

  // ---- the conversion counts days ----

  function NextDay(d: Date): Date
    requires ValidDate(d)
  {
    if d.day < DaysInMonth(d.year, d.month) then d.(day := d.day + 1)
    else if d.month < 12 then Date(d.year, d.month + 1, 1)
    else Date(d.year + 1, 1, 1)
  }

  function PreviousDay(d: Date): Date
    requires ValidDate(d)
  {
    if d.day > 1 then d.(day := d.day - 1)
    else if d.month > 1 then Date(d.year, d.month - 1, DaysInMonth(d.year, d.month - 1))
    else Date(d.year - 1, 12, 31)
  }

  /** Days before the first of March of a year, counted from a fixed origin. */
  function MarchStart(year: int): int { 365 * year + year / 4 - year / 100 + year / 400 - 719468 }

  function MonthOffset(month: int): int
    requires 1 <= month <= 12
  {
    [306, 337, 0, 31, 61, 92, 122, 153, 184, 214, 245, 275][month - 1]
  }

  lemma EraDecomposition(year: int)
    ensures TruncatedDiv(if year >= 0 then year else year - 399, 400) == year / 400
    ensures var era, r := year / 400, year % 400;
            year / 4 == 100 * era + r / 4 && year / 100 == 4 * era + r / 100
  {
    if year < 0 {
      var k := year / 400;
      assert 399 - year == 400 * (-k) + (399 - year % 400);
    }
  }

  /** The conversion is the number of days before March of the shifted year plus the offset in it. */
  lemma ConversionIsDayCount(d: Date)
    requires 1 <= d.month <= 12
    ensures DaysFromCivil(d)
         == MarchStart(if d.month <= 2 then d.year - 1 else d.year) + MonthOffset(d.month) + d.day - 1
  {
    EraDecomposition(if d.month <= 2 then d.year - 1 else d.year);
  }

  lemma MarchStartStep(year: int)
    ensures MarchStart(year + 1) == MarchStart(year) + (if IsLeapYear(year + 1) then 366 else 365)
  {
    var a, b, c := year / 4, year / 100, year / 400;
    assert (year + 1) / 4 == a + (if (year + 1) % 4 == 0 then 1 else 0);
    assert (year + 1) / 100 == b + (if (year + 1) % 100 == 0 then 1 else 0);
    assert (year + 1) / 400 == c + (if (year + 1) % 400 == 0 then 1 else 0);
  }

  /** The day after a date is one more. */
  lemma NextDayIsSuccessor(d: Date)
    requires ValidDate(d)
    ensures ValidDate(NextDay(d)) && DaysFromCivil(NextDay(d)) == DaysFromCivil(d) + 1
  {
    hide DaysFromCivil, MarchStart;
    ConversionIsDayCount(d);
    ConversionIsDayCount(NextDay(d));
    MarchStartStep(d.year - 1);
  }

  lemma PreviousDayIsPredecessor(d: Date)
    requires ValidDate(d)
    ensures ValidDate(PreviousDay(d)) && NextDay(PreviousDay(d)) == d
    ensures DaysFromCivil(PreviousDay(d)) == DaysFromCivil(d) - 1
  {
    NextDayIsSuccessor(PreviousDay(d));
  }

  predicate Before(a: Date, b: Date) {
    a.year < b.year || (a.year == b.year && (a.month < b.month || (a.month == b.month && a.day < b.day)))
  }

  lemma {:induction false} MarchStartMonotonic(a: int, b: int)
    requires a <= b
    ensures MarchStart(a) + 365 * (b - a) <= MarchStart(b)
    decreases b - a
  {
    if a < b {
      MarchStartStep(a);
      MarchStartMonotonic(a + 1, b);
    }
  }

  /** Strictly increasing on valid dates. */
  lemma DaysIncrease(a: Date, b: Date)
    requires ValidDate(a) && ValidDate(b)
    ensures Before(a, b) <==> DaysFromCivil(a) < DaysFromCivil(b)
  {
    if Before(a, b) {
      DaysIncreaseForward(a, b);
    } else if a != b {
      DaysIncreaseForward(b, a);
    }
  }

  lemma DaysIncreaseForward(a: Date, b: Date)
    requires ValidDate(a) && ValidDate(b) && Before(a, b)
    ensures DaysFromCivil(a) < DaysFromCivil(b)
  {
    if a.year < b.year {
      YearSpan(a);
      YearSpan(b);
      MarchStartMonotonic(a.year, b.year - 1);
    } else if a.month < b.month {
      WithinMonth(a.year, a.month, a.day, DaysInMonth(a.year, a.month));
      WithinMonth(b.year, b.month, 1, b.day);
      LaterMonth(a.year, a.month, b.month);
    } else {
      WithinMonth(a.year, a.month, a.day, b.day);
    }
  }

  lemma WithinMonth(year: int, month: int, m: int, n: int)
    ensures DaysFromCivil(Date(year, month, n)) == DaysFromCivil(Date(year, month, m)) + (n - m)
  {
  }

  lemma {:induction false} LaterMonth(year: int, m: int, n: int)
    requires 1 <= m < n <= 12
    ensures DaysFromCivil(Date(year, m, DaysInMonth(year, m))) < DaysFromCivil(Date(year, n, 1))
    decreases n - m
  {
    NextDayIsSuccessor(Date(year, m, DaysInMonth(year, m)));
    if m + 1 < n {
      LaterMonth(year, m + 1, n);
      WithinMonth(year, m + 1, 1, DaysInMonth(year, m + 1));
    }
  }

  /** The days of one year lie between its first of January and its 31st of December. */
  lemma YearSpan(d: Date)
    requires ValidDate(d)
    ensures MarchStart(d.year - 1) + 306 <= DaysFromCivil(d) <= MarchStart(d.year) + 305
  {
    ConversionIsDayCount(d);
    MarchStartStep(d.year - 1);
  }

  /** The conversion is a bijection from valid dates onto the integers, with 1970-01-01 at zero. */
  lemma ConversionIsBijection(n: int)
    ensures DaysFromCivil(Date(1970, 1, 1)) == 0
    ensures exists d :: ValidDate(d) && DaysFromCivil(d) == n
    ensures forall d, e :: ValidDate(d) && ValidDate(e) && DaysFromCivil(d) == n && DaysFromCivil(e) == n ==> d == e
  {
    assert ValidDate(DateOf(n)) && DaysFromCivil(DateOf(n)) == n;
    forall d, e | ValidDate(d) && ValidDate(e) && DaysFromCivil(d) == n && DaysFromCivil(e) == n
      ensures d == e
    {
      DaysIncrease(d, e);
      DaysIncrease(e, d);
    }
  }

  /** The date of a day number, which is what the C library's gmtime computes. */
  function DateOf(n: int): (d: Date)
    ensures ValidDate(d) && DaysFromCivil(d) == n
    decreases if n >= 0 then n else -n
  {
    if n == 0 then Date(1970, 1, 1)
    else if n > 0 then
      var before := DateOf(n - 1);
      NextDayIsSuccessor(before);
      NextDay(before)
    else
      var after := DateOf(n + 1);
      PreviousDayIsPredecessor(after);
      PreviousDay(after)
  }

  lemma DateOfDays(d: Date)
    requires ValidDate(d)
    ensures DateOf(DaysFromCivil(d)) == d
  {
    ConversionIsBijection(DaysFromCivil(d));
  }

  // ---- the validator ----

  predicate Shaped(text: string) {
    && |text| == 20 && text[4] == '-' && text[7] == '-' && text[10] == 'T' && text[13] == ':' && text[16] == ':'
    && text[19] == 'Z'
  }

  predicate DigitField(text: string, offset: nat, length: nat)
    requires offset + length <= |text|
  {
    forall i :: offset <= i < offset + length ==> IsDigit(text[i])
  }

  method DecimalComponent(text: string, offset: nat, length: nat) returns (result: int)
    requires offset + length <= |text|
    ensures result == Component(text, offset, length)
  {
    result := 0;
    for index := offset to offset + length
      invariant DigitField(text, offset, index - offset)
      invariant result == Read(text[offset..index])
    {
      if !IsDigit(text[index]) {
        return -1;
      }
      result := result * 10 + DigitValue(text[index]);
      assert text[offset..index + 1][..index - offset] == text[offset..index];
    }
  }

  function Component(text: string, offset: nat, length: nat): int
    requires offset + length <= |text|
  {
    if DigitField(text, offset, length) then Read(text[offset..offset + length]) else -1
  }

  predicate IsRfc3339Utc(text: string) {
    && Shaped(text)
    && Component(text, 0, 4) >= 1 && 1 <= Component(text, 5, 2) <= 12
    && 0 <= Component(text, 11, 2) <= 23 && 0 <= Component(text, 14, 2) <= 59 && 0 <= Component(text, 17, 2) <= 59
    && 1 <= Component(text, 8, 2) <= DaysInMonth(Component(text, 0, 4), Component(text, 5, 2))
  }

  // ---- the parser ----

  /** std::from_chars on an int, required to consume the whole field: a minus sign is accepted. */
  function Number(text: string): Option<int> {
    if text != "" && text[0] == '-' then
      if |text| > 1 && forall i :: 1 <= i < |text| ==> IsDigit(text[i])
      then var magnitude: int := Read(text[1..]); Some(-magnitude)
      else None
    else if text != "" && forall i :: 0 <= i < |text| ==> IsDigit(text[i]) then Some(Read(text))
    else None
  }

  /** Seconds since the epoch. */
  function ParseUtcTimestamp(text: string): Option<int> {
    if !Shaped(text) then None
    else
      var year, month, day := Number(text[0..4]), Number(text[5..7]), Number(text[8..10]);
      var hour, minute, second := Number(text[11..13]), Number(text[14..16]), Number(text[17..19]);
      if year.None? || month.None? || day.None? || hour.None? || minute.None? || second.None?
         || month.value < 1 || month.value > 12 || day.value < 1 || day.value > 31
         || hour.value > 23 || minute.value > 59 || second.value > 59
      then None
      else Some(DaysFromCivil(Date(year.value, month.value, day.value)) * 86400
                + hour.value * 3600 + minute.value * 60 + second.value)
  }

  predicate DigitsInPlace(text: string)
    requires Shaped(text)
  {
    && DigitField(text, 0, 4) && DigitField(text, 5, 2) && DigitField(text, 8, 2) && DigitField(text, 11, 2)
    && DigitField(text, 14, 2) && DigitField(text, 17, 2)
  }

  lemma NumberIsComponent(text: string, offset: nat, length: nat)
    requires offset + length <= |text| && length > 0 && DigitField(text, offset, length)
    ensures Number(text[offset..offset + length]) == Some(Component(text, offset, length))
  {
    var field := text[offset..offset + length];
    assert field[0] == text[offset];
    assert forall i :: 0 <= i < |field| ==> field[i] == text[offset + i];
  }

  /** On fields made of digits the validator and the parser disagree only about year zero and days past the end
      of a month: everything the validator accepts parses. */
  lemma ValidatorAgreesWithParser(text: string)
    ensures IsRfc3339Utc(text) <==>
              && Shaped(text) && DigitsInPlace(text) && ParseUtcTimestamp(text).Some?
              && Component(text, 0, 4) >= 1
              && Component(text, 8, 2) <= DaysInMonth(Component(text, 0, 4), Component(text, 5, 2))
    ensures IsRfc3339Utc(text) ==> ParseUtcTimestamp(text).value == Seconds(text)
  {
    if Shaped(text) && DigitsInPlace(text) {
      NumberIsComponent(text, 0, 4);
      NumberIsComponent(text, 5, 2);
      NumberIsComponent(text, 8, 2);
      NumberIsComponent(text, 11, 2);
      NumberIsComponent(text, 14, 2);
      NumberIsComponent(text, 17, 2);
    }
  }

  /** The parser alone accepts a signed hour: any accepted timestamp with its hour replaced by -1 still parses. */
  lemma ParserAcceptsSignedHour(text: string)
    requires IsRfc3339Utc(text)
    ensures var signed := text[11 := '-'][12 := '1'];
            ParseUtcTimestamp(signed).Some? && !IsRfc3339Utc(signed)
  {
    var signed := text[11 := '-'][12 := '1'];
    ValidatorAgreesWithParser(text);
    assert signed[0..4] == text[0..4] && signed[5..7] == text[5..7] && signed[8..10] == text[8..10];
    assert signed[14..16] == text[14..16] && signed[17..19] == text[17..19];
    assert signed[11..13] == ['-', '1'];
    assert !IsDigit(signed[11]);
  }

  function Seconds(text: string): int
    requires IsRfc3339Utc(text)
  {
    DaysFromCivil(Date(Component(text, 0, 4), Component(text, 5, 2), Component(text, 8, 2))) * 86400
    + Component(text, 11, 2) * 3600 + Component(text, 14, 2) * 60 + Component(text, 17, 2)
  }

  // ---- string order is time order ----

  predicate LexLess(a: string, b: string)
    requires |a| == |b|
  {
    a != "" && (a[0] < b[0] || (a[0] == b[0] && LexLess(a[1..], b[1..])))
  }

  lemma {:induction false} LexLessConcat(a: string, b: string, x: string, y: string)
    requires |a| == |b| && |x| == |y|
    ensures LexLess(a + x, b + y) <==> LexLess(a, b) || (a == b && LexLess(x, y))
  {
    if a == "" {
      assert a + x == x && b + y == y;
    } else {
      LexLessConcat(a[1..], b[1..], x, y);
      assert (a + x)[1..] == a[1..] + x && (b + y)[1..] == b[1..] + y;
      assert a == [a[0]] + a[1..] && b == [b[0]] + b[1..];
    }
  }

  /** Numerals of one width are ordered as strings exactly as they are ordered as numbers. */
  lemma {:induction false} NumeralOrder(a: string, b: string)
    requires |a| == |b| && AllDigits(a) && AllDigits(b)
    ensures LexLess(a, b) <==> Read(a) < Read(b)
    ensures a == b <==> Read(a) == Read(b)
  {
    if a != "" {
      var n := |a| - 1;
      NumeralOrder(a[..n], b[..n]);
      LexLessConcat(a[..n], b[..n], [a[n]], [b[n]]);
      assert a == a[..n] + [a[n]] && b == b[..n] + [b[n]];
      assert LexLess([a[n]], [b[n]]) <==> a[n] < b[n];
    }
  }

  /** Comparing one fixed-width field and its separator before the rest. */
  lemma FieldOrder(a: string, b: string, offset: nat, length: nat)
    requires |a| == |b| && offset + length < |a| && a[offset + length] == b[offset + length]
    requires DigitField(a, offset, length) && DigitField(b, offset, length)
    ensures LexLess(a[offset..], b[offset..]) <==>
              || Component(a, offset, length) < Component(b, offset, length)
              || (Component(a, offset, length) == Component(b, offset, length)
                  && LexLess(a[offset + length + 1..], b[offset + length + 1..]))
  {
    var end := offset + length;
    var u, v := a[offset..end], b[offset..end];
    NumeralOrder(u, v);
    LexLessConcat(u, v, a[end..], b[end..]);
    assert a[offset..] == u + a[end..] && b[offset..] == v + b[end..];
    assert a[end..][1..] == a[end + 1..] && b[end..][1..] == b[end + 1..];
  }

  /** For accepted timestamps, comparing the strings compares the instants they name. */
  lemma StringOrderIsTimeOrder(a: string, b: string)
    requires IsRfc3339Utc(a) && IsRfc3339Utc(b)
    ensures LexLess(a, b) <==> Seconds(a) < Seconds(b)
  {
    FieldOrder(a, b, 0, 4);
    FieldOrder(a, b, 5, 2);
    FieldOrder(a, b, 8, 2);
    FieldOrder(a, b, 11, 2);
    FieldOrder(a, b, 14, 2);
    FieldOrder(a, b, 17, 2);
    assert a[0..] == a && b[0..] == b && a[20..] == "" && b[20..] == "";
    var d := Date(Component(a, 0, 4), Component(a, 5, 2), Component(a, 8, 2));
    var e := Date(Component(b, 0, 4), Component(b, 5, 2), Component(b, 8, 2));
    DaysIncrease(d, e);
    DaysIncrease(e, d);
    TimeOfDayOrder(DaysFromCivil(d), Component(a, 11, 2), Component(a, 14, 2), Component(a, 17, 2),
                   DaysFromCivil(e), Component(b, 11, 2), Component(b, 14, 2), Component(b, 17, 2));
  }

  lemma TimeOfDayOrder(d: int, h: int, m: int, s: int, e: int, i: int, n: int, t: int)
    requires 0 <= h < 24 && 0 <= m < 60 && 0 <= s < 60 && 0 <= i < 24 && 0 <= n < 60 && 0 <= t < 60
    ensures d * 86400 + h * 3600 + m * 60 + s < e * 86400 + i * 3600 + n * 60 + t
       <==> d < e || (d == e && (h < i || (h == i && (m < n || (m == n && s < t)))))
  {
  }
}
