/** Printing an instant as the timestamp that every component exchanges, as the inverse of reading one. */
module UtcTimestamps {
  import opened Decimals
  import opened Calendar
  import opened Messages

  /** The last digits of a number, padded with zeros to a width. */
  function Padded(n: nat, width: nat): (text: string)
    ensures |text| == width && forall i :: 0 <= i < width ==> IsDigit(text[i])
  {
    if width == 0 then "" else Padded(n / 10, width - 1) + [DigitChar(n % 10)]
  }

  lemma {:induction false} ReadPadded(n: nat, width: nat)
    requires n < Power(width)
    ensures Read(Padded(n, width)) == n
  {
    if width > 0 {
      ReadPadded(n / 10, width - 1);
      assert Padded(n, width)[..width - 1] == Padded(n / 10, width - 1);
    }
  }

  lemma {:induction false} PaddedRead(text: string)
    requires AllDigits(text)
    ensures Padded(Read(text), |text|) == text
  {
    if text != "" {
      var n := |text| - 1;
      PaddedRead(text[..n]);
      LastDigit(Read(text[..n]), text[n]);
      assert text == text[..n] + [text[n]];
    }
  }

  lemma LastDigit(n: nat, c: char)
    requires IsDigit(c)
    ensures (n * 10 + DigitValue(c)) / 10 == n && DigitChar((n * 10 + DigitValue(c)) % 10) == c
  {
  }

  /** What put_time prints as four digits. */
  predicate FourDigitYear(seconds: int) { 1000 <= DateOf(seconds / 86400).year <= 9999 }

  /** The timestamp of an instant, given in seconds since the epoch. */
  function Format(seconds: int): (text: string)
    requires FourDigitYear(seconds)
    ensures Shaped(text)
  {
    var d, rest := DateOf(seconds / 86400), seconds % 86400;
    Padded(d.year, 4) + "-" + Padded(d.month, 2) + "-" + Padded(d.day, 2) + "T"
    + Padded(rest / 3600, 2) + ":" + Padded(rest / 60 % 60, 2) + ":" + Padded(rest % 60, 2) + "Z"
  }

  lemma FormatFields(seconds: int)
    requires FourDigitYear(seconds)
    ensures var text, d, rest := Format(seconds), DateOf(seconds / 86400), seconds % 86400;
            && text[0..4] == Padded(d.year, 4) && text[5..7] == Padded(d.month, 2) && text[8..10] == Padded(d.day, 2)
            && text[11..13] == Padded(rest / 3600, 2) && text[14..16] == Padded(rest / 60 % 60, 2)
            && text[17..19] == Padded(rest % 60, 2)
  {
    hide DateOf, Padded;
  }

  lemma FieldReads(text: string, offset: nat, length: nat, n: nat)
    requires offset + length <= |text| && text[offset..offset + length] == Padded(n, length) && n < Power(length)
    ensures Component(text, offset, length) == n
  {
    ReadPadded(n, length);
    var field := text[offset..offset + length];
    assert forall i :: offset <= i < offset + length ==> text[i] == field[i - offset];
  }

  lemma FormatComponents(seconds: int)
    requires FourDigitYear(seconds)
    ensures var text, d, rest := Format(seconds), DateOf(seconds / 86400), seconds % 86400;
            && Component(text, 0, 4) == d.year && Component(text, 5, 2) == d.month && Component(text, 8, 2) == d.day
            && Component(text, 11, 2) == rest / 3600 && Component(text, 14, 2) == rest / 60 % 60
            && Component(text, 17, 2) == rest % 60
  {
    hide DateOf, Padded, Component, Format, FourDigitYear;
    FormatFields(seconds);
    var text, d, rest := Format(seconds), DateOf(seconds / 86400), seconds % 86400;
    FourDigits(seconds);
    FieldReads(text, 0, 4, d.year);
    FieldReads(text, 5, 2, d.month);
    FieldReads(text, 8, 2, d.day);
    FieldReads(text, 11, 2, rest / 3600);
    FieldReads(text, 14, 2, rest / 60 % 60);
    FieldReads(text, 17, 2, rest % 60);
  }

  lemma FourDigits(seconds: int)
    requires FourDigitYear(seconds)
    ensures var d := DateOf(seconds / 86400);
            1000 <= d.year < Power(4) && 1 <= d.month < Power(2) && 1 <= d.day < Power(2) && Power(2) == 100
  {
    hide DateOf;
    assert Power(1) == 10 && Power(3) == 1000;
  }

  /** Every printed timestamp is accepted, and names the instant it was printed for. */
  lemma FormatRoundTrip(seconds: int)
    requires FourDigitYear(seconds)
    ensures IsRfc3339Utc(Format(seconds)) && Seconds(Format(seconds)) == seconds
    ensures ParseUtcTimestamp(Format(seconds)) == Some(seconds)
  {
    hide DateOf, Component, Format, DaysInMonth, DaysFromCivil;
    FormatComponents(seconds);
    TimeOfDay(seconds % 86400);
    ValidatorAgreesWithParser(Format(seconds));
  }

  lemma TimeOfDay(rest: int)
    requires 0 <= rest < 86400
    ensures 0 <= rest / 3600 <= 23 && 0 <= rest / 60 % 60 <= 59 && 0 <= rest % 60 <= 59
    ensures rest / 3600 * 3600 + rest / 60 % 60 * 60 + rest % 60 == rest
  {
    assert rest / 3600 == rest / 60 / 60;
  }

  /** And every accepted timestamp with a year of four digits is the one that is printed for its instant. */
  lemma FormatOfSeconds(text: string)
    requires IsRfc3339Utc(text) && Component(text, 0, 4) >= 1000
    ensures FourDigitYear(Seconds(text)) && Format(Seconds(text)) == text
  {
    hide DateOf, DaysInMonth, DaysFromCivil, Format;
    var seconds := Seconds(text);
    var d := Date(Component(text, 0, 4), Component(text, 5, 2), Component(text, 8, 2));
    var h, m, s := Component(text, 11, 2), Component(text, 14, 2), Component(text, 17, 2);
    SplitSeconds(DaysFromCivil(d), h, m, s);
    DateOfDays(d);
    YearRange(text);
    FormatFields(seconds);
    FieldPrints(text, 0, 4);
    FieldPrints(text, 5, 2);
    FieldPrints(text, 8, 2);
    FieldPrints(text, 11, 2);
    FieldPrints(text, 14, 2);
    FieldPrints(text, 17, 2);
    SameFields(Format(seconds), text);
  }

  lemma SplitSeconds(days: int, h: int, m: int, s: int)
    requires 0 <= h <= 23 && 0 <= m <= 59 && 0 <= s <= 59
    ensures var seconds := days * 86400 + h * 3600 + m * 60 + s;
            && seconds / 86400 == days && seconds % 86400 / 3600 == h && seconds % 86400 / 60 % 60 == m
            && seconds % 86400 % 60 == s
  {
    var rest := h * 3600 + m * 60 + s;
    assert (days * 86400 + rest) / 86400 == days && (days * 86400 + rest) % 86400 == rest;
    assert rest / 60 == h * 60 + m;
  }

  lemma YearRange(text: string)
    requires Shaped(text) && DigitField(text, 0, 4)
    ensures Component(text, 0, 4) <= 9999
  {
    ReadBound(text[0..4]);
    assert Power(1) == 10 && Power(2) == 100 && Power(3) == 1000;
  }

  lemma FieldPrints(text: string, offset: nat, length: nat)
    requires offset + length <= |text| && DigitField(text, offset, length)
    ensures Component(text, offset, length) >= 0
    ensures Padded(Component(text, offset, length), length) == text[offset..offset + length]
  {
    PaddedRead(text[offset..offset + length]);
  }

  lemma SameFields(a: string, b: string)
    requires Shaped(a) && Shaped(b)
    requires a[0..4] == b[0..4] && a[5..7] == b[5..7] && a[8..10] == b[8..10]
    requires a[11..13] == b[11..13] && a[14..16] == b[14..16] && a[17..19] == b[17..19]
    ensures a == b
  {
    forall i | 0 <= i < 20 ensures a[i] == b[i] {
      if 0 <= i < 4 { assert a[i] == a[0..4][i] && b[i] == b[0..4][i]; }
      if 5 <= i < 7 { assert a[i] == a[5..7][i - 5] && b[i] == b[5..7][i - 5]; }
      if 8 <= i < 10 { assert a[i] == a[8..10][i - 8] && b[i] == b[8..10][i - 8]; }
      if 11 <= i < 13 { assert a[i] == a[11..13][i - 11] && b[i] == b[11..13][i - 11]; }
      if 14 <= i < 16 { assert a[i] == a[14..16][i - 14] && b[i] == b[14..16][i - 14]; }
      if 17 <= i < 19 { assert a[i] == a[17..19][i - 17] && b[i] == b[17..19][i - 17]; }
    }
  }

  const NANOSECONDS: int := 1_000_000_000

  /** A reading of the system clock: nanoseconds since the epoch, in 64 bits. */
  predicate ClockReading(time: int) { -0x8000_0000_0000_0000 <= time < 0x8000_0000_0000_0000 }

  /** So the years the program prints always have four digits. */
  lemma ClockYears(time: int)
    requires ClockReading(time)
    ensures 1677 <= DateOf(time / NANOSECONDS / 86400).year <= 2262 && FourDigitYear(time / NANOSECONDS)
  {
    hide DateOf;
    var day := time / NANOSECONDS / 86400;
    assert -106752 <= day <= 106752;
    var d := DateOf(day);
    YearSpan(d);
    assert MarchStart(1676) + 305 < -106752 && MarchStart(2262) + 306 > 106752;
    hide MarchStart, DaysFromCivil;
    if d.year < 1677 {
      MarchStartMonotonic(d.year, 1676);
    }
    if d.year > 2262 {
      MarchStartMonotonic(2262, d.year - 1);
    }
  }

  /** The timestamp of a clock reading. */
  function FormatClock(time: int): (text: string)
    requires ClockReading(time)
    ensures Shaped(text)
  {
    ClockYears(time);
    Format(time / NANOSECONDS)
  }
}
