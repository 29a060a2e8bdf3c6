/** Parsing CSV: one line by a character state machine, and a file line by line. Characters stand for bytes. */
module Csv {
  import opened Messages
  import opened Decimals
  import opened Reporting

  const QUOTE := '\"'

  datatype FieldState = Start | Unquoted | Quoted | QuoteClosed

  datatype LineResult = Fields(fields: seq<string>) | SyntaxError(message: string) | UnclosedQuote

  // ---- one line ----

  /** What the state machine makes of the rest of a line. */
  function Scan(rest: string, state: FieldState, field: string, fields: seq<string>): LineResult
    decreases |rest|
  {
    if rest == "" then if state.Quoted? then UnclosedQuote else Fields(fields + [field])
    else
      var ch := rest[0];
      match state
      case Start =>
        if ch == ',' then Scan(rest[1..], Start, field, fields + [""])
        else if ch == QUOTE then Scan(rest[1..], Quoted, field, fields)
        else Scan(rest[1..], Unquoted, field + [ch], fields)
      case Unquoted =>
        if ch == ',' then Scan(rest[1..], Start, "", fields + [field])
        else if ch == QUOTE then SyntaxError("quote inside an unquoted field")
        else Scan(rest[1..], Unquoted, field + [ch], fields)
      case Quoted =>
        if ch != QUOTE then Scan(rest[1..], Quoted, field + [ch], fields)
        else if |rest| > 1 && rest[1] == QUOTE then Scan(rest[2..], Quoted, field + [QUOTE], fields)
        else Scan(rest[1..], QuoteClosed, field, fields)
      case QuoteClosed =>
        if ch == ',' then Scan(rest[1..], Start, "", fields + [field])
        else SyntaxError("content after a closing quote")
  }

  function ParseLine(line: string): LineResult { Scan(line, Start, "", []) }

  method ParseCsvLine(line: string) returns (result: LineResult)
    ensures result == ParseLine(line)
  {
    var fields: seq<string> := [];
    var field := "";
    var state := Start;
    var index := 0;
    while index < |line|
      invariant 0 <= index <= |line| && Scan(line[index..], state, field, fields) == ParseLine(line)
      decreases |line| - index
    {
      var ch := line[index];
      assert line[index..][1..] == line[index + 1..];
      match state {
        case Start =>
          if ch == ',' {
            fields := fields + [""];
          } else if ch == QUOTE {
            state := Quoted;
          } else {
            field := field + [ch];
            state := Unquoted;
          }
        case Unquoted =>
          if ch == ',' {
            fields := fields + [field];
            field := "";
            state := Start;
          } else if ch == QUOTE {
            return SyntaxError("quote inside an unquoted field");
          } else {
            field := field + [ch];
          }
        case Quoted =>
          if ch == QUOTE {
            if index + 1 < |line| && line[index + 1] == QUOTE {
              field := field + [QUOTE];
              assert line[index..][2..] == line[index + 2..];
              index := index + 1;
            } else {
              state := QuoteClosed;
            }
          } else {
            field := field + [ch];
          }
        case QuoteClosed =>
          if ch == ',' {
            fields := fields + [field];
            field := "";
            state := Start;
          } else {
            return SyntaxError("content after a closing quote");
          }
      }
      index := index + 1;
    }
    if state == Quoted {
      return UnclosedQuote;
    }
    return Fields(fields + [field]);
  }

  // ---- the grammar of section 2 of RFC 4180, on one line ----

  ghost predicate Plain(text: string) { forall i :: 0 <= i < |text| ==> text[i] != ',' && text[i] != QUOTE }

  function Escaped(field: string): string {
    if field == "" then ""
    else (if field[0] == QUOTE then [QUOTE, QUOTE] else [field[0]]) + Escaped(field[1..])
  }

  /** The text is one of the ways to write the field: as it is when it has no comma and no quote, or in quotes with every
      quote doubled. */
  ghost predicate Writes(text: string, field: string) {
    (text == field && Plain(field)) || text == [QUOTE] + Escaped(field) + [QUOTE]
  }

  function Join(texts: seq<string>): string
    requires texts != []
  {
    if |texts| == 1 then texts[0] else texts[0] + "," + Join(texts[1..])
  }

  function Tail(texts: seq<string>): string { if texts == [] then "" else "," + Join(texts) }

  ghost predicate AllWritten(texts: seq<string>, fields: seq<string>) {
    |texts| == |fields| && forall i :: 0 <= i < |texts| ==> Writes(texts[i], fields[i])
  }

  /** The line is a way to write the fields. */
  ghost predicate Renders(line: string, fields: seq<string>) {
    exists texts: seq<string> :: texts != [] && AllWritten(texts, fields) && line == Join(texts)
  }

  // ---- whatever is written is read back ----

  lemma {:induction false} PlainScan(text: string, rest: string, field: string, fields: seq<string>)
    requires Plain(text)
    ensures Scan(text + rest, Unquoted, field, fields) == Scan(rest, Unquoted, field + text, fields)
  {
    if text == "" {
      assert text + rest == rest && field + text == field;
    } else {
      assert (text + rest)[0] == text[0] && (text + rest)[1..] == text[1..] + rest;
      PlainScan(text[1..], rest, field + [text[0]], fields);
      assert field + [text[0]] + text[1..] == field + text;
    }
  }

  lemma {:induction false} QuotedScan(value: string, rest: string, field: string, fields: seq<string>)
    requires rest == "" || rest[0] == ','
    ensures Scan(Escaped(value) + [QUOTE] + rest, Quoted, field, fields) == Scan(rest, QuoteClosed, field + value, fields)
  {
    var line := Escaped(value) + [QUOTE] + rest;
    if value == "" {
      assert line == [QUOTE] + rest && line[1..] == rest && field + value == field;
    } else {
      QuotedScan(value[1..], rest, field + [value[0]], fields);
      assert field + [value[0]] + value[1..] == field + value;
      if value[0] == QUOTE {
        assert line[2..] == Escaped(value[1..]) + [QUOTE] + rest;
      } else {
        assert line[1..] == Escaped(value[1..]) + [QUOTE] + rest;
      }
    }
  }

  lemma PlainFieldScan(field: string, rest: string, fields: seq<string>)
    requires Plain(field) && (rest == "" || rest[0] == ',')
    ensures Scan(field + rest, Start, "", fields)
         == if rest == "" then Fields(fields + [field]) else Scan(rest[1..], Start, "", fields + [field])
  {
    if field == "" {
      assert field + rest == rest;
    } else {
      assert (field + rest)[0] == field[0] && (field + rest)[1..] == field[1..] + rest;
      PlainScan(field[1..], rest, [field[0]], fields);
      assert [field[0]] + field[1..] == field && "" + [field[0]] == [field[0]];
    }
  }

  lemma QuotedFieldScan(field: string, rest: string, fields: seq<string>)
    requires rest == "" || rest[0] == ','
    ensures Scan([QUOTE] + Escaped(field) + [QUOTE] + rest, Start, "", fields)
         == if rest == "" then Fields(fields + [field]) else Scan(rest[1..], Start, "", fields + [field])
  {
    assert ([QUOTE] + Escaped(field) + [QUOTE] + rest)[1..] == Escaped(field) + [QUOTE] + rest;
    QuotedScan(field, rest, "", fields);
    assert "" + field == field;
  }

  lemma FieldScan(text: string, field: string, texts: seq<string>, fields: seq<string>)
    requires Writes(text, field)
    ensures Scan(text + Tail(texts), Start, "", fields)
         == if texts == [] then Fields(fields + [field]) else Scan(Join(texts), Start, "", fields + [field])
  {
    hide Scan, Plain, Escaped;
    var rest := Tail(texts);
    assert rest == "" || (rest[0] == ',' && rest[1..] == Join(texts));
    if text == field && Plain(field) {
      PlainFieldScan(field, rest, fields);
    } else {
      QuotedFieldScan(field, rest, fields);
    }
  }

  lemma {:induction false} WrittenScan(texts: seq<string>, wanted: seq<string>, fields: seq<string>)
    requires texts != [] && AllWritten(texts, wanted)
    ensures Scan(Join(texts), Start, "", fields) == Fields(fields + wanted)
    decreases |texts|
  {
    FieldScan(texts[0], wanted[0], texts[1..], fields);
    if |texts| == 1 {
      assert texts[0] + Tail(texts[1..]) == Join(texts) && wanted == [wanted[0]];
    } else {
      assert texts[0] + Tail(texts[1..]) == Join(texts);
      WrittenScan(texts[1..], wanted[1..], fields + [wanted[0]]);
      assert fields + [wanted[0]] + wanted[1..] == fields + wanted;
    }
  }

  // ---- whatever is read was written ----

  /** The texts write the fields that follow the given ones. */
  ghost predicate Follow(fields: seq<string>, texts: seq<string>, out: seq<string>) {
    |out| == |fields| + |texts| && out[..|fields|] == fields && AllWritten(texts, out[|fields|..])
  }

  lemma FollowNone(fields: seq<string>)
    ensures Follow(fields, [], fields)
  {
  }

  lemma FollowOne(fields: seq<string>, text: string, field: string, more: seq<string>, out: seq<string>)
    requires Writes(text, field) && Follow(fields + [field], more, out)
    ensures Follow(fields, [text] + more, out)
  {
    var n := |fields|;
    assert out[..n + 1][..n] == out[..n] && (fields + [field])[..n] == fields;
    assert out[n] == out[..n + 1][n] == field;
    forall i | 0 <= i < |more| + 1 ensures Writes(([text] + more)[i], out[n..][i]) {
      if i > 0 {
        assert ([text] + more)[i] == more[i - 1] && out[n..][i] == out[n + 1..][i - 1];
      }
    }
  }

  lemma Prepend(rest: string, tail: string, end: string)
    requires rest != "" && rest[1..] == tail + end
    ensures rest == ([rest[0]] + tail) + end
  {
    assert rest == [rest[0]] + rest[1..];
  }

  lemma JoinTail(text: string, more: seq<string>)
    ensures Join([text] + more) == text + Tail(more)
  {
    assert ([text] + more)[1..] == more;
    assert text + "" == text;
  }

  /** One step of the machine at the start of a field. */
  lemma StartStep(rest: string, fields: seq<string>)
    requires rest != ""
    ensures Scan(rest, Start, "", fields)
         == if rest[0] == ',' then Scan(rest[1..], Start, "", fields + [""])
            else if rest[0] == QUOTE then Scan(rest[1..], Quoted, "", fields)
            else Scan(rest[1..], Unquoted, [rest[0]], fields)
  {
    assert "" + [rest[0]] == [rest[0]];
  }

  lemma {:induction false} StartSound(rest: string, fields: seq<string>, out: seq<string>) returns (texts: seq<string>)
    requires Scan(rest, Start, "", fields) == Fields(out)
    ensures texts != [] && rest == Join(texts) && Follow(fields, texts, out)
    decreases |rest|, 1
  {
    hide Follow, Join, Escaped;
    var text, field, more;
    if rest == "" {
      text, field, more := "", "", [];
      FollowNone(out);
    } else {
      hide Scan;
      StartStep(rest, fields);
      if rest[0] == ',' {
        text, field := "", "";
        more := StartSound(rest[1..], fields + [""], out);
        assert rest == "," + rest[1..];
      } else if rest[0] == QUOTE {
        field, more := QuotedSound(rest[1..], "", fields, out);
        text := [QUOTE] + Escaped(field) + [QUOTE];
        assert "" + field == field && rest == [QUOTE] + rest[1..];
      } else {
        var plain;
        PlainOne(rest[0]);
        plain, more := UnquotedSound(rest[1..], [rest[0]], fields, out);
        text := [rest[0]] + plain;
        field := text;
        Prepend(rest, plain, Tail(more));
      }
    }
    texts := [text] + more;
    JoinTail(text, more);
    FollowOne(fields, text, field, more, out);
  }

  lemma PlainOne(c: char)
    requires c != ',' && c != QUOTE
    ensures Plain([c])
  {
  }

  lemma {:induction false} ClosedSound(rest: string, field: string, fields: seq<string>,
                                       out: seq<string>) returns (more: seq<string>)
    requires Scan(rest, QuoteClosed, field, fields) == Fields(out)
    ensures rest == Tail(more) && Follow(fields + [field], more, out)
    decreases |rest|, 2
  {
    hide Follow, Join;
    if rest == "" {
      more := [];
      FollowNone(out);
    } else {
      more := StartSound(rest[1..], fields + [field], out);
      assert rest == "," + rest[1..];
    }
  }

  lemma {:induction false} UnquotedSound(rest: string, field: string, fields: seq<string>, out: seq<string>)
    returns (plain: string, more: seq<string>)
    requires Scan(rest, Unquoted, field, fields) == Fields(out) && Plain(field)
    ensures Plain(field + plain) && rest == plain + Tail(more) && Follow(fields + [field + plain], more, out)
    decreases |rest|, 2
  {
    hide Follow, Join;
    assert field + "" == field;
    if rest == "" {
      plain, more := "", [];
      FollowNone(out);
    } else if rest[0] == ',' {
      more := StartSound(rest[1..], fields + [field], out);
      plain := "";
      assert rest == "," + rest[1..];
    } else {
      var tail;
      tail, more := UnquotedSound(rest[1..], field + [rest[0]], fields, out);
      plain := [rest[0]] + tail;
      Prepend(rest, tail, Tail(more));
      assert field + plain == field + [rest[0]] + tail;
    }
  }

  /** One step of the machine inside quotes. */
  lemma QuotedStep(rest: string, field: string, fields: seq<string>)
    requires rest != ""
    ensures Scan(rest, Quoted, field, fields)
         == if rest[0] != QUOTE then Scan(rest[1..], Quoted, field + [rest[0]], fields)
            else if |rest| > 1 && rest[1] == QUOTE then Scan(rest[2..], Quoted, field + [QUOTE], fields)
            else Scan(rest[1..], QuoteClosed, field, fields)
  {
  }

  lemma {:induction false} QuotedSound(rest: string, field: string, fields: seq<string>, out: seq<string>)
    returns (value: string, more: seq<string>)
    requires Scan(rest, Quoted, field, fields) == Fields(out)
    ensures rest == Escaped(value) + [QUOTE] + Tail(more) && Follow(fields + [field + value], more, out)
    decreases |rest|, 3
  {
    hide Follow, Join, Escaped;
    NonEmptyQuoted(rest, field, fields);
    hide Scan;
    QuotedStep(rest, field, fields);
    if rest[0] == QUOTE && !(|rest| > 1 && rest[1] == QUOTE) {
      more := ClosedSound(rest[1..], field, fields, out);
      value := "";
      NothingEscaped();
      assert rest == [QUOTE] + rest[1..] && field + "" == field;
    } else {
      var width := if rest[0] == QUOTE then 2 else 1;
      var tail;
      tail, more := QuotedSound(rest[width..], field + [rest[0]], fields, out);
      value := [rest[0]] + tail;
      EscapedStep(rest[0], tail);
      assert field + value == field + [rest[0]] + tail;
      assert rest == rest[..width] + rest[width..];
      assert rest[..width] == if rest[0] == QUOTE then [QUOTE, QUOTE] else [rest[0]];
    }
  }

  lemma NonEmptyQuoted(rest: string, field: string, fields: seq<string>)
    ensures Scan(rest, Quoted, field, fields).Fields? ==> rest != ""
  {
  }

  lemma NothingEscaped()
    ensures Escaped("") == ""
  {
  }

  lemma EscapedStep(ch: char, tail: string)
    ensures Escaped([ch] + tail) == (if ch == QUOTE then [QUOTE, QUOTE] else [ch]) + Escaped(tail)
  {
    assert ([ch] + tail)[1..] == tail;
  }

  /** The parser accepts exactly the single-line grammar, and returns exactly the fields that were written, whichever
      fields the writer chose to quote. */
  lemma ParsesExactlyWhatIsWritten(line: string, fields: seq<string>)
    ensures ParseLine(line) == Fields(fields) <==> Renders(line, fields)
  {
    if Renders(line, fields) {
      var texts: seq<string> :| texts != [] && AllWritten(texts, fields) && line == Join(texts);
      WrittenScan(texts, fields, []);
      assert [] + fields == fields;
    }
    if ParseLine(line) == Fields(fields) {
      var texts := StartSound(line, [], fields);
      assert fields[0..] == fields;
    }
  }

  // ---- a file ----

  predicate ValidHeader(fields: seq<string>) {
    && |fields| >= 4 && fields[0] == "station_code" && fields[1] == "device_code" && fields[2] == "record_time"
    && (forall i :: 0 <= i < |fields| ==> fields[i] != "")
    && forall i, j :: 0 <= i < j < |fields| ==> fields[i] != fields[j]
  }

  method IsValidHeader(fields: seq<string>) returns (valid: bool)
    ensures valid == ValidHeader(fields)
  {
    if |fields| < 4 || fields[0] != "station_code" || fields[1] != "device_code" || fields[2] != "record_time" {
      return false;
    }
    var seen: set<string> := {};
    for i := 0 to |fields|
      invariant forall k :: 0 <= k < i ==> fields[k] != ""
      invariant forall name :: name in seen <==> exists k :: 0 <= k < i && fields[k] == name
      invariant forall j, k :: 0 <= j < k < i ==> fields[j] != fields[k]
    {
      if fields[i] == "" {
        return false;
      }
      if fields[i] in seen {
        var k :| 0 <= k < i && fields[k] == fields[i];
        return false;
      }
      seen := seen + {fields[i]};
    }
    return true;
  }

  function StripLineEnding(line: string): string {
    if line != "" && line[|line| - 1] == '\r' then line[..|line| - 1] else line
  }

  const BOM: string := [0xEF as char, 0xBB as char, 0xBF as char]

  function StripBom(line: string): string { if BOM <= line then line[|BOM|..] else line }

  /** The hexadecimal digits of a control character in a JSON escape. */
  function HexDigit(n: nat): char
    requires n < 16
  {
    if n < 10 then DigitChar(n) else ['a', 'b', 'c', 'd', 'e', 'f'][n - 10]
  }

  function JsonChar(c: char): string {
    if c == QUOTE then ['\\', QUOTE] else if c == '\\' then ['\\', '\\']
    else if c == 8 as char then "\\b" else if c == 12 as char then "\\f" else if c == '\n' then "\\n"
    else if c == '\r' then "\\r" else if c == '\t' then "\\t"
    else if c < ' ' then "\\u00" + [HexDigit(c as int / 16), HexDigit(c as int % 16)]
    else [c]
  }

  function JsonString(value: string): string {
    if value == "" then "" else JsonString(value[..|value| - 1]) + JsonChar(value[|value| - 1])
  }

  /** The members of the payload up to column n: header order is kept. */
  function PayloadMembers(header: seq<string>, row: seq<string>, n: nat): string
    requires 3 <= n <= |header| == |row|
  {
    if n == 3 then ""
    else PayloadMembers(header, row, n - 1) + (if n - 1 == 3 then "" else ",")
         + [QUOTE] + JsonString(header[n - 1]) + [QUOTE] + ":" + [QUOTE] + JsonString(row[n - 1]) + [QUOTE]
  }

  function Payload(header: seq<string>, row: seq<string>): (text: string)
    requires 3 <= |header| == |row|
    ensures |text| >= 2 && text[0] == '{'
  {
    "{" + PayloadMembers(header, row, |header|) + "}"
  }

  datatype DataLine = Blank | Record(record: ParsedRecord) | BadLine(error: string) | Unreadable(message: string)

  /** What one line after the header contributes. */
  function ReadDataLine(header: seq<string>, line: string, number: nat): DataLine
    requires |header| >= 4
  {
    if StripLineEnding(line) == "" then Blank
    else
      match ParseLine(StripLineEnding(line))
      case UnclosedQuote =>
        Unreadable("csv line " + Show(number) + " has an unclosed quote; multi-line fields are not supported")
      case SyntaxError(message) => BadLine("line " + Show(number) + " " + message)
      case Fields(fields) =>
        if |fields| != |header| then
          BadLine("line " + Show(number) + " has " + Show(|fields|) + " fields but the header has " + Show(|header|))
        else Record(ParsedRecord(fields[0], fields[1], fields[2], Payload(header, fields)))
  }

  /** The records and errors of the first n data lines; the first data line is line 2. */
  function RecordsOf(header: seq<string>, lines: seq<string>, n: nat): seq<ParsedRecord>
    requires |header| >= 4 && n <= |lines|
  {
    if n == 0 then []
    else
      var line := ReadDataLine(header, lines[n - 1], n + 1);
      RecordsOf(header, lines, n - 1) + (if line.Record? then [line.record] else [])
  }

  function ErrorsOf(header: seq<string>, lines: seq<string>, n: nat): seq<string>
    requires |header| >= 4 && n <= |lines|
  {
    if n == 0 then []
    else
      var line := ReadDataLine(header, lines[n - 1], n + 1);
      ErrorsOf(header, lines, n - 1) + (if line.BadLine? then [line.error] else [])
  }

  ghost predicate Readable(header: seq<string>, lines: seq<string>, n: nat)
    requires |header| >= 4 && n <= |lines|
  {
    forall k :: 0 <= k < n ==> !ReadDataLine(header, lines[k], k + 2).Unreadable?
  }

  /** The header of a file, when its first line holds a valid one. */
  ghost function HeaderOf(lines: seq<string>): (header: Option<seq<string>>)
    requires lines != []
    ensures header.Some? ==> |header.value| >= 4
  {
    var first := ParseLine(StripBom(StripLineEnding(lines[0])));
    if first.Fields? && ValidHeader(first.fields) then Some(first.fields) else None
  }

  /** The file can be read: it opens with a valid header, and no data line leaves a quote open. */
  ghost predicate FileReadable(lines: seq<string>) {
    lines != [] && HeaderOf(lines).Some? && Readable(HeaderOf(lines).value, lines[1..], |lines| - 1)
  }

  /** Parses an open file that was read as lines without their line feeds; bad tells that reading broke off. */
  method ParseFile(lines: seq<string>, bad: bool) returns (outcome: ParseOutcome)
    ensures outcome.Parsed? <==> FileReadable(lines) && !bad
    ensures outcome.Parsed? ==>
              && outcome.records == RecordsOf(HeaderOf(lines).value, lines[1..], |lines| - 1)
              && outcome.errors == ErrorsOf(HeaderOf(lines).value, lines[1..], |lines| - 1)
  {
    hide ValidHeader, ParseLine, Payload, RecordsOf, ErrorsOf, Readable;
    if lines == [] {
      return ParseFailed("csv file is empty");
    }
    var header := ParseCsvLine(StripBom(StripLineEnding(lines[0])));
    if !header.Fields? {
      return ParseFailed("csv header is invalid");
    }
    var valid := IsValidHeader(header.fields);
    if !valid {
      return ParseFailed("csv header is invalid");
    }
    assert HeaderOf(lines) == Some(header.fields);
    outcome := ReadDataLines(header.fields, lines[1..]);
    if outcome.Parsed? && bad {
      return ParseFailed("failed while reading csv file");
    }
  }

  /** The loop over the lines after the header. */
  method ReadDataLines(header: seq<string>, lines: seq<string>) returns (outcome: ParseOutcome)
    requires |header| >= 4
    ensures outcome.Parsed? <==> Readable(header, lines, |lines|)
    ensures outcome.Parsed? ==> outcome.records == RecordsOf(header, lines, |lines|) && outcome.errors == ErrorsOf(header, lines, |lines|)
  {
    hide ReadDataLine;
    var records: seq<ParsedRecord>, errors: seq<string> := [], [];
    for n := 0 to |lines|
      invariant records == RecordsOf(header, lines, n) && errors == ErrorsOf(header, lines, n)
      invariant Readable(header, lines, n)
    {
      var line := ReadDataLine(header, lines[n], n + 2);
      match line {
        case Blank =>
        case Unreadable(message) => return ParseFailed(message);
        case BadLine(error) => errors := errors + [error];
        case Record(record) => records := records + [record];
      }
    }
    return Parsed(records, errors);
  }

  function NonBlank(lines: seq<string>, n: nat): nat
    requires n <= |lines|
  {
    if n == 0 then 0 else NonBlank(lines, n - 1) + (if StripLineEnding(lines[n - 1]) == "" then 0 else 1)
  }

  /** Conservation: every data line that is not blank gives exactly one record or exactly one error. */
  lemma {:induction false} LinesAreConserved(header: seq<string>, lines: seq<string>, n: nat)
    requires |header| >= 4 && n <= |lines| && Readable(header, lines, n)
    ensures |RecordsOf(header, lines, n)| + |ErrorsOf(header, lines, n)| == NonBlank(lines, n)
  {
    hide ParseLine, Payload, Show;
    if n > 0 {
      LinesAreConserved(header, lines, n - 1);
      assert !ReadDataLine(header, lines[n - 1], n - 1 + 2).Unreadable?;
    }
  }

  /** Every record has a payload; its time may be empty. */
  lemma {:induction false} RecordsHavePayload(header: seq<string>, lines: seq<string>, n: nat)
    requires |header| >= 4 && n <= |lines|
    ensures forall r :: r in RecordsOf(header, lines, n) ==> r.payload != ""
  {
    hide ParseLine;
    if n > 0 {
      RecordsHavePayload(header, lines, n - 1);
    }
  }

  /** A line of which the third field is empty gives a record without a time. */
  lemma RecordTimeMayBeEmpty()
    ensures var header := ["station_code", "device_code", "record_time", "v"];
            ReadDataLine(header, "s,d,,1", 2) == Record(ParsedRecord("s", "d", "", Payload(header, ["s", "d", "", "1"])))
  {
    var texts := ["s", "d", "", "1"];
    assert AllWritten(texts, texts);
    assert texts[1..] == ["d", "", "1"] && texts[1..][1..] == ["", "1"] && texts[1..][1..][1..] == ["1"];
    assert Join(texts) == "s,d,,1";
    ParsesExactlyWhatIsWritten("s,d,,1", texts);
  }
}
