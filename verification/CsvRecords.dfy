/** What a CSV file is read as, line by line, and that the payload of a record still tells every field of its line. */
module CsvRecords {
  import opened Messages
  import opened Decimals
  import opened Csv

  // ---- one line ----

  /** The record holds the first three fields as they are, and the others in its payload. */
  ghost predicate RecordsFields(header: seq<string>, fields: seq<string>, r: ParsedRecord)
    requires 4 <= |header|
  {
    && |fields| == |header| && r.station == fields[0] && r.device == fields[1] && r.recordTime == fields[2]
    && r.payload == Payload(header, fields)
  }

  /** A line gives a record if and only if it writes as many fields as the header has, and then that of those fields. */
  lemma LineGivesRecordIff(header: seq<string>, line: string, number: nat, r: ParsedRecord)
    requires |header| >= 4
    ensures ReadDataLine(header, line, number) == Record(r)
            <==> StripLineEnding(line) != ""
                 && exists fields :: Renders(StripLineEnding(line), fields) && RecordsFields(header, fields, r)
  {
    hide Payload, Show, Renders;
    var text := StripLineEnding(line);
    if ReadDataLine(header, line, number) == Record(r) {
      ParsesExactlyWhatIsWritten(text, ParseLine(text).fields);
    }
    if fields :| Renders(text, fields) && RecordsFields(header, fields, r) {
      ParsesExactlyWhatIsWritten(text, fields);
    }
  }

  /** A carriage return at the end of a line is no part of it, nor is a byte order mark before the header. */
  lemma LineEndings(header: seq<string>, line: string, number: nat)
    requires |header| >= 4
    ensures line == "" || line[|line| - 1] != '\r' ==>
              ReadDataLine(header, line + ['\r'], number) == ReadDataLine(header, line, number)
    ensures StripBom(BOM + line) == line && (!(BOM <= line) ==> StripBom(line) == line)
  {
    hide ParseLine, Payload, Show;
    assert StripLineEnding(line + ['\r']) == line;
  }

  // ---- the lines of a file ----

  predicate IsRecord(header: seq<string>, lines: seq<string>, k: nat)
    requires |header| >= 4 && k < |lines|
  {
    ReadDataLine(header, lines[k], k + 2).Record?
  }

  predicate IsBad(header: seq<string>, lines: seq<string>, k: nat)
    requires |header| >= 4 && k < |lines|
  {
    ReadDataLine(header, lines[k], k + 2).BadLine?
  }

  function RecordsAmong(header: seq<string>, lines: seq<string>, n: nat): nat
    requires |header| >= 4 && n <= |lines|
  {
    if n == 0 then 0 else RecordsAmong(header, lines, n - 1) + (if IsRecord(header, lines, n - 1) then 1 else 0)
  }

  function BadAmong(header: seq<string>, lines: seq<string>, n: nat): nat
    requires |header| >= 4 && n <= |lines|
  {
    if n == 0 then 0 else BadAmong(header, lines, n - 1) + (if IsBad(header, lines, n - 1) then 1 else 0)
  }

  ghost predicate RecordPlaced(header: seq<string>, lines: seq<string>, records: seq<ParsedRecord>, k: nat)
    requires |header| >= 4 && k < |lines|
  {
    && RecordsAmong(header, lines, k) < |records|
    && ReadDataLine(header, lines[k], k + 2) == Record(records[RecordsAmong(header, lines, k)])
  }

  ghost predicate ErrorPlaced(header: seq<string>, lines: seq<string>, errors: seq<string>, k: nat)
    requires |header| >= 4 && k < |lines|
  {
    && BadAmong(header, lines, k) < |errors|
    && ReadDataLine(header, lines[k], k + 2) == BadLine(errors[BadAmong(header, lines, k)])
  }

  /** The records and the errors of a file are those of its lines, each once and in order. */
  lemma {:induction false} LinesInOrder(header: seq<string>, lines: seq<string>, n: nat)
    requires |header| >= 4 && n <= |lines|
    ensures |RecordsOf(header, lines, n)| == RecordsAmong(header, lines, n)
    ensures |ErrorsOf(header, lines, n)| == BadAmong(header, lines, n)
    ensures forall k :: 0 <= k < n && IsRecord(header, lines, k) ==> RecordPlaced(header, lines, RecordsOf(header, lines, n), k)
    ensures forall k :: 0 <= k < n && IsBad(header, lines, k) ==> ErrorPlaced(header, lines, ErrorsOf(header, lines, n), k)
  {
    hide ReadDataLine;
    if n > 0 {
      LinesInOrder(header, lines, n - 1);
      assert n + 1 == n - 1 + 2;
      forall k | 0 <= k < n && IsRecord(header, lines, k) ensures RecordPlaced(header, lines, RecordsOf(header, lines, n), k) {
        assert k < n - 1 ==> RecordPlaced(header, lines, RecordsOf(header, lines, n - 1), k);
      }
      forall k | 0 <= k < n && IsBad(header, lines, k) ensures ErrorPlaced(header, lines, ErrorsOf(header, lines, n), k) {
        assert k < n - 1 ==> ErrorPlaced(header, lines, ErrorsOf(header, lines, n - 1), k);
      }
    }
  }

  // ---- the payload ----

  lemma HexDigitsDiffer(m: nat, n: nat)
    requires m < 16 && n < 16 && HexDigit(m) == HexDigit(n)
    ensures m == n
  {
    var letters := ['a', 'b', 'c', 'd', 'e', 'f'];
    assert forall i, j :: 0 <= i < j < 6 ==> letters[i] != letters[j];
    assert forall i :: 0 <= i < 6 ==> !IsDigit(letters[i]);
  }

  /** How a character begins tells it. */
  lemma CharTells(c: char, x: string, d: char, y: string)
    requires JsonChar(c) + x == JsonChar(d) + y
    ensures c == d && x == y
  {
    var s, t := JsonChar(c) + x, JsonChar(d) + y;
    assert s[0] == t[0];
    if |JsonChar(c)| > 1 {
      assert s[1] == JsonChar(c)[1];
    }
    if |JsonChar(d)| > 1 {
      assert t[1] == JsonChar(d)[1];
    }
    if |JsonChar(c)| == 6 == |JsonChar(d)| {
      assert s[4] == JsonChar(c)[4] && t[4] == JsonChar(d)[4] && s[5] == JsonChar(c)[5] && t[5] == JsonChar(d)[5];
      HexDigitsDiffer(c as int / 16, d as int / 16);
      HexDigitsDiffer(c as int % 16, d as int % 16);
      assert c as int == d as int;
    }
    assert c == d;
    assert s[|JsonChar(c)|..] == x && t[|JsonChar(d)|..] == y;
  }

  lemma {:induction false} JsonStringFront(value: string)
    requires value != ""
    ensures JsonString(value) == JsonChar(value[0]) + JsonString(value[1..])
  {
    hide JsonChar;
    if |value| == 1 {
      assert value[..0] == "" && value[1..] == "";
    } else {
      var front := value[..|value| - 1];
      JsonStringFront(front);
      assert front[1..] == value[1..][..|value[1..]| - 1];
    }
  }

  lemma NotQuoted(c: char)
    ensures JsonChar(c) != "" && JsonChar(c)[0] != QUOTE
  {
  }

  /** A quoted value can be read back in only one way. */
  lemma {:induction false} ValueTells(a: string, x: string, b: string, y: string)
    requires JsonString(a) + ([QUOTE] + x) == JsonString(b) + ([QUOTE] + y)
    ensures a == b && x == y
    decreases |a| + |b|
  {
    hide JsonChar, JsonString;
    if a == "" || b == "" {
      EmptyTells(a, x, b, y);
    } else {
      JsonStringFront(a);
      JsonStringFront(b);
      var restA, restB := JsonString(a[1..]) + ([QUOTE] + x), JsonString(b[1..]) + ([QUOTE] + y);
      assert JsonChar(a[0]) + restA == JsonString(a) + ([QUOTE] + x);
      assert JsonChar(b[0]) + restB == JsonString(b) + ([QUOTE] + y);
      CharTells(a[0], restA, b[0], restB);
      ValueTells(a[1..], x, b[1..], y);
      assert a == [a[0]] + a[1..] && b == [b[0]] + b[1..];
    }
  }

  lemma StartsUnquoted(value: string, x: string)
    requires value != ""
    ensures (JsonString(value) + x) != "" && (JsonString(value) + x)[0] != QUOTE
  {
    hide JsonChar, JsonString;
    JsonStringFront(value);
    NotQuoted(value[0]);
  }

  lemma EmptyTells(a: string, x: string, b: string, y: string)
    requires JsonString(a) + ([QUOTE] + x) == JsonString(b) + ([QUOTE] + y) && (a == "" || b == "")
    ensures a == b && x == y
  {
    hide JsonChar;
    assert JsonString("") == "";
    if a != "" {
      StartsUnquoted(a, [QUOTE] + x);
    } else if b != "" {
      StartsUnquoted(b, [QUOTE] + y);
    } else {
      assert JsonString(a) + ([QUOTE] + x) == [QUOTE] + x && JsonString(b) + ([QUOTE] + y) == [QUOTE] + y;
      assert ([QUOTE] + x)[1..] == x && ([QUOTE] + y)[1..] == y;
    }
  }

  function MemberHead(header: seq<string>, k: nat): string
    requires k < |header|
  {
    (if k == 3 then "" else ",") + [QUOTE] + JsonString(header[k]) + [QUOTE] + ":" + [QUOTE]
  }

  /** The members from column k on. */
  function MembersFrom(header: seq<string>, row: seq<string>, k: nat): string
    requires 3 <= k <= |header| == |row|
    decreases |header| - k
  {
    if k == |header| then ""
    else MemberHead(header, k) + (JsonString(row[k]) + ([QUOTE] + MembersFrom(header, row, k + 1)))
  }

  lemma Regrouped(before: string, comma: string, q: string, name: string, value: string)
    ensures before + comma + q + name + q + ":" + q + value + q == before + (comma + q + name + q + ":" + q + (value + q))
  {
    var head := comma + q + name + q + ":" + q;
    assert before + comma + q + name + q + ":" + q == before + head;
    assert before + head + value + q == before + (head + (value + q));
  }

  lemma NextMember(header: seq<string>, row: seq<string>, k: nat)
    requires 3 <= k < |header| == |row|
    ensures PayloadMembers(header, row, k + 1)
            == PayloadMembers(header, row, k) + (MemberHead(header, k) + (JsonString(row[k]) + [QUOTE]))
  {
    hide JsonString;
    Regrouped(PayloadMembers(header, row, k), if k == 3 then "" else ",", [QUOTE], JsonString(header[k]), JsonString(row[k]));
  }

  lemma Joined(before: string, head: string, value: string, rest: string)
    ensures before + (head + (value + [QUOTE])) + rest == before + (head + (value + ([QUOTE] + rest)))
  {
  }

  lemma {:induction false} MembersSplit(header: seq<string>, row: seq<string>, k: nat)
    requires 3 <= k <= |header| == |row|
    ensures PayloadMembers(header, row, |header|) == PayloadMembers(header, row, k) + MembersFrom(header, row, k)
    decreases |header| - k
  {
    hide JsonString, PayloadMembers, MemberHead;
    if k < |header| {
      MembersSplit(header, row, k + 1);
      NextMember(header, row, k);
      Joined(PayloadMembers(header, row, k), MemberHead(header, k), JsonString(row[k]), MembersFrom(header, row, k + 1));
    }
  }

  /** Members that read the same are the same from column k on. */
  lemma {:induction false} MembersTell(header: seq<string>, a: seq<string>, b: seq<string>, k: nat)
    requires 3 <= k <= |header| == |a| == |b| && MembersFrom(header, a, k) + "}" == MembersFrom(header, b, k) + "}"
    ensures a[k..] == b[k..]
    decreases |header| - k
  {
    hide JsonString, MemberHead;
    if k < |header| {
      var restA, restB := MembersFrom(header, a, k + 1) + "}", MembersFrom(header, b, k + 1) + "}";
      var head := MemberHead(header, k);
      assert MembersFrom(header, a, k) + "}" == head + (JsonString(a[k]) + ([QUOTE] + restA));
      assert MembersFrom(header, b, k) + "}" == head + (JsonString(b[k]) + ([QUOTE] + restB));
      assert (head + (JsonString(a[k]) + ([QUOTE] + restA)))[|head|..] == JsonString(a[k]) + ([QUOTE] + restA);
      assert (head + (JsonString(b[k]) + ([QUOTE] + restB)))[|head|..] == JsonString(b[k]) + ([QUOTE] + restB);
      ValueTells(a[k], restA, b[k], restB);
      MembersTell(header, a, b, k + 1);
      assert a[k..] == [a[k]] + a[k + 1..] && b[k..] == [b[k]] + b[k + 1..];
    }
  }

  lemma NoMembers(header: seq<string>, row: seq<string>)
    requires 3 <= |header| == |row|
    ensures PayloadMembers(header, row, 3) == ""
  {
  }

  /** Lines under one header that have the same payload have the same fields from the fourth on: nothing is lost in it. */
  lemma PayloadTellsFields(header: seq<string>, a: seq<string>, b: seq<string>)
    requires 3 <= |header| == |a| == |b|
    ensures Payload(header, a) == Payload(header, b) <==> a[3..] == b[3..]
  {
    hide JsonString, PayloadMembers, MembersFrom;
    MembersSplit(header, a, 3);
    MembersSplit(header, b, 3);
    NoMembers(header, a);
    NoMembers(header, b);
    if Payload(header, a) == Payload(header, b) {
      assert Payload(header, a)[1..] == MembersFrom(header, a, 3) + "}";
      assert Payload(header, b)[1..] == MembersFrom(header, b, 3) + "}";
      MembersTell(header, a, b, 3);
    }
    if a[3..] == b[3..] {
      SameMembers(header, a, b, 3);
    }
  }

  lemma {:induction false} SameMembers(header: seq<string>, a: seq<string>, b: seq<string>, k: nat)
    requires 3 <= k <= |header| == |a| == |b| && a[3..] == b[3..]
    ensures MembersFrom(header, a, k) == MembersFrom(header, b, k)
    decreases |header| - k
  {
    hide JsonString, MemberHead;
    if k < |header| {
      SameMembers(header, a, b, k + 1);
      assert a[3..][k - 3] == a[k] && b[3..][k - 3] == b[k];
    }
  }
}
