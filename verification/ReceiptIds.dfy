/** How the ids of a response are kept in a receipt: joined by commas when stored, split again when replayed. */
module ReceiptIds {
  import opened Messages
  import opened Decimals

  predicate ValidId(id: string) { id != "" && forall i :: 0 <= i < |id| ==> IsDigit(id[i]) }

  function Joined(ids: seq<string>): string {
    if ids == [] then ""
    else if |ids| == 1 then ids[0]
    else Joined(ids[..|ids| - 1]) + "," + ids[|ids| - 1]
  }

  /** Refuses an empty id and an id that is not a number. */
  method JoinIds(ids: seq<string>) returns (joined: Option<string>)
    ensures joined.Some? <==> forall i :: 0 <= i < |ids| ==> ValidId(ids[i])
    ensures joined.Some? ==> joined.value == Joined(ids)
  {
    var text := "";
    for n := 0 to |ids|
      invariant text == Joined(ids[..n]) && (text == "" <==> n == 0)
      invariant forall i :: 0 <= i < n ==> ValidId(ids[i])
    {
      if ids[n] == "" {
        return None;
      }
      for k := 0 to |ids[n]|
        invariant forall i :: 0 <= i < k ==> IsDigit(ids[n][i])
      {
        if !IsDigit(ids[n][k]) {
          return None;
        }
      }
      assert ids[..n + 1][..n] == ids[..n];
      if text != "" {
        text := text + ",";
      }
      text := text + ids[n];
    }
    assert ids[..|ids|] == ids;
    return Some(text);
  }

  /** The position of the first comma, or the length when there is none. */
  function FirstComma(value: string): (end: nat)
    ensures end <= |value| && (end < |value| ==> value[end] == ',') && forall i :: 0 <= i < end ==> value[i] != ','
  {
    if value == "" || value[0] == ',' then 0 else 1 + FirstComma(value[1..])
  }

  function Split(value: string): seq<string> {
    if value == "" then []
    else if FirstComma(value) == |value| then [value]
    else [value[..FirstComma(value)]] + Split(value[FirstComma(value) + 1..])
  }

  lemma SplitFirst(value: string)
    requires value != ""
    ensures var end := FirstComma(value);
            Split(value) == if end == |value| then [value] else [value[..end]] + Split(value[end + 1..])
  {
    hide FirstComma;
  }

  lemma EmptySplits()
    ensures Split("") == []
  {
  }

  method SplitIds(value: string) returns (ids: seq<string>)
    ensures ids == Split(value)
  {
    hide Split, FirstComma;
    ids := [];
    var begin := 0;
    while begin < |value|
      invariant 0 <= begin <= |value| && Split(value) == ids + Split(value[begin..])
      decreases |value| - begin
    {
      var rest := value[begin..];
      var end := FirstComma(rest);
      SplitFirst(rest);
      ids := ids + [rest[..end]];
      if end == |rest| {
        assert rest[..end] == rest;
        return ids;
      }
      assert rest[end + 1..] == value[begin + end + 1..];
      begin := begin + end + 1;
    }
    assert value[begin..] == "" && Split("") == [] by {
      EmptySplits();
    }
  }

  lemma CommaIsFirst(value: string, end: nat)
    requires end < |value| && value[end] == ',' && forall i :: 0 <= i < end ==> value[i] != ','
    ensures FirstComma(value) == end
  {
    hide FirstComma;
    assert !(end < FirstComma(value)) && !(FirstComma(value) < end);
  }

  lemma {:induction false} SplitAppend(front: string, id: string)
    requires front != "" && front[|front| - 1] != ',' && ValidId(id)
    ensures Split(front + "," + id) == Split(front) + [id]
    decreases |front|
  {
    hide Split, FirstComma, ValidId;
    var value := front + "," + id;
    var end := FirstComma(front);
    SplitFirst(front);
    SplitFirst(value);
    assert value[..|front|] == front && value[|front|] == ',' && value[|front| + 1..] == id;
    if end == |front| {
      assert FirstComma(value) == |front| by {
        CommaIsFirst(value, |front|);
      }
      IdHasNoComma(id);
    } else {
      assert value[..end] == front[..end] && value[end] == ',';
      CommaIsFirst(value, end);
      assert value[end + 1..] == front[end + 1..] + "," + id;
      SplitAppend(front[end + 1..], id);
    }
  }

  lemma IdHasNoComma(id: string)
    requires ValidId(id)
    ensures FirstComma(id) == |id| && Split(id) == [id]
  {
    if FirstComma(id) < |id| {
      assert IsDigit(id[FirstComma(id)]);
    }
  }

  lemma {:induction false} JoinedEnds(ids: seq<string>)
    requires ids != [] && forall i :: 0 <= i < |ids| ==> ValidId(ids[i])
    ensures Joined(ids) != "" && Joined(ids)[|Joined(ids)| - 1] != ','
  {
    var last := ids[|ids| - 1];
    assert IsDigit(last[|last| - 1]);
    assert Joined(ids)[|Joined(ids)| - |last|..] == last;
  }

  /** A replay reads back exactly the list of ids that the first answer stored, in order; an empty list included. */
  lemma {:induction false} SplitInvertsJoin(ids: seq<string>)
    requires forall i :: 0 <= i < |ids| ==> ValidId(ids[i])
    ensures Split(Joined(ids)) == ids
  {
    if |ids| == 1 {
      IdHasNoComma(ids[0]);
    } else if |ids| > 1 {
      SplitInvertsJoin(ids[..|ids| - 1]);
      JoinedEnds(ids[..|ids| - 1]);
      SplitAppend(Joined(ids[..|ids| - 1]), ids[|ids| - 1]);
    }
  }
}
