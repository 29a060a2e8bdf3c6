/**
 Keyset pagination: pages of a list in descending id order below a cursor, the walk along next cursors while larger ids
 are inserted, and the client that shows the list under late and dropped responses.
 */
module Paging {
  import opened Messages

  ghost predicate Descending(rows: seq<int>) { forall i, j :: 0 <= i < j < |rows| ==> rows[i] > rows[j] }

  /** What was inserted has larger ids than everything that was there. */
  ghost predicate Later(before: seq<int>, after: seq<int>) {
    && |before| <= |after| && after[|after| - |before|..] == before
    && forall i, j :: 0 <= i < |after| - |before| && 0 <= j < |before| ==> after[i] > before[j]
  }

  datatype Page = Page(items: seq<int>, hasMore: bool, nextCursor: Option<int>)

  // ---- one page ----

  /** The rows strictly below the cursor, in order. */
  function Below(rows: seq<int>, cursor: Option<int>): seq<int> {
    if rows == [] || cursor.None? || rows[0] < cursor.value then rows else Below(rows[1..], cursor)
  }

  /** What the database returns for a limit: at most that many rows below the cursor. */
  function Query(rows: seq<int>, cursor: Option<int>, limit: nat): seq<int> {
    if |Below(rows, cursor)| <= limit then Below(rows, cursor) else Below(rows, cursor)[..limit]
  }

  /** One row more than the page is fetched, to know whether there is another page. */
  method TrimPage(rows: seq<int>, limit: nat) returns (page: Page)
    requires limit > 0
    ensures page.hasMore <==> |rows| > limit
    ensures page.items == if page.hasMore then rows[..limit] else rows
    ensures page.nextCursor == if page.hasMore then Some(page.items[limit - 1]) else None
  {
    var hasMore := |rows| > limit;
    var items := rows;
    if hasMore {
      items := items[..limit];
    }
    var next := None;
    if hasMore && items != [] {
      next := Some(items[|items| - 1]);
    }
    return Page(items, hasMore, next);
  }

  function PageOf(rows: seq<int>, cursor: Option<int>, limit: nat): Page
    requires limit > 0
  {
    var found := Query(rows, cursor, limit + 1);
    if |found| > limit then Page(found[..limit], true, Some(found[limit - 1])) else Page(found, false, None)
  }

  method ListPage(rows: seq<int>, cursor: Option<int>, limit: nat) returns (page: Page)
    requires limit > 0
    ensures page == PageOf(rows, cursor, limit)
  {
    page := TrimPage(Query(rows, cursor, limit + 1), limit);
  }

  // ---- larger ids do not disturb a cursor ----

  lemma {:induction false} BelowSkips(above: seq<int>, rows: seq<int>, cursor: int)
    requires forall i :: 0 <= i < |above| ==> above[i] >= cursor
    ensures Below(above + rows, Some(cursor)) == Below(rows, Some(cursor))
  {
    if above == [] {
      assert above + rows == rows;
    } else {
      assert (above + rows)[1..] == above[1..] + rows;
      BelowSkips(above[1..], rows, cursor);
    }
  }

  /** The rows below the cursor at position n - 1 of an earlier list are the rest of that list. */
  lemma BelowIsRest(base: seq<int>, rows: seq<int>, n: nat)
    requires Descending(base) && Later(base, rows) && 0 < n <= |base|
    ensures Below(rows, Some(base[n - 1])) == base[n..]
  {
    var above := rows[..|rows| - |base|] + base[..n];
    assert rows == above + base[n..];
    BelowSkips(above, base[n..], base[n - 1]);
  }

  /** The page after the first n rows of an earlier list, whatever larger ids have come in since. */
  lemma NextPage(base: seq<int>, rows: seq<int>, n: nat, limit: nat)
    requires Descending(base) && Later(base, rows) && 0 < n <= |base| && limit > 0
    ensures var page := PageOf(rows, Some(base[n - 1]), limit);
            && (page.hasMore <==> n + limit < |base|)
            && page.items == base[n..if page.hasMore then n + limit else |base|]
            && page.nextCursor == if page.hasMore then Some(base[n + limit - 1]) else None
  {
    hide Below, Later, Descending;
    BelowIsRest(base, rows, n);
    var size := if n + limit < |base| then limit else |base| - n;
    assert base[n..][..size] == base[n..n + size];
  }

  lemma FirstPage(base: seq<int>, limit: nat)
    requires limit > 0
    ensures var page := PageOf(base, None, limit);
            && (page.hasMore <==> limit < |base|)
            && page.items == base[..if page.hasMore then limit else |base|]
            && page.nextCursor == if page.hasMore then Some(base[limit - 1]) else None
  {
  }

  // ---- the whole walk ----

  datatype Walk = Walk(items: seq<int>, hasMore: bool, cursor: Option<int>)

  /** tables[k] is the list when page k is fetched. */
  ghost predicate Growing(tables: seq<seq<int>>) {
    && tables != [] && Descending(tables[0]) && forall k :: 0 <= k < |tables| ==> Later(tables[0], tables[k])
  }

  /** The items after k pages, following each next cursor. */
  function WalkAfter(tables: seq<seq<int>>, limit: nat, k: nat): Walk
    requires limit > 0 && k <= |tables|
  {
    if k == 0 then Walk([], true, None)
    else
      var before := WalkAfter(tables, limit, k - 1);
      if !before.hasMore then before
      else
        var page := PageOf(tables[k - 1], before.cursor, limit);
        Walk(before.items + page.items, page.hasMore, page.nextCursor)
  }

  /** After k pages the walk holds the first rows of the list it began with, and its cursor is the last of them. */
  ghost predicate WalkOk(walk: Walk, base: seq<int>, k: nat) {
    && |walk.items| <= |base| && walk.items == base[..|walk.items|]
    && (k > 0 && walk.hasMore ==>
          k <= |walk.items| && 0 < |walk.items| < |base| && walk.cursor == Some(base[|walk.items| - 1]))
    && (!walk.hasMore ==> walk.items == base)
    && (k == 0 ==> walk == Walk([], true, None))
  }

  lemma WalkStep(walk: Walk, base: seq<int>, rows: seq<int>, limit: nat, k: nat)
    requires WalkOk(walk, base, k) && walk.hasMore && Descending(base) && Later(base, rows) && limit > 0
    requires k == 0 ==> rows == base
    ensures var page := PageOf(rows, walk.cursor, limit);
            WalkOk(Walk(walk.items + page.items, page.hasMore, page.nextCursor), base, k + 1)
  {
    hide Below, Query, PageOf, Later, Descending;
    var n := |walk.items|;
    if k == 0 {
      FirstPage(base, limit);
    } else {
      NextPage(base, rows, n, limit);
    }
    var page := PageOf(rows, walk.cursor, limit);
    assert base[..n] + base[n..n + |page.items|] == base[..n + |page.items|];
  }

  lemma {:induction false} WalkIsPrefix(tables: seq<seq<int>>, limit: nat, k: nat)
    requires Growing(tables) && limit > 0 && k <= |tables|
    ensures WalkOk(WalkAfter(tables, limit, k), tables[0], k)
  {
    hide Below, Query, PageOf, Later, Descending;
    if k > 0 {
      WalkIsPrefix(tables, limit, k - 1);
      var before := WalkAfter(tables, limit, k - 1);
      if before.hasMore {
        WalkStep(before, tables[0], tables[k - 1], limit, k - 1);
      }
    }
  }

  /** Following the cursors ends, within one page per row and one more, and yields exactly the rows that were there at the
      start, each once and in descending order, whatever larger ids were inserted in between. */
  lemma PaginationIsComplete(tables: seq<seq<int>>, limit: nat)
    requires Growing(tables) && limit > 0 && |tables| > |tables[0]|
    ensures var walk := WalkAfter(tables, limit, |tables|); !walk.hasMore && walk.items == tables[0]
  {
    WalkIsPrefix(tables, limit, |tables|);
  }

  // ---- the client ----

  /** The items are the consecutive pages of one refresh, fetched when the list was base. */
  ghost predicate Consecutive(items: seq<int>, hasMore: bool, nextCursor: Option<int>, base: seq<int>) {
    && |items| <= |base| && items == base[..|items|]
    && (hasMore ==> 0 < |items| < |base| && nextCursor == Some(base[|items| - 1]))
    && (!hasMore ==> items == base)
  }

  /** A request under way: a refresh, or the page after the cursor for the items shown when it was sent. */
  datatype Ticket = RefreshTicket(generation: nat) | MoreTicket(generation: nat, cursor: int, previous: seq<int>)

  /** The client with what its answers are measured against: the list at the refresh that is shown, the list now, and the
      list when each request was sent. outstanding holds the requests not answered yet, in any order, perhaps never. */
  datatype View = View(items: seq<int>, hasMore: bool, nextCursor: Option<int>, loading: bool, loadingMore: bool,
                       generation: nat, outstanding: set<Ticket>,
                       base: seq<int>, table: seq<int>, sentAt: map<nat, seq<int>>)

  ghost predicate TicketOk(v: View, t: Ticket) {
    && t.generation <= v.generation && t.generation in v.sentAt && Later(v.sentAt[t.generation], v.table)
    && (t.generation == v.generation && t.MoreTicket? ==>
          t.previous == v.items && v.hasMore && v.nextCursor == Some(t.cursor)
          && Later(v.base, v.sentAt[t.generation]))
  }

  ghost predicate Unsent(v: View) { forall t :: t in v.outstanding ==> t.generation != v.generation }

  ghost predicate Flags(v: View) {
    && (v.loading <==> exists t :: t in v.outstanding && t.RefreshTicket? && t.generation == v.generation)
    && (v.loadingMore <==> exists t :: t in v.outstanding && t.MoreTicket? && t.generation == v.generation)
  }

  ghost predicate Distinct(v: View) {
    forall t, u :: t in v.outstanding && u in v.outstanding && t.generation == u.generation ==> t == u
  }

  ghost predicate ViewOk(v: View) {
    && Descending(v.base) && Later(v.base, v.table)
    && Consecutive(v.items, v.hasMore, v.nextCursor, v.base)
    && (forall t :: t in v.outstanding ==> TicketOk(v, t))
    && Distinct(v) && Flags(v)
  }

  function Begun(v: View): View {
    v.(generation := v.generation + 1, loading := false, loadingMore := false)
  }

  function Sent(v: View, t: Ticket): View {
    v.(sentAt := v.sentAt[v.generation := v.table], outstanding := v.outstanding + {t},
       loading := t.RefreshTicket?, loadingMore := t.MoreTicket?)
  }

  /** The request is over; if it was the current one its flag falls. */
  function Settled(v: View, t: Ticket): View {
    var current := t.generation == v.generation;
    v.(outstanding := v.outstanding - {t},
       loading := v.loading && !(current && t.RefreshTicket?),
       loadingMore := v.loadingMore && !(current && t.MoreTicket?))
  }

  lemma InsertKeeps(v: View, rows: seq<int>)
    requires ViewOk(v) && Later(v.table, rows)
    ensures ViewOk(v.(table := rows))
  {
    hide Later, Consecutive, Descending;
    var next := v.(table := rows);
    LaterTransitive(v.base, v.table, rows);
    forall t | t in v.outstanding ensures TicketOk(next, t) {
      LaterTransitive(v.sentAt[t.generation], v.table, rows);
    }
    assert Distinct(v);
  }

  lemma BegunKeeps(v: View)
    requires ViewOk(v)
    ensures ViewOk(Begun(v)) && Unsent(Begun(v))
  {
    hide Later, Consecutive, Descending;
    forall t | t in v.outstanding ensures TicketOk(Begun(v), t) && t.generation < v.generation + 1 {
      assert TicketOk(v, t);
    }
    assert Distinct(v);
  }

  lemma SentKeeps(v: View, t: Ticket)
    requires ViewOk(v) && Unsent(v) && t.generation == v.generation
    requires t.MoreTicket? ==> t.previous == v.items && v.hasMore && v.nextCursor == Some(t.cursor)
    ensures ViewOk(Sent(v, t))
  {
    hide Later, Consecutive, Descending;
    LaterReflexive(v.table);
    var next := Sent(v, t);
    forall u | u in next.outstanding ensures TicketOk(next, u) {
      assert u != t ==> TicketOk(v, u);
    }
    assert Distinct(v);
    assert t in next.outstanding;
  }

  lemma SettledKeeps(v: View, t: Ticket)
    requires ViewOk(v) && t in v.outstanding
    ensures ViewOk(Settled(v, t))
    ensures t.generation == v.generation ==> Unsent(Settled(v, t))
  {
    hide Later, Consecutive, Descending;
    var next := Settled(v, t);
    forall u | u in next.outstanding ensures TicketOk(next, u) {
      assert TicketOk(v, u);
    }
    assert Distinct(v);
    if t.generation != v.generation {
      assert forall u :: u in v.outstanding && u.generation == v.generation ==> u in next.outstanding;
    }
  }

  /** With no current request the shown pages may be replaced by the pages of another refresh, or extended. */
  lemma ShownKeeps(v: View, items: seq<int>, hasMore: bool, nextCursor: Option<int>, base: seq<int>)
    requires ViewOk(v) && Unsent(v)
    requires Descending(base) && Later(base, v.table) && Consecutive(items, hasMore, nextCursor, base)
    ensures ViewOk(v.(items := items, hasMore := hasMore, nextCursor := nextCursor, base := base))
  {
    hide Later, Consecutive, Descending;
    var next := v.(items := items, hasMore := hasMore, nextCursor := nextCursor, base := base);
    forall u | u in v.outstanding ensures TicketOk(next, u) {
      assert TicketOk(v, u);
    }
    assert Distinct(v);
  }

  /** A refresh answered when the list was rows shows its first page. */
  lemma RefreshAnswered(rows: seq<int>, limit: nat)
    requires limit > 0
    ensures var page := PageOf(rows, None, limit); Consecutive(page.items, page.hasMore, page.nextCursor, rows)
  {
    hide PageOf;
    FirstPage(rows, limit);
    assert rows[..|rows|] == rows;
  }

  /** The page after the shown ones continues them, whatever larger ids came in before the answer. */
  lemma MoreAnswered(base: seq<int>, rows: seq<int>, items: seq<int>, nextCursor: Option<int>, limit: nat)
    requires Descending(base) && Later(base, rows) && limit > 0 && Consecutive(items, true, nextCursor, base)
    ensures var page := PageOf(rows, nextCursor, limit);
            Consecutive(items + page.items, page.hasMore, page.nextCursor, base)
  {
    hide PageOf, Later, Descending;
    var n, page := |items|, PageOf(rows, nextCursor, limit);
    NextPage(base, rows, n, limit);
    var end := if page.hasMore then n + limit else |base|;
    assert base[..n] + base[n..end] == base[..end];
    assert base[..|base|] == base;
  }

  /** The answer to a current request for the next page was computed from a list above the base of the shown pages. */
  lemma MoreTicketBase(v: View, t: Ticket, rows: seq<int>)
    requires ViewOk(v) && t in v.outstanding && t.generation == v.generation && t.MoreTicket?
    requires t.generation in v.sentAt ==> Later(v.sentAt[t.generation], rows)
    ensures Later(v.base, rows) && t.previous == v.items && v.hasMore && v.nextCursor == Some(t.cursor)
  {
    hide Later, Consecutive, Descending;
    assert TicketOk(v, t);
    LaterTransitive(v.base, v.sentAt[t.generation], rows);
  }

  /** The answer computed from rows arrives. Only the answer to the current request is shown. */
  function Answered(v: View, t: Ticket, rows: seq<int>, limit: nat): View
    requires limit > 0
  {
    var after := Settled(v, t);
    if t.generation != v.generation then after
    else if t.RefreshTicket? then
      var page := PageOf(rows, None, limit);
      after.(items := page.items, hasMore := page.hasMore, nextCursor := page.nextCursor, base := rows)
    else
      var page := PageOf(rows, Some(t.cursor), limit);
      after.(items := t.previous + page.items, hasMore := page.hasMore, nextCursor := page.nextCursor)
  }

  /** The server answers from the list as it is at some moment between the request and the answer's arrival. */
  ghost predicate CanAnswer(v: View, t: Ticket, rows: seq<int>) {
    && t in v.outstanding && Descending(rows) && Later(rows, v.table)
    && (t.generation in v.sentAt ==> Later(v.sentAt[t.generation], rows))
  }

  lemma AnsweredKeeps(v: View, t: Ticket, rows: seq<int>, limit: nat)
    requires ViewOk(v) && CanAnswer(v, t, rows) && limit > 0
    ensures ViewOk(Answered(v, t, rows, limit))
  {
    hide Unsent, Descending, Later, TicketOk, Distinct, Flags, Consecutive, PageOf;
    SettledKeeps(v, t);
    var after, next := Settled(v, t), Answered(v, t, rows, limit);
    if t.generation == v.generation {
      if t.RefreshTicket? {
        RefreshAnswered(rows, limit);
        ShownKeeps(after, next.items, next.hasMore, next.nextCursor, rows);
      } else {
        MoreTicketBase(v, t, rows);
        MoreAnswered(v.base, rows, v.items, v.nextCursor, limit);
        ShownKeeps(after, next.items, next.hasMore, next.nextCursor, v.base);
      }
    }
  }

  function Smaller(a: nat, b: nat): nat { if a <= b then a else b }

  /** What an answer shows: of a refresh the first page of the list as it was then; of a further page the items shown and up
      to that many more of the same list; and of a request that is not the current one nothing. */
  lemma AnswerShows(v: View, t: Ticket, rows: seq<int>, limit: nat)
    requires ViewOk(v) && CanAnswer(v, t, rows) && limit > 0
    ensures var w := Answered(v, t, rows, limit);
            if t.generation != v.generation then
              w == v.(outstanding := v.outstanding - {t})
            else
              && w.outstanding == v.outstanding - {t} && w.generation == v.generation && !w.loading && !w.loadingMore
              && w.base == (if t.RefreshTicket? then rows else v.base)
              && w.items == w.base[..Smaller(|w.base|, limit + if t.RefreshTicket? then 0 else |v.items|)]
              && (w.hasMore <==> |w.items| < |w.base|)
  {
    hide Unsent, Descending, Later, TicketOk, Consecutive, PageOf;
    if t.generation == v.generation {
      CurrentFlags(v, t);
      if t.RefreshTicket? {
        FirstPage(rows, limit);
        assert rows[..|rows|] == rows;
      } else {
        MoreTicketBase(v, t, rows);
        ShownCount(v.items, v.nextCursor, v.base);
        NextPage(v.base, rows, |v.items|, limit);
        var end := Smaller(|v.base|, limit + |v.items|);
        assert v.base[..|v.items|] + v.base[|v.items|..end] == v.base[..end];
      }
    }
  }

  lemma ShownCount(items: seq<int>, nextCursor: Option<int>, base: seq<int>)
    requires Consecutive(items, true, nextCursor, base)
    ensures 0 < |items| < |base| && items == base[..|items|] && nextCursor == Some(base[|items| - 1])
  {
  }

  /** Only one request is current, and only its flag is up. */
  lemma CurrentFlags(v: View, t: Ticket)
    requires ViewOk(v) && t in v.outstanding && t.generation == v.generation
    ensures v.loading == t.RefreshTicket? && v.loadingMore == t.MoreTicket? && Descending(v.base)
  {
    hide TicketOk, Consecutive, Later, Descending;
  }

  // ---- every interleaving ----

  ghost predicate LoadsMore(v: View, w: View) {
    && !v.loading && !v.loadingMore && v.hasMore && v.nextCursor.Some?
    && w == Sent(Begun(v), MoreTicket(v.generation + 1, v.nextCursor.value, v.items))
  }

  ghost predicate ClientStep(v: View, w: View, limit: nat)
    requires limit > 0
  {
    || w == Begun(v)
    || w == Sent(Begun(v), RefreshTicket(v.generation + 1))
    || LoadsMore(v, w)
    || (exists t :: t in v.outstanding && w == Settled(v, t))
    || (exists rows :: Later(v.table, rows) && w == v.(table := rows))
    || (exists t, rows :: CanAnswer(v, t, rows) && w == Answered(v, t, rows, limit))
  }

  function Opened(rows: seq<int>): View { View([], false, None, false, false, 0, {}, [], rows, map[]) }

  lemma ClientStepKeeps(v: View, w: View, limit: nat)
    requires limit > 0 && ViewOk(v) && ClientStep(v, w, limit)
    ensures ViewOk(w)
  {
    hide Unsent, Descending, Later, TicketOk, Distinct, Flags, Consecutive, PageOf;
    BegunKeeps(v);
    if w == Sent(Begun(v), RefreshTicket(v.generation + 1)) {
      SentKeeps(Begun(v), RefreshTicket(v.generation + 1));
    } else if LoadsMore(v, w) {
      SentKeeps(Begun(v), MoreTicket(v.generation + 1, v.nextCursor.value, v.items));
    } else if t :| t in v.outstanding && w == Settled(v, t) {
      SettledKeeps(v, t);
    } else if rows :| Later(v.table, rows) && w == v.(table := rows) {
      InsertKeeps(v, rows);
    } else if t, rows :| CanAnswer(v, t, rows) && w == Answered(v, t, rows, limit) {
      AnsweredKeeps(v, t, rows, limit);
    }
  }

  /** Whatever the order of refreshes, further pages, aborts, failures, late answers and inserts, the items shown are the
      consecutive pages of one refresh, and all of it once there is no further page. */
  lemma {:induction false} ShowsPagesOfOneRefresh(run: seq<View>, limit: nat, k: nat)
    requires limit > 0 && k < |run| && exists rows :: run[0] == Opened(rows)
    requires forall i :: 0 <= i < |run| - 1 ==> ClientStep(run[i], run[i + 1], limit)
    ensures ViewOk(run[k])
    ensures run[k].items <= run[k].base && (!run[k].hasMore ==> run[k].items == run[k].base)
  {
    hide ClientStep;
    if k > 0 {
      ShowsPagesOfOneRefresh(run, limit, k - 1);
      ClientStepKeeps(run[k - 1], run[k], limit);
    }
  }

  class PagedList {
    const limit: nat
    var items: seq<int>
    var loading: bool
    var loadingMore: bool
    var error: bool
    var hasMore: bool
    var generation: nat
    var nextCursor: Option<int>
    var outstanding: set<Ticket>
    ghost var base: seq<int>
    ghost var table: seq<int>
    ghost var sentAt: map<nat, seq<int>>

    ghost function State(): View
      reads this
    {
      View(items, hasMore, nextCursor, loading, loadingMore, generation, outstanding, base, table, sentAt)
    }

    ghost predicate Valid()
      reads this
    {
      limit > 0 && ViewOk(State())
    }

    constructor (limit: nat, rows: seq<int>)
      requires limit > 0
      ensures Valid() && items == [] && table == rows
    {
      this.limit := limit;
      items, hasMore, nextCursor := [], false, None;
      loading, loadingMore, error := false, false, false;
      generation := 0;
      outstanding := {};
      base, table, sentAt := [], rows, map[];
    }

    /** Somebody inserts rows with larger ids. */
    ghost method Insert(rows: seq<int>)
      requires Valid() && Later(table, rows)
      modifies this`table
      ensures Valid() && table == rows
    {
      hide ViewOk, Later;
      InsertKeeps(State(), rows);
      table := rows;
    }

    /** Aborts whatever is under way and opens a new generation. */
    method BeginRequest()
      requires Valid()
      modifies this
      ensures Valid() && Unsent(State()) && State() == old(Begun(State())) && !error
    {
      hide ViewOk, Unsent;
      BegunKeeps(State());
      generation := generation + 1;
      loading, loadingMore, error := false, false, false;
    }

    method Refresh() returns (ticket: Ticket)
      requires Valid()
      modifies this
      ensures Valid() && ticket == RefreshTicket(old(generation) + 1)
      ensures State() == old(Sent(Begun(State()), RefreshTicket(generation + 1))) && !error
    {
      hide ViewOk, Unsent;
      BeginRequest();
      ticket := RefreshTicket(generation);
      SentKeeps(State(), ticket);
      sentAt := sentAt[generation := table];
      outstanding := outstanding + {ticket};
      loading := true;
    }

    /** Does nothing while a request is under way or when there is no next page. */
    method LoadMore() returns (ticket: Option<Ticket>)
      requires Valid()
      modifies this
      ensures Valid()
      ensures ticket.None? <==> old(loading || loadingMore || !hasMore)
      ensures ticket.None? ==> State() == old(State()) && error == old(error)
      ensures ticket.Some? ==>
                && old(nextCursor).Some? && !error
                && ticket.value == MoreTicket(old(generation) + 1, old(nextCursor).value, old(items))
                && State() == Sent(Begun(old(State())), ticket.value)
    {
      hide Unsent, Descending, Later, TicketOk, Distinct, Flags;
      if loading || loadingMore || !hasMore || nextCursor.None? {
        return None;
      }
      var cursor, previous := nextCursor.value, items;
      BeginRequest();
      var more := MoreTicket(generation, cursor, previous);
      SentKeeps(State(), more);
      sentAt := sentAt[generation := table];
      outstanding := outstanding + {more};
      loadingMore := true;
      return Some(more);
    }

    method Abort()
      requires Valid()
      modifies this
      ensures Valid() && Unsent(State()) && State() == old(Begun(State())) && error == old(error)
    {
      hide ViewOk, Unsent;
      BegunKeeps(State());
      generation := generation + 1;
      loading, loadingMore := false, false;
    }

    /** The answer to a request arrives; rows is the list when the server answered, at some moment since it was sent.
        The answer to a request that is not the current one changes nothing that is shown. */
    method Receive(ticket: Ticket, rows: seq<int>)
      requires Valid() && CanAnswer(State(), ticket, rows)
      modifies this
      ensures Valid() && error == old(error)
      ensures State() == Answered(old(State()), ticket, rows, limit)
    {
      hide Unsent, Descending, Later, TicketOk, Distinct, Flags, Consecutive, PageOf;
      AnsweredKeeps(State(), ticket, rows, limit);
      outstanding := outstanding - {ticket};
      if ticket.generation == generation {
        if ticket.RefreshTicket? {
          var page := ListPage(rows, None, limit);
          nextCursor, hasMore, items := page.nextCursor, page.hasMore, page.items;
          base := rows;
          loading := false;
        } else {
          var page := ListPage(rows, Some(ticket.cursor), limit);
          nextCursor, hasMore, items := page.nextCursor, page.hasMore, ticket.previous + page.items;
          loadingMore := false;
        }
      }
    }

    /** A request fails. A cancellation, or the failure of a request that is not the current one, is not shown. */
    method Fail(ticket: Ticket, canceled: bool)
      requires Valid() && ticket in outstanding
      modifies this
      ensures Valid() && State() == old(Settled(State(), ticket))
      ensures error == (old(error) || (ticket.generation == generation && !canceled))
    {
      hide ViewOk;
      SettledKeeps(State(), ticket);
      outstanding := outstanding - {ticket};
      if !(canceled || ticket.generation != generation) {
        error := true;
      }
      if ticket.generation == generation {
        if ticket.RefreshTicket? {
          loading := false;
        } else {
          loadingMore := false;
        }
      }
    }
  }

  lemma LaterReflexive(rows: seq<int>)
    ensures Later(rows, rows)
  {
    assert rows[0..] == rows;
  }

  lemma LaterTransitive(a: seq<int>, b: seq<int>, c: seq<int>)
    requires Later(a, b) && Later(b, c)
    ensures Later(a, c)
  {
    var n, m := |c| - |b|, |b| - |a|;
    assert c[n..][m..] == c[n + m..];
    forall i, j | 0 <= i < n + m && 0 <= j < |a| ensures c[i] > a[j] {
      if i >= n {
        assert c[i] == c[n..][i - n] == b[i - n];
      } else {
        assert a[j] == b[m..][j] == b[m + j];
      }
    }
  }
}
