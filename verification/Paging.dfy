// Reading a room page by page while others keep writing: forward through a gap by seq, backward through history by id.

module Paging {
  import opened Schema
  import W = Writers

  datatype Row = Row(id: nat, m: Message)

  /** A page of either read, with the cursor for the next request. */
  datatype Page = Page(rows: seq<Row>, next: Option<nat>)

  const DEFAULT_PAGE_SIZE := 50
  const MAX_PAGE_SIZE := 100

  // ----- Query parameters -----

  /** A query parameter: absent, a whole number, or something else. */
  datatype Param = Absent | Number(n: int) | Garbage

  datatype Query = BadRequest | Query(beforeId: nat, afterSeq: nat, gap: bool, limit: nat)

  const UINT64 := 0x1_0000_0000_0000_0000
  const INT64 := 0x8000_0000_0000_0000

  /** A cursor is absent or an unsigned number of 64 bits. */
  predicate Unsigned(p: Param) {
    p.Absent? || (p.Number? && 0 <= p.n < UINT64)
  }

  /** A limit is absent or a signed number of 64 bits, and above zero. */
  predicate Positive(p: Param) {
    p.Absent? || (p.Number? && 1 <= p.n < INT64)
  }

  function PageParams(before: Param, after: Param, limit: Param): (q: Query)
    ensures q.Query? ==> 1 <= q.limit <= MAX_PAGE_SIZE && (q.gap <==> !after.Absent?) && (q.gap ==> q.beforeId == 0)
    ensures q.BadRequest? <==>
              (!before.Absent? && !after.Absent?) || !Unsigned(before) || !Unsigned(after) || !Positive(limit)
    ensures q.Query? ==>
              && (if before.Absent? then q.beforeId == 0 else q.beforeId == before.n)
              && (if after.Absent? then q.afterSeq == 0 else q.afterSeq == after.n)
              && (limit.Absent? ==> q.limit == 50) && (limit.Number? ==> q.limit <= limit.n)
              && (limit.Number? && limit.n <= 100 ==> q.limit == limit.n) && (limit.Number? && limit.n > 100 ==> q.limit == 100)
  {
    if !before.Absent? && !after.Absent? then BadRequest
    else if !Unsigned(before) || !Unsigned(after) then BadRequest
    else if !Positive(limit) then BadRequest
    else Query(if before.Number? then before.n else 0, if after.Number? then after.n else 0, after.Number?,
               if limit.Absent? then DEFAULT_PAGE_SIZE else if limit.n > MAX_PAGE_SIZE then MAX_PAGE_SIZE else limit.n)
  }

  // ----- The two queries -----

  predicate InGap(t: Tables, room: nat, after: nat, id: nat) {
    id in t.messages && t.messages[id].room == room && t.messages[id].seqNo > after
  }

  predicate InHistory(t: Tables, room: nat, before: nat, id: nat) {
    id in t.messages && t.messages[id].room == room && (before > 0 ==> id < before)
  }

  ghost predicate Lists(rows: seq<Row>, id: nat) {
    exists k :: 0 <= k < |rows| && rows[k].id == id
  }

  /** WHERE room AND seq > after ORDER BY seq ASC LIMIT limit. */
  ghost predicate IsGapPage(t: Tables, room: nat, after: nat, limit: nat, rows: seq<Row>) {
    && |rows| <= limit
    && (forall k :: 0 <= k < |rows| ==> InGap(t, room, after, rows[k].id) && t.messages[rows[k].id] == rows[k].m)
    && (forall j, k :: 0 <= j < k < |rows| ==> rows[j].m.seqNo < rows[k].m.seqNo)
    && (forall id :: InGap(t, room, after, id) && !Lists(rows, id) ==>
          |rows| == limit && forall k :: 0 <= k < |rows| ==> rows[k].m.seqNo < t.messages[id].seqNo)
  }

  /** WHERE room AND (no cursor OR id < before) ORDER BY id DESC LIMIT limit. */
  ghost predicate IsHistoryPage(t: Tables, room: nat, before: nat, limit: nat, rows: seq<Row>) {
    && |rows| <= limit
    && (forall k :: 0 <= k < |rows| ==> InHistory(t, room, before, rows[k].id) && t.messages[rows[k].id] == rows[k].m)
    && (forall j, k :: 0 <= j < k < |rows| ==> rows[j].id > rows[k].id)
    && (forall id :: InHistory(t, room, before, id) && !Lists(rows, id) ==>
          |rows| == limit && forall k :: 0 <= k < |rows| ==> rows[k].id > id)
  }

  lemma ListsGrows(rows: seq<Row>, row: Row)
    ensures Lists(rows + [row], row.id) && forall id :: Lists(rows, id) ==> Lists(rows + [row], id)
  {
    assert (rows + [row])[|rows|] == row;
    forall id | Lists(rows, id) ensures Lists(rows + [row], id) {
      var k :| 0 <= k < |rows| && rows[k].id == id;
      assert (rows + [row])[k] == rows[k];
    }
  }

  /** The member of `s` with the least seq. */
  method Oldest(t: Tables, s: set<nat>) returns (id: nat)
    requires s != {} && s <= t.messages.Keys
    ensures id in s && forall x :: x in s ==> t.messages[id].seqNo <= t.messages[x].seqNo
  {
    id :| id in s;
    var rest := s - {id};
    while rest != {}
      invariant id in s && rest <= s && forall x :: x in s && x !in rest ==> t.messages[id].seqNo <= t.messages[x].seqNo
      decreases rest
    {
      var x :| x in rest;
      rest := rest - {x};
      if t.messages[x].seqNo < t.messages[id].seqNo {
        id := x;
      }
    }
  }

  method Greatest(s: set<nat>) returns (id: nat)
    requires s != {}
    ensures id in s && forall x :: x in s ==> x <= id
  {
    id :| id in s;
    var rest := s - {id};
    while rest != {}
      invariant id in s && rest <= s && forall x :: x in s && x !in rest ==> x <= id
      decreases rest
    {
      var x :| x in rest;
      rest := rest - {x};
      if x > id {
        id := x;
      }
    }
  }

  /** The unique index on (conversation_id, seq). */
  ghost predicate UniqueSeqs(messages: map<nat, Message>, room: nat) {
    forall i, j :: SamePlace(messages, room, i, j) ==> i == j
  }

  ghost predicate SamePlace(messages: map<nat, Message>, room: nat, i: nat, j: nat) {
    i in messages && j in messages && messages[i].room == messages[j].room == room && messages[i].seqNo == messages[j].seqNo
  }

  lemma StrictlyOldest(t: Tables, room: nat, s: set<nat>, id: nat)
    requires UniqueSeqs(t.messages, room) && id in s && forall x :: x in s ==> x in t.messages && t.messages[x].room == room
    requires forall x :: x in s ==> t.messages[id].seqNo <= t.messages[x].seqNo
    ensures forall x :: x in s && x != id ==> t.messages[id].seqNo < t.messages[x].seqNo
  {
    forall x | x in s && x != id ensures t.messages[id].seqNo < t.messages[x].seqNo {
      assert !SamePlace(t.messages, room, id, x);
    }
  }

  /** `rows` are the first rows after the cursor, and `rest` all the later ones. */
  ghost predicate First(t: Tables, room: nat, after: nat, rows: seq<Row>, rest: set<nat>) {
    && (forall id :: id in rest ==> InGap(t, room, after, id))
    && (forall id :: InGap(t, room, after, id) ==> id in rest || Lists(rows, id))
    && (forall k :: 0 <= k < |rows| ==> InGap(t, room, after, rows[k].id) && t.messages[rows[k].id] == rows[k].m)
    && (forall j, k :: 0 <= j < k < |rows| ==> rows[j].m.seqNo < rows[k].m.seqNo)
    && (forall id, k :: id in rest && 0 <= k < |rows| ==> rows[k].m.seqNo < t.messages[id].seqNo)
  }

  lemma FirstGrows(t: Tables, room: nat, after: nat, rows: seq<Row>, rest: set<nat>, id: nat)
    requires UniqueSeqs(t.messages, room) && First(t, room, after, rows, rest)
    requires id in rest && forall x :: x in rest ==> x in t.messages && t.messages[id].seqNo <= t.messages[x].seqNo
    ensures First(t, room, after, rows + [Row(id, t.messages[id])], rest - {id})
  {
    StrictlyOldest(t, room, rest, id);
    ListsGrows(rows, Row(id, t.messages[id]));
  }

  method ListMessagesAfterSeq(t: Tables, room: nat, after: nat, limit: nat) returns (rows: seq<Row>)
    requires UniqueSeqs(t.messages, room)
    ensures IsGapPage(t, room, after, limit, rows)
  {
    rows := [];
    var rest := set id | id in t.messages && t.messages[id].room == room && t.messages[id].seqNo > after;
    while |rows| < limit && rest != {}
      invariant |rows| <= limit && First(t, room, after, rows, rest)
      decreases rest
    {
      var id := Oldest(t, rest);
      FirstGrows(t, room, after, rows, rest, id);
      rows := rows + [Row(id, t.messages[id])];
      rest := rest - {id};
    }
  }

  /** `rows` are the newest rows below the cursor, and `rest` all the older ones. */
  ghost predicate Newest(t: Tables, room: nat, before: nat, rows: seq<Row>, rest: set<nat>) {
    && (forall id :: id in rest ==> InHistory(t, room, before, id))
    && (forall id :: InHistory(t, room, before, id) ==> id in rest || Lists(rows, id))
    && (forall k :: 0 <= k < |rows| ==> InHistory(t, room, before, rows[k].id) && t.messages[rows[k].id] == rows[k].m)
    && (forall j, k :: 0 <= j < k < |rows| ==> rows[j].id > rows[k].id)
    && (forall id, k :: id in rest && 0 <= k < |rows| ==> rows[k].id > id)
  }

  lemma NewestGrows(t: Tables, room: nat, before: nat, rows: seq<Row>, rest: set<nat>, id: nat)
    requires Newest(t, room, before, rows, rest) && id in rest && forall x :: x in rest ==> x <= id
    ensures id in t.messages && Newest(t, room, before, rows + [Row(id, t.messages[id])], rest - {id})
  {
    ListsGrows(rows, Row(id, t.messages[id]));
  }

  method ListMessages(t: Tables, room: nat, before: nat, limit: nat) returns (rows: seq<Row>)
    ensures IsHistoryPage(t, room, before, limit, rows)
  {
    rows := [];
    var rest := set id | id in t.messages && t.messages[id].room == room && (before > 0 ==> id < before);
    while |rows| < limit && rest != {}
      invariant |rows| <= limit && Newest(t, room, before, rows, rest)
      decreases rest
    {
      var id := Greatest(rest);
      NewestGrows(t, room, before, rows, rest, id);
      rows := rows + [Row(id, t.messages[id])];
      rest := rest - {id};
    }
  }

  /** A full page carries the cursor of its last row. */
  method ListGap(t: Tables, room: nat, after: nat, limit: nat) returns (page: Page)
    requires limit > 0 && UniqueSeqs(t.messages, room)
    ensures IsGapPage(t, room, after, limit, page.rows)
    ensures page.next == if |page.rows| == limit then Some(page.rows[limit - 1].m.seqNo) else None
  {
    var rows := ListMessagesAfterSeq(t, room, after, limit);
    page := Page(rows, if |rows| == limit then Some(rows[|rows| - 1].m.seqNo) else None);
  }

  method ListHistory(t: Tables, room: nat, before: nat, limit: nat) returns (page: Page)
    requires limit > 0
    ensures IsHistoryPage(t, room, before, limit, page.rows)
    ensures page.next == if |page.rows| == limit then Some(page.rows[limit - 1].id) else None
  {
    var rows := ListMessages(t, room, before, limit);
    page := Page(rows, if |rows| == limit then Some(rows[|rows| - 1].id) else None);
  }

  // ----- Forward: no hole, no repeat -----

  function LastSeq(t: Tables, room: nat): nat {
    if room in t.rooms then t.rooms[room].lastSeq else 0
  }

  function Range(lo: nat, hi: nat): seq<nat>
    requires lo <= hi
  {
    seq(hi - lo, i requires 0 <= i < hi - lo => lo + 1 + i)
  }

  function Seqs(rows: seq<Row>): seq<nat> {
    seq(|rows|, i requires 0 <= i < |rows| => rows[i].m.seqNo)
  }

  /** In a gapless room a page is the next `limit` seqs, or all that are left. */
  lemma GapPageIsRange(t: Tables, room: nat, after: nat, limit: nat, rows: seq<Row>)
    requires W.MessagesOk(t) && room in t.rooms && IsGapPage(t, room, after, limit, rows)
    ensures forall k :: 0 <= k < |rows| ==> rows[k].m.seqNo == after + 1 + k
    ensures |rows| < limit ==> after + |rows| >= LastSeq(t, room)
    ensures |rows| > 0 ==> after + |rows| <= LastSeq(t, room)
  {
    var k := 0;
    while k < |rows|
      invariant 0 <= k <= |rows| && forall j :: 0 <= j < k ==> rows[j].m.seqNo == after + 1 + j
    {
      NextSeq(t, room, after, limit, rows, k);
      k := k + 1;
    }
    assert |rows| > 0 ==> InGap(t, room, after, rows[|rows| - 1].id);
    if |rows| < limit && after + |rows| < LastSeq(t, room) {
      assert W.Holds(t, room, after + |rows| + 1);
      var id :| id in t.messages && t.messages[id].room == room && t.messages[id].seqNo == after + |rows| + 1;
      assert InGap(t, room, after, id);
    }
  }

  lemma NextSeq(t: Tables, room: nat, after: nat, limit: nat, rows: seq<Row>, k: nat)
    requires W.MessagesOk(t) && room in t.rooms && IsGapPage(t, room, after, limit, rows) && k < |rows|
    requires forall j :: 0 <= j < k ==> rows[j].m.seqNo == after + 1 + j
    ensures rows[k].m.seqNo == after + 1 + k
  {
    var n := after + 1 + k;
    assert InGap(t, room, after, rows[k].id);
    assert k > 0 ==> rows[k - 1].m.seqNo < rows[k].m.seqNo;
    assert W.Holds(t, room, n);
    var id :| id in t.messages && t.messages[id].room == room && t.messages[id].seqNo == n;
    assert InGap(t, room, after, id);
    if Lists(rows, id) {
      var j :| 0 <= j < |rows| && rows[j].id == id;
      assert j >= k;
    }
  }

  /** The room as the k-th request finds it, or None when that request fails. */
  type Views = nat -> Option<Tables>

  /** Every answered request reads consistent tables. */
  ghost predicate Sound(views: Views, room: nat) {
    forall i :: SoundAt(views(i), room)
  }

  ghost predicate SoundAt(view: Option<Tables>, room: nat) {
    view.Some? ==> W.MessagesOk(view.value) && room in view.value.rooms
  }

  /** The allocator of the room never goes back, whatever is written between two requests. */
  ghost predicate Growing(views: Views, room: nat) {
    forall i, j :: i <= j ==> NotShorter(views(i), views(j), room)
  }

  ghost predicate NotShorter(early: Option<Tables>, later: Option<Tables>, room: nat) {
    early.Some? && later.Some? ==> LastSeq(early.value, room) <= LastSeq(later.value, room)
  }

  datatype Fetched = Done | RequestFailed | NeverEnded

  const GAP_LIMIT := 100
  const GAP_PAGES := 100

  /** The cursor after k full pages. */
  function Cursor(after: nat, limit: nat, k: nat): nat {
    if k == 0 then after else Cursor(after, limit, k - 1) + limit
  }

  lemma {:induction false} CursorIsProduct(after: nat, limit: nat, k: nat)
    ensures Cursor(after, limit, k) == after + limit * k
  {
    if k == 0 {
    } else {
      CursorIsProduct(after, limit, k - 1);
    }
  }

  /** The k-th request finds the room long enough for k + 1 full pages. */
  ghost predicate FullPage(views: Views, room: nat, after: nat, limit: nat, k: nat) {
    views(k).Some? && LastSeq(views(k).value, room) >= Cursor(after, limit, k + 1)
  }

  /** `out` is everything after `after` that the room had when the last page was read, in order, each once. */
  ghost predicate Complete(out: seq<nat>, after: nat, last: nat) {
    out == Range(after, if last > after then last else after)
  }

  /** Page k continues the range of the pages before it, and is full exactly when the room is that long. */
  lemma OnePage(views: Views, room: nat, after: nat, limit: nat, k: nat, rows: seq<Row>)
    requires Sound(views, room) && views(k).Some? && limit > 0
    requires IsGapPage(views(k).value, room, Cursor(after, limit, k), limit, rows)
    ensures var cursor := Cursor(after, limit, k); var last := LastSeq(views(k).value, room);
            && cursor >= after && Range(after, cursor) + Seqs(rows) == Range(after, cursor + |rows|)
            && (|rows| == limit ==> rows[limit - 1].m.seqNo == cursor + limit)
            && (|rows| == limit <==> FullPage(views, room, after, limit, k))
            && (|rows| < limit ==> cursor + |rows| >= last && (|rows| > 0 ==> cursor + |rows| == last))
  {
    CursorIsProduct(after, limit, k);
    assert SoundAt(views(k), room);
    GapPageIsRange(views(k).value, room, Cursor(after, limit, k), limit, rows);
  }

  /** One request of the client: the seqs of the page and its cursor. */
  method GetPage(views: Views, room: nat, after: nat, limit: nat, k: nat) returns (seqs: seq<nat>, next: Option<nat>)
    requires limit > 0 && Sound(views, room) && views(k).Some?
    ensures var cursor := Cursor(after, limit, k); var last := LastSeq(views(k).value, room);
            && cursor >= after && Range(after, cursor) + seqs == Range(after, cursor + |seqs|)
            && next == (if FullPage(views, room, after, limit, k) then Some(Cursor(after, limit, k + 1)) else None)
            && (next.Some? ==> |seqs| == limit)
            && (next.None? && last >= cursor ==> cursor + |seqs| == last)
            && (next.None? && last < cursor ==> seqs == [])
  {
    CursorIsProduct(after, limit, k);
    assert SoundAt(views(k), room);
    var page := ListGap(views(k).value, room, Cursor(after, limit, k), limit);
    OnePage(views, room, after, limit, k, page.rows);
    seqs, next := Seqs(page.rows), page.next;
  }

  /**
   * fetchGap, with the server's page limit and the client's stop as parameters (both 100 in the program).
   * It is complete whatever is written between the pages, and it gives up exactly when `stop` full pages came back.
   */
  method FetchGap(views: Views, room: nat, after: nat, limit: nat, stop: nat)
    returns (out: seq<nat>, r: Fetched, pages: nat)
    requires limit > 0 && Sound(views, room) && Growing(views, room)
    ensures pages <= stop && forall k :: 0 <= k < pages - 1 ==> FullPage(views, room, after, limit, k)
    ensures r.Done? ==> 0 < pages && views(pages - 1).Some? && Complete(out, after, LastSeq(views(pages - 1).value, room))
    ensures r.RequestFailed? ==> out == [] && 0 < pages && views(pages - 1).None?
    ensures r.NeverEnded? ==> pages == stop && out == Range(after, after + |out|) && after + |out| == Cursor(after, limit, stop)
    ensures r.NeverEnded? <==> forall k :: 0 <= k < stop ==> FullPage(views, room, after, limit, k)
  {
    out := [];
    var cursor := after;
    pages := 0;
    while pages < stop
      invariant pages <= stop && cursor == Cursor(after, limit, pages) && cursor >= after && out == Range(after, cursor)
      invariant forall k :: 0 <= k < pages ==> FullPage(views, room, after, limit, k)
    {
      pages := pages + 1;
      if views(pages - 1).None? {
        assert !FullPage(views, room, after, limit, pages - 1);
        return [], RequestFailed, pages;
      }
      var seqs, next := GetPage(views, room, after, limit, pages - 1);
      out := out + seqs;
      if next.None? {
        assert !FullPage(views, room, after, limit, pages - 1);
        if pages > 1 {
          assert FullPage(views, room, after, limit, pages - 2) && NotShorter(views(pages - 2), views(pages - 1), room);
        }
        return out, Done, pages;
      }
      cursor := next.value;
    }
    r := NeverEnded;
  }

  /** In a quiet room the client's stop is reached exactly when 10000 messages or more are missing. */
  lemma QuietGapEnds(views: Views, room: nat, after: nat, t: Tables)
    requires forall k :: views(k) == Some(t)
    ensures (forall k :: 0 <= k < GAP_PAGES ==> FullPage(views, room, after, GAP_LIMIT, k)) <==> LastSeq(t, room) >= after + 10_000
  {
    forall k | 0 <= k <= GAP_PAGES ensures Cursor(after, GAP_LIMIT, k) == after + 100 * k {
      CursorIsProduct(after, GAP_LIMIT, k);
    }
    if forall k :: 0 <= k < GAP_PAGES ==> FullPage(views, room, after, GAP_LIMIT, k) {
      assert FullPage(views, room, after, GAP_LIMIT, GAP_PAGES - 1);
    }
  }

  // ----- Backward: stable under inserts -----

  /** What a reader holds at cursor `before`: the room's rows from there up, newest first, each once. */
  ghost predicate HistoryFrom(t: Tables, room: nat, before: nat, out: seq<Row>) {
    && (forall k :: 0 <= k < |out| ==> InHistory(t, room, 0, out[k].id) && t.messages[out[k].id] == out[k].m)
    && (forall j, k :: 0 <= j < k < |out| ==> out[j].id > out[k].id)
    && (forall k :: 0 <= k < |out| ==> before > 0 && out[k].id >= before)
    && (forall id :: InHistory(t, room, 0, id) ==> Lists(out, id) || InHistory(t, room, before, id))
  }

  /** Everything the room held in `t`, newest first, each row once. */
  ghost predicate WholeHistory(t: Tables, room: nat, out: seq<Row>) {
    && (forall k :: 0 <= k < |out| ==> InHistory(t, room, 0, out[k].id) && t.messages[out[k].id] == out[k].m)
    && (forall j, k :: 0 <= j < k < |out| ==> out[j].id > out[k].id)
    && (forall id :: InHistory(t, room, 0, id) ==> Lists(out, id))
  }

  /** Below a row that the first page could see, later writers are invisible. */
  lemma PageOfThePast(t: Tables, t': Tables, room: nat, before: nat, limit: nat, rows: seq<Row>)
    requires W.Extends(t, t') && room in t.rooms && IsHistoryPage(t', room, before, limit, rows)
    requires before in t.messages && t.messages[before].room == room && before > 0
    ensures IsHistoryPage(t, room, before, limit, rows)
  {
    forall id | InHistory(t', room, before, id) ensures InHistory(t, room, before, id) {
      if id !in t.messages {
        assert W.NewRow(t, id, t'.messages[id]) && before in W.RowsOfRoom(t, room);
      }
    }
  }

  lemma JoinLists(out: seq<Row>, rows: seq<Row>)
    ensures forall id :: Lists(out, id) || Lists(rows, id) ==> Lists(out + rows, id)
  {
    forall id | Lists(out, id) || Lists(rows, id) ensures Lists(out + rows, id) {
      if Lists(out, id) {
        var k :| 0 <= k < |out| && out[k].id == id;
        assert (out + rows)[k].id == id;
      } else {
        var k :| 0 <= k < |rows| && rows[k].id == id;
        assert (out + rows)[|out| + k].id == id;
      }
    }
  }

  lemma FullPageMovesOn(t: Tables, room: nat, before: nat, limit: nat, out: seq<Row>, rows: seq<Row>)
    requires W.IdsOk(t) && HistoryFrom(t, room, before, out) && IsHistoryPage(t, room, before, limit, rows) && |rows| == limit > 0
    ensures HistoryFrom(t, room, rows[limit - 1].id, out + rows)
    ensures InHistory(t, room, before, rows[limit - 1].id) && rows[limit - 1].id > 0
  {
    JoinLists(out, rows);
    assert InHistory(t, room, before, rows[limit - 1].id);
  }

  lemma ShortPageEnds(t: Tables, room: nat, before: nat, limit: nat, out: seq<Row>, rows: seq<Row>)
    requires HistoryFrom(t, room, before, out) && IsHistoryPage(t, room, before, limit, rows) && |rows| < limit
    ensures WholeHistory(t, room, out + rows)
  {
    JoinLists(out, rows);
  }

  ghost predicate Appended(early: Tables, later: Tables) {
    W.Extends(early, later)
  }

  /** Following next_before_id to the end shows exactly the rows that existed at the first page, whatever is written meanwhile. */
  method WalkHistory(views: nat -> Tables, room: nat, limit: nat) returns (out: seq<Row>)
    requires limit > 0 && room in views(0).rooms && W.IdsOk(views(0)) && forall k :: Appended(views(0), views(k))
    ensures WholeHistory(views(0), room, out)
  {
    out := [];
    var k, cursor := 0, 0;
    while true
      invariant HistoryFrom(views(0), room, cursor, out)
      invariant if k == 0 then cursor == 0 else cursor > 0 && InHistory(views(0), room, 0, cursor)
      decreases if k == 0 then views(0).nextMessage else cursor
    {
      var page := ListHistory(views(k), room, cursor, limit);
      if k > 0 {
        assert Appended(views(0), views(k));
        PageOfThePast(views(0), views(k), room, cursor, limit, page.rows);
      }
      if page.next.None? {
        ShortPageEnds(views(0), room, cursor, limit, out, page.rows);
        return out + page.rows;
      }
      FullPageMovesOn(views(0), room, cursor, limit, out, page.rows);
      out := out + page.rows;
      cursor, k := page.next.value, k + 1;
    }
  }
}
