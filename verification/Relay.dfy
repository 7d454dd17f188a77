// Drain as the program runs it, proved to be a run of Pipeline's steps by one relay.

module Relay {
  import opened Schema
  import P = Pipeline
  import D = Delivery
  import W = Writers
  import Sets

  /** The store's side of the relay: the outbox table and its statements. */
  class Store {
    var outbox: map<nat, OutboxRow>

    constructor (rows: map<nat, OutboxRow>)
      ensures outbox == rows
    {
      outbox := rows;
    }

    /** Picks the least waiting id until `limit` rows are picked or none is left. */
    method FetchOutbox(limit: nat) returns (rows: seq<P.Row>)
      ensures P.IsBatch(outbox, limit, rows)
    {
      rows := [];
      var rest := set id | id in outbox && outbox[id].publishedAt.None?;
      while |rows| < limit && rest != {}
        invariant |rows| <= limit
        invariant forall id :: Pending(outbox, id) ==> id in rest || InRows(rows, id)
        invariant forall id :: id in rest ==> Pending(outbox, id)
        invariant forall id, k :: id in rest && 0 <= k < |rows| ==> rows[k].id < id
        invariant forall k :: 0 <= k < |rows| ==> Pending(outbox, rows[k].id) && outbox[rows[k].id].payload == rows[k].payload
        invariant forall j, k :: 0 <= j < k < |rows| ==> rows[j].id < rows[k].id
        decreases rest
      {
        var id := Least(rest);
        RowsGrow(rows, P.Row(id, outbox[id].payload));
        rows := rows + [P.Row(id, outbox[id].payload)];
        rest := rest - {id};
      }
    }

    /** The listed rows are done: they are not waiting any more, and no later fetch returns one of them. */
    method MarkOutboxPublished(ids: set<nat>, now: nat)
      modifies this
      ensures Stamped(old(outbox), outbox, ids, now) && SameAttempts(old(outbox), outbox)
      ensures Waiting(outbox) == Waiting(old(outbox)) - ids
      ensures forall limit: nat, rows: seq<P.Row> :: P.IsBatch(outbox, limit, rows) ==> Avoids(rows, ids)
    {
      outbox := map id | id in outbox :: if id in ids then outbox[id].(publishedAt := Some(now)) else outbox[id];
    }

    /** A note about one row: the row waits as before, and every fetch returns what it would have returned. */
    method MarkOutboxFailed(id: nat)
      modifies this
      ensures AttemptNoted(old(outbox), outbox, id) && Waiting(outbox) == Waiting(old(outbox))
      ensures SameBatches(old(outbox), outbox)
    {
      if id in outbox {
        outbox := outbox[id := outbox[id].(attempts := outbox[id].attempts + 1)];
      }
      NoteKeepsBatches(old(outbox), outbox, id);
    }

    /** Clears out what was stamped before `t`: exactly those rows leave the table, and no row that still waits does. */
    method DeleteOutboxPublishedBefore(t: nat) returns (deleted: nat)
      modifies this
      ensures outbox == P.Cleaned(old(outbox), t) && |outbox| + deleted == |old(outbox)|
      ensures forall id :: id in outbox <==>
                id in old(outbox) && (old(outbox)[id].publishedAt.None? || old(outbox)[id].publishedAt.value >= t)
      ensures forall id :: id in outbox ==> outbox[id] == old(outbox)[id]
      ensures Waiting(outbox) == Waiting(old(outbox))
    {
      var gone := set id | id in outbox && outbox[id].publishedAt.Some? && outbox[id].publishedAt.value < t;
      assert outbox.Keys - gone == (outbox - gone).Keys;
      assert outbox - gone == P.Cleaned(outbox, t);
      deleted := |gone|;
      outbox := outbox - gone;
    }
  }

  ghost function Waiting(outbox: map<nat, OutboxRow>): set<nat> {
    set id | id in outbox && Pending(outbox, id)
  }

  predicate Avoids(rows: seq<P.Row>, ids: set<nat>) {
    forall k :: 0 <= k < |rows| ==> rows[k].id !in ids
  }

  ghost predicate SameAttempts(before: map<nat, OutboxRow>, after: map<nat, OutboxRow>) {
    before.Keys == after.Keys && forall id :: id in before ==> after[id].attempts == before[id].attempts
  }

  /** One more attempt on one row, if it is there, and nothing else. */
  ghost predicate AttemptNoted(before: map<nat, OutboxRow>, after: map<nat, OutboxRow>, id: nat) {
    && before.Keys == after.Keys
    && (forall o :: o in before ==>
          after[o].payload == before[o].payload && after[o].publishedAt == before[o].publishedAt
          && after[o].attempts == before[o].attempts + if o == id then 1 else 0)
  }

  ghost predicate SameBatches(before: map<nat, OutboxRow>, after: map<nat, OutboxRow>) {
    forall limit: nat, rows: seq<P.Row> :: P.IsBatch(before, limit, rows) <==> P.IsBatch(after, limit, rows)
  }

  lemma NoteKeepsBatches(before: map<nat, OutboxRow>, after: map<nat, OutboxRow>, id: nat)
    requires AttemptNoted(before, after, id)
    ensures SameBatches(before, after)
  {
    assert forall o :: Pending(before, o) <==> Pending(after, o);
    forall limit: nat, rows: seq<P.Row> ensures P.IsBatch(before, limit, rows) <==> P.IsBatch(after, limit, rows) {
    }
  }

  /** The two table edits, as the pipeline's steps see them. */
  lemma EditsAsSteps(before: map<nat, OutboxRow>, after: map<nat, OutboxRow>, ids: set<nat>, id: nat, now: nat)
    ensures Stamped(before, after, ids, now) && SameAttempts(before, after) ==> after == P.Marked(before, ids, now)
    ensures AttemptNoted(before, after, id) ==> after == P.Noted(before, id)
  {
  }

  ghost predicate InRows(rows: seq<P.Row>, id: nat) {
    exists k :: 0 <= k < |rows| && rows[k].id == id
  }

  lemma RowsGrow(rows: seq<P.Row>, row: P.Row)
    ensures InRows(rows + [row], row.id) && forall id :: InRows(rows, id) ==> InRows(rows + [row], id)
  {
    var rows' := rows + [row];
    assert rows'[|rows|] == row;
    forall id | InRows(rows, id) ensures InRows(rows', id) {
      var k :| 0 <= k < |rows| && rows[k].id == id;
      assert rows'[k] == rows[k];
    }
  }

  method Least(s: set<nat>) returns (least: nat)
    requires s != {}
    ensures least in s && forall x :: x in s ==> least <= x
  {
    least :| least in s;
    var rest := s - {least};
    while rest != {}
      invariant least in s && rest <= s && forall x :: x in s && x !in rest ==> least <= x
      decreases rest
    {
      var x :| x in rest;
      rest := rest - {x};
      if x < least {
        least := x;
      }
    }
  }

  /** What happens to the publish of one row; an ack can be lost after the broker took the message. */
  datatype Outcome = Ok | AckLost | Refused | NoMembers

  /** The broker's side: it keeps a message unless it took the same id less than a window ago. */
  class Broker {
    const window: nat
    var stream: D.Stream

    constructor (window: nat)
      ensures this.window == window && stream == D.Stream([], map[])
    {
      this.window := window;
      stream := D.Stream([], map[]);
    }

    /**
     * After an ack the stream has the row, and after an error it may have it too. A repeat inside the window adds
     * nothing; otherwise one entry comes at the end. Copies of one row stay at least a window apart.
     */
    method Publish(row: P.Row, now: nat, outcome: Outcome, ghost c: D.Config) returns (ok: bool)
      requires c.window == window && row.id > 0
      modifies this
      ensures ok <==> outcome.Ok?
      ensures ok || outcome.AckLost? ==> row.id in stream.accepted
      ensures !(ok || outcome.AckLost?) || Repeats(old(stream), window, row.id, now) ==> stream == old(stream)
      ensures (ok || outcome.AckLost?) && !Repeats(old(stream), window, row.id, now) ==>
                && stream.log == old(stream).log + [D.Entry(row.id, row.payload, now)]
                && stream.accepted == old(stream).accepted[row.id := now]
      ensures D.StreamOk(c, now, old(stream)) ==> D.StreamOk(c, now, stream)
    {
      if outcome.Ok? || outcome.AckLost? {
        if !Repeats(stream, window, row.id, now) {
          PublishKeepsStream(c, now, stream, row);
          stream := D.Accepted(stream, D.Entry(row.id, row.payload, now));
        }
      }
      ok := outcome.Ok?;
    }
  }

  /** The broker took this id less than a window ago. */
  predicate Repeats(stream: D.Stream, window: nat, id: nat, now: nat) {
    id in stream.accepted && now < stream.accepted[id] + window
  }

  lemma PublishKeepsStream(c: D.Config, now: nat, stream: D.Stream, row: P.Row)
    requires row.id > 0 && !Repeats(stream, c.window, row.id, now)
    ensures D.StreamOk(c, now, stream) ==> D.StreamOk(c, now, D.Accepted(stream, D.Entry(row.id, row.payload, now)))
  {
    if D.StreamOk(c, now, stream) {
      D.AcceptKeepsStream(c, D.EMPTY.(now := now, stream := stream), D.Entry(row.id, row.payload, now));
    }
  }

  function Taking(stream: D.Stream, window: nat, row: P.Row, now: nat): D.Stream {
    if Repeats(stream, window, row.id, now) then stream else D.Accepted(stream, D.Entry(row.id, row.payload, now))
  }

  datatype Batch = Batch(fetched: nat, published: nat)

  /** The statement that stamps the rows can fail, or take effect while its reply is lost. */
  datatype MarkOutcome = Stamps | StampsUnknown | Fails

  /** The environment's choices for one Drain: per row id, its publish and whether the note about a failure gets lost. */
  datatype Weather = Weather(fetchFails: bool, mark: MarkOutcome, outcomes: map<nat, Outcome>, lostNotes: set<nat>)

  function OutcomeOf(w: Weather, id: nat): Outcome {
    if id in w.outcomes then w.outcomes[id] else Ok
  }

  /** Drain goes past this row. */
  predicate Passes(w: Weather, row: P.Row) {
    row.payload.Junk? || OutcomeOf(w, row.id).Ok?
  }

  /** Where the loop of Drain is: every row before `pos` passed, and the row at `pos` did not if it broke. */
  ghost predicate Progress(w: Weather, rows: seq<P.Row>, pos: nat, broke: bool, before: D.Stream, after: D.Stream,
                           window: nat, now: nat)
  {
    && pos <= |rows| && (forall k :: 0 <= k < pos ==> Passes(w, rows[k])) && (broke ==> pos < |rows| && !Passes(w, rows[pos]))
    && after == if broke then Streamed(before, window, w, rows, pos, now) else Flowed(before, window, rows[..pos], now)
  }

  lemma Proceeds(w: Weather, rows: seq<P.Row>, pos: nat, before: D.Stream, mid: D.Stream, after: D.Stream, window: nat, now: nat)
    requires pos < |rows| && Progress(w, rows, pos, false, before, mid, window, now)
    requires var o := OutcomeOf(w, rows[pos].id);
             after == if rows[pos].payload.Readable? && (o.Ok? || o.AckLost?) then Taking(mid, window, rows[pos], now) else mid
    ensures if Passes(w, rows[pos]) then Progress(w, rows, pos + 1, false, before, after, window, now)
            else Progress(w, rows, pos, true, before, after, window, now)
    ensures P.Ids(rows, pos + 1) == P.Ids(rows, pos) + {rows[pos].id}
  {
    FlowedGrows(before, window, rows, pos, now);
  }

  /** The row was sent to the broker, and no ack came. */
  predicate TriedInVain(w: Weather, row: P.Row) {
    row.payload.Readable? && (OutcomeOf(w, row.id).AckLost? || OutcomeOf(w, row.id).Refused?)
  }

  /** The pipeline's state agrees with what the two objects hold, and relay `n` is as given. */
  ghost predicate Matches(s: P.State, outbox: map<nat, OutboxRow>, stream: D.Stream, n: nat, r: P.Relay, now: nat) {
    s.db.t.outbox == outbox && s.d.stream == stream && P.RelayOf(s, n) == r && s.d.now == now
  }

  ghost predicate Ran(c: D.Config, s0: P.State, ls: seq<P.Label>, s: P.State) {
    P.CanRun(c, s0, ls) && P.Run(c, s0, ls) == s
  }

  lemma Step(c: D.Config, s0: P.State, ls: seq<P.Label>, s: P.State, l: P.Label) returns (ls': seq<P.Label>, s': P.State)
    requires Ran(c, s0, ls, s) && P.Enabled(c, s, l)
    ensures Ran(c, s0, ls', s') && s' == P.Do(c, s, l)
  {
    P.RunThen(c, s0, ls, l);
    ls', s' := ls + [l], P.Do(c, s, l);
  }

  lemma FetchRows(c: D.Config, s: P.State, n: nat, rows: seq<P.Row>) returns (ls': seq<P.Label>, s': P.State)
    requires P.RelayOf(s, n).Leader? && P.IsBatch(s.db.t.outbox, P.BATCH, rows)
    ensures Ran(c, s, ls', s') && Matches(s', s.db.t.outbox, s.d.stream, n, P.Draining(rows, 0, false, false), s.d.now)
  {
    ls', s' := Step(c, s, [], s, P.Fetch(n, rows));
  }

  lemma EndBatch(c: D.Config, s0: P.State, ls: seq<P.Label>, s: P.State, n: nat, r: P.Relay, fails: bool)
    returns (ls': seq<P.Label>, s': P.State)
    requires Ran(c, s0, ls, s) && P.RelayOf(s, n) == r && r.Draining? && r.pos <= |r.batch| && (r.broke || r.pos == |r.batch|)
    ensures Ran(c, s0, ls', s')
    ensures Matches(s', if fails then s.db.t.outbox else P.Marked(s.db.t.outbox, P.Ids(r.batch, r.pos), s.d.now),
                    s.d.stream, n, P.Leader, s.d.now)
  {
    ls', s' := Step(c, s0, ls, s, if fails then P.MarkFailed(n) else P.Mark(n));
  }

  /** A row that passes: skipped with a note, or sent, taken by the broker and acked. */
  lemma PassRow(c: D.Config, s0: P.State, ls: seq<P.Label>, s: P.State, n: nat, r: P.Relay, noted: bool)
    returns (ls': seq<P.Label>, s': P.State)
    requires Ran(c, s0, ls, s) && P.RelayOf(s, n) == r && P.AtRow(r) && (r.batch[r.pos].payload.Readable? ==> r.batch[r.pos].id > 0)
    ensures Ran(c, s0, ls', s')
    ensures var row := r.batch[r.pos];
            Matches(s', if row.payload.Junk? && noted then P.Noted(s.db.t.outbox, row.id) else s.db.t.outbox,
                    if row.payload.Junk? then s.d.stream else Taking(s.d.stream, c.window, row, s.d.now),
                    n, r.(pos := r.pos + 1), s.d.now)
  {
    var row := r.batch[r.pos];
    if row.payload.Junk? {
      ls', s' := Step(c, s0, ls, s, P.SkipJunk(n, noted));
    } else {
      ls', s' := Step(c, s0, ls, s, P.Send(n));
      ls', s' := Step(c, s0, ls', s', P.Take(row));
      ls', s' := Step(c, s0, ls', s', P.Acked(n));
    }
  }

  /** A row that stops the batch. */
  lemma BreakAtRow(c: D.Config, s0: P.State, ls: seq<P.Label>, s: P.State, n: nat, r: P.Relay, outcome: Outcome, noted: bool)
    returns (ls': seq<P.Label>, s': P.State)
    requires Ran(c, s0, ls, s) && P.RelayOf(s, n) == r && P.AtRow(r) && r.batch[r.pos].payload.Readable? && r.batch[r.pos].id > 0
    requires !outcome.Ok?
    ensures Ran(c, s0, ls', s')
    ensures Matches(s', if noted then P.Noted(s.db.t.outbox, r.batch[r.pos].id) else s.db.t.outbox,
                    if outcome.AckLost? then Taking(s.d.stream, c.window, r.batch[r.pos], s.d.now) else s.d.stream,
                    n, r.(broke := true), s.d.now)
  {
    ls', s' := ls, s;
    if outcome.AckLost? {
      ls', s' := Step(c, s0, ls', s', P.Send(n));
      ls', s' := Step(c, s0, ls', s', P.Take(r.batch[r.pos]));
    }
    ls', s' := Step(c, s0, ls', s', P.Failed(n, noted));
  }

  /** Exactly the rows before the first one that does not pass. */
  ghost predicate Longest(w: Weather, rows: seq<P.Row>, k: nat) {
    k <= |rows| && (forall j :: 0 <= j < k ==> Passes(w, rows[j])) && (k < |rows| ==> !Passes(w, rows[k]))
  }

  /** No row is gone or rewritten, and exactly `ids` got a new published_at. */
  ghost predicate Stamped(before: map<nat, OutboxRow>, after: map<nat, OutboxRow>, ids: set<nat>, now: nat) {
    && before.Keys == after.Keys
    && (forall id :: id in before ==>
          after[id].payload == before[id].payload
          && after[id].publishedAt == if id in ids then Some(now) else before[id].publishedAt)
  }

  lemma MarkStamps(before: map<nat, OutboxRow>, after: map<nat, OutboxRow>, ids: set<nat>, now: nat)
    requires Stamped(before, after, {}, now)
    ensures Stamped(before, P.Marked(after, ids, now), ids, now)
  {
  }

  lemma NotedStamps(before: map<nat, OutboxRow>, after: map<nat, OutboxRow>, id: nat, now: nat)
    requires Stamped(before, after, {}, now)
    ensures Stamped(before, P.Noted(after, id), {}, now)
  {
  }

  /** The stream after publishing rows in order; unreadable rows are not published. */
  function Flowed(stream: D.Stream, window: nat, rows: seq<P.Row>, now: nat): D.Stream
    decreases |rows|
  {
    if rows == [] then stream
    else
      var before := Flowed(stream, window, rows[..|rows| - 1], now);
      var row := rows[|rows| - 1];
      if row.payload.Junk? then before else Taking(before, window, row, now)
  }

  /** The stream after a batch that stopped at row k, which the broker may have taken without the relay knowing. */
  function Streamed(stream: D.Stream, window: nat, w: Weather, rows: seq<P.Row>, k: nat, now: nat): D.Stream
    requires k <= |rows|
  {
    var before := Flowed(stream, window, rows[..k], now);
    if k < |rows| && rows[k].payload.Readable? && OutcomeOf(w, rows[k].id).AckLost?
    then Taking(before, window, rows[k], now) else before
  }

  lemma FlowedGrows(stream: D.Stream, window: nat, rows: seq<P.Row>, pos: nat, now: nat)
    requires pos < |rows|
    ensures Flowed(stream, window, rows[..pos + 1], now)
         == if rows[pos].payload.Junk? then Flowed(stream, window, rows[..pos], now)
            else Taking(Flowed(stream, window, rows[..pos], now), window, rows[pos], now)
    ensures P.Ids(rows, pos + 1) == P.Ids(rows, pos) + {rows[pos].id}
  {
    assert rows[..pos + 1] == rows[..pos] + [rows[pos]];
  }

  // ----- What Batch.Published counts -----

  /** The rows of a batch that the broker took: the published prefix without the unreadable ones, and a row whose ack got lost. */
  ghost function ReachedBroker(w: Weather, rows: seq<P.Row>, k: nat): set<nat> {
    set j | 0 <= j < |rows| && rows[j].payload.Readable? && (j < k || (j == k && OutcomeOf(w, rows[j].id).AckLost?))
  }

  ghost function Skipped(rows: seq<P.Row>, k: nat): set<nat> {
    set j | 0 <= j < k && j < |rows| && rows[j].payload.Junk?
  }

  predicate AckGotLost(w: Weather, rows: seq<P.Row>, k: nat) {
    k < |rows| && rows[k].payload.Readable? && OutcomeOf(w, rows[k].id).AckLost?
  }

  lemma {:induction false} PrefixCount(rows: seq<P.Row>, k: nat)
    requires k <= |rows|
    ensures |set j | 0 <= j < k && rows[j].payload.Readable?| + |Skipped(rows, k)| == k
  {
    var readable := set j | 0 <= j < k && rows[j].payload.Readable?;
    if k == 0 {
      assert readable == {} && Skipped(rows, k) == {};
    } else {
      PrefixCount(rows, k - 1);
      var before := set j | 0 <= j < k - 1 && rows[j].payload.Readable?;
      if rows[k - 1].payload.Readable? {
        assert readable == before + {k - 1} && Skipped(rows, k) == Skipped(rows, k - 1);
      } else {
        assert readable == before && Skipped(rows, k) == Skipped(rows, k - 1) + {k - 1};
      }
    }
  }

  /**
   * Published counts the unreadable rows that were skipped, and not a row whose ack got lost. So it is the number of
   * rows that reached the broker exactly when the two make up for each other, and with no lost ack exactly when no
   * unreadable row was skipped.
   */
  lemma PublishedIsReachedIff(w: Weather, rows: seq<P.Row>, k: nat)
    requires Longest(w, rows, k)
    ensures k == |ReachedBroker(w, rows, k)| <==> |Skipped(rows, k)| == if AckGotLost(w, rows, k) then 1 else 0
    ensures !AckGotLost(w, rows, k) ==>
              (k == |ReachedBroker(w, rows, k)| <==> forall j :: 0 <= j < k ==> rows[j].payload.Readable?)
  {
    PrefixCount(rows, k);
    var readable := set j | 0 <= j < k && rows[j].payload.Readable?;
    if AckGotLost(w, rows, k) {
      assert ReachedBroker(w, rows, k) == readable + {k};
    } else {
      assert ReachedBroker(w, rows, k) == readable;
      forall j: nat | j < k ensures rows[j].payload.Readable? <==> j !in Skipped(rows, k) {
      }
      assert Skipped(rows, k) == {} <==> forall j: nat :: j < k ==> j !in Skipped(rows, k);
    }
  }

  /** A batch of one unreadable row: published is one, and the broker has nothing. */
  lemma SkippedRowIsCounted(w: Weather, id: nat)
    ensures var rows := [P.Row(id, Junk)]; Longest(w, rows, 1) && ReachedBroker(w, rows, 1) == {}
  {
  }

  /** Nothing goes wrong: every statement works and the broker acks every publish. */
  predicate Fair(w: Weather) {
    !w.fetchFails && w.mark.Stamps? && forall id :: id in w.outcomes ==> w.outcomes[id].Ok?
  }

  lemma {:induction false} IdsSize(rows: seq<P.Row>, n: nat)
    requires n <= |rows| && forall j, k :: 0 <= j < k < |rows| ==> rows[j].id < rows[k].id
    ensures |P.Ids(rows, n)| == n
  {
    if n == 0 {
    } else {
      IdsSize(rows, n - 1);
      assert P.Ids(rows, n) == P.Ids(rows, n - 1) + {rows[n - 1].id};
      assert rows[n - 1].id !in P.Ids(rows, n - 1);
    }
  }

  /** In fair weather one batch takes the whole waiting set or BATCH rows of it. */
  lemma FairBatch(w: Weather, before: map<nat, OutboxRow>, after: map<nat, OutboxRow>, rows: seq<P.Row>, k: nat, now: nat)
    requires Fair(w) && P.IsBatch(before, P.BATCH, rows) && Longest(w, rows, k) && Stamped(before, after, P.Ids(rows, k), now)
    ensures k == |rows| && |Waiting(after)| == |Waiting(before)| - k
    ensures k < 100 ==> Waiting(after) == {}
  {
    assert k < |rows| ==> Passes(w, rows[k]);
    IdsSize(rows, k);
    assert P.Ids(rows, k) <= Waiting(before);
    assert Waiting(after) == Waiting(before) - P.Ids(rows, k);
  }

  /** The relay of one node. */
  class Relay {
    const store: Store
    const broker: Broker
    var published: nat
    var failed: nat

    constructor (store: Store, broker: Broker)
      ensures this.store == store && this.broker == broker && published == failed == 0
    {
      this.store, this.broker, published, failed := store, broker, 0, 0;
    }

    /** Writes down why a row did not go out; losing the note changes nothing else. */
    method Note(id: nat, stored: bool)
      modifies store
      ensures store.outbox == if stored then P.Noted(old(store.outbox), id) else old(store.outbox)
    {
      if stored {
        store.MarkOutboxFailed(id);
        EditsAsSteps(old(store.outbox), store.outbox, {}, id, 0);
      }
    }

    /** One row of the batch: skipped, published, or the reason to stop. */
    method PublishRow(w: Weather, now: nat, ghost c: D.Config, ghost s0: P.State, ghost n: nat,
                      ghost r: P.Relay, ghost ls: seq<P.Label>, ghost s: P.State, row: P.Row)
      returns (ok: bool, ghost ls': seq<P.Label>, ghost s': P.State)
      requires broker.window == c.window && P.AtRow(r) && r.batch[r.pos] == row && row.id > 0
      requires Ran(c, s0, ls, s) && Matches(s, store.outbox, broker.stream, n, r, now)
      modifies this`failed, store, broker
      ensures ok == Passes(w, row) && (ok <==> row.payload.Junk? || OutcomeOf(w, row.id).Ok?)
      ensures Ran(c, s0, ls', s')
      ensures Matches(s', store.outbox, broker.stream, n, if ok then r.(pos := r.pos + 1) else r.(broke := true), now)
      ensures store.outbox == old(store.outbox) || store.outbox == P.Noted(old(store.outbox), row.id)
      ensures broker.stream == if row.payload.Readable? && (OutcomeOf(w, row.id).Ok? || OutcomeOf(w, row.id).AckLost?)
                               then Taking(old(broker.stream), c.window, row, now) else old(broker.stream)
      ensures failed == old(failed) + if TriedInVain(w, row) then 1 else 0
      ensures failed > old(failed) <==> row.payload.Readable? && (OutcomeOf(w, row.id).AckLost? || OutcomeOf(w, row.id).Refused?)
      ensures row.payload.Readable? && (OutcomeOf(w, row.id).Ok? || OutcomeOf(w, row.id).AckLost?) ==> row.id in broker.stream.accepted
      ensures row.payload.Junk? || OutcomeOf(w, row.id).NoMembers? || OutcomeOf(w, row.id).Refused? ==> broker.stream == old(broker.stream)
    {
      var outcome := OutcomeOf(w, row.id);
      if row.payload.Junk? {
        // Not readable now means never readable: recorded, marked done, and the batch goes on.
        ls', s' := PassRow(c, s0, ls, s, n, r, row.id !in w.lostNotes);
        Note(row.id, row.id !in w.lostNotes);
        return true, ls', s';
      }
      if outcome.NoMembers? {
        ls', s' := BreakAtRow(c, s0, ls, s, n, r, outcome, row.id !in w.lostNotes);
        Note(row.id, row.id !in w.lostNotes);
        return false, ls', s';
      }
      ok := broker.Publish(row, now, outcome, c);
      if ok {
        ls', s' := PassRow(c, s0, ls, s, n, r, row.id !in w.lostNotes);
      } else {
        ls', s' := BreakAtRow(c, s0, ls, s, n, r, outcome, row.id !in w.lostNotes);
        failed := failed + 1;
        Note(row.id, row.id !in w.lostNotes);
      }
    }

    /** One turn of the loop of Drain, in a batch that began with `outbox0` and `stream0`. */
    method PublishNext(w: Weather, now: nat, ghost c: D.Config, ghost s0: P.State, ghost n: nat, ghost ls: seq<P.Label>,
                       ghost s: P.State, rows: seq<P.Row>, pos: nat, ghost outbox0: map<nat, OutboxRow>, ghost stream0: D.Stream)
      returns (ok: bool, ghost ls': seq<P.Label>, ghost s': P.State)
      requires broker.window == c.window && pos < |rows| && rows[pos].id > 0
      requires Ran(c, s0, ls, s) && Matches(s, store.outbox, broker.stream, n, P.Draining(rows, pos, false, false), now)
      requires Stamped(outbox0, store.outbox, {}, now) && Progress(w, rows, pos, false, stream0, broker.stream, c.window, now)
      modifies this`failed, store, broker
      ensures ok == Passes(w, rows[pos])
      ensures var pos' := if ok then pos + 1 else pos;
              && Ran(c, s0, ls', s') && Matches(s', store.outbox, broker.stream, n, P.Draining(rows, pos', false, !ok), now)
              && Progress(w, rows, pos', !ok, stream0, broker.stream, c.window, now)
      ensures Stamped(outbox0, store.outbox, {}, now) && P.Ids(rows, pos + 1) == P.Ids(rows, pos) + {rows[pos].id}
      ensures failed == old(failed) + if TriedInVain(w, rows[pos]) then 1 else 0
    {
      NotedStamps(outbox0, store.outbox, rows[pos].id, now);
      ghost var stream := broker.stream;
      ok, ls', s' := PublishRow(w, now, c, s0, n, P.Draining(rows, pos, false, false), ls, s, rows[pos]);
      Proceeds(w, rows, pos, stream0, stream, broker.stream, c.window, now);
    }

    /** The loop of Drain: rows in order, up to the first that does not pass. */
    method PublishRows(w: Weather, now: nat, ghost c: D.Config, ghost s0: P.State, ghost n: nat,
                       ghost ls0: seq<P.Label>, ghost s1: P.State, rows: seq<P.Row>)
      returns (pos: nat, done: set<nat>, ghost ls: seq<P.Label>, ghost s: P.State)
      requires broker.window == c.window && forall k :: 0 <= k < |rows| ==> rows[k].id > 0
      requires Ran(c, s0, ls0, s1) && Matches(s1, store.outbox, broker.stream, n, P.Draining(rows, 0, false, false), now)
      modifies this`failed, store, broker
      ensures Longest(w, rows, pos) && done == P.Ids(rows, pos)
      ensures Ran(c, s0, ls, s)
      ensures Matches(s, store.outbox, broker.stream, n, P.Draining(rows, pos, false, pos < |rows|), now)
      ensures Stamped(old(store.outbox), store.outbox, {}, now)
      ensures broker.stream == Streamed(old(broker.stream), c.window, w, rows, pos, now)
      ensures failed == old(failed) + if pos < |rows| && TriedInVain(w, rows[pos]) then 1 else 0
    {
      ls, s := ls0, s1;
      var broke;
      pos, broke, done := 0, false, {};
      while pos < |rows| && !broke
        invariant pos <= |rows| && done == P.Ids(rows, pos) && (broke ==> pos < |rows|)
        invariant Progress(w, rows, pos, broke, old(broker.stream), broker.stream, c.window, now)
        invariant Ran(c, s0, ls, s) && Matches(s, store.outbox, broker.stream, n, P.Draining(rows, pos, false, broke), now)
        invariant Stamped(old(store.outbox), store.outbox, {}, now)
        invariant failed == old(failed) + if broke && TriedInVain(w, rows[pos]) then 1 else 0
        decreases |rows| - pos, !broke
      {
        var ok;
        ok, ls, s := PublishNext(w, now, c, s0, n, ls, s, rows, pos, old(store.outbox), old(broker.stream));
        if ok {
          done, pos := done + {rows[pos].id}, pos + 1;
        } else {
          broke := true;
        }
      }
    }

    /**
     * One batch. The longest run of rows that pass is published in order and stamped together; the first row that
     * does not pass ends the batch. The whole call is a run of relay `n` in the pipeline.
     */
    method Drain(w: Weather, now: nat, ghost c: D.Config, ghost s0: P.State, ghost n: nat)
      returns (batch: Batch, err: bool, ghost rows: seq<P.Row>, ghost ls: seq<P.Label>, ghost s: P.State)
      requires broker.window == c.window && Matches(s0, store.outbox, broker.stream, n, P.Leader, now) && 0 !in store.outbox
      modifies this, store, broker
      ensures Ran(c, s0, ls, s) && Matches(s, store.outbox, broker.stream, n, P.Leader, now)
      ensures w.fetchFails ==> err && batch == Batch(0, 0) && store.outbox == old(store.outbox)
                               && broker.stream == old(broker.stream) && failed == old(failed)
      ensures !w.fetchFails ==>
                && P.IsBatch(old(store.outbox), P.BATCH, rows) && batch.fetched == |rows|
                && Longest(w, rows, batch.published) && err == (!w.mark.Stamps? && batch.published > 0)
                && Stamped(old(store.outbox), store.outbox, if w.mark.Fails? then {} else P.Ids(rows, batch.published), now)
                && failed == old(failed) + (if batch.published < |rows| && TriedInVain(w, rows[batch.published]) then 1 else 0)
                && broker.stream == Streamed(old(broker.stream), c.window, w, rows, batch.published, now)
      ensures published == old(published) + if err then 0 else batch.published
    {
      ls, s, rows := [], s0, [];
      if w.fetchFails {
        return Batch(0, 0), true, rows, ls, s;
      }
      var fetched := store.FetchOutbox(P.BATCH);
      rows := fetched;
      ls, s := FetchRows(c, s0, n, rows);
      var pos, done;
      pos, done, ls, s := PublishRows(w, now, c, s0, n, ls, s, fetched);
      batch := Batch(|fetched|, pos);
      // MarkOutboxPublished does not reach the database for an empty list, so it cannot fail then.
      err := !w.mark.Stamps? && pos > 0;
      ls, s := EndBatch(c, s0, ls, s, n, P.Draining(rows, pos, false, pos < |rows|), w.mark.Fails?);
      if !w.mark.Fails? {
        ghost var before := store.outbox;
        MarkStamps(old(store.outbox), before, done, now);
        store.MarkOutboxPublished(done, now);
        EditsAsSteps(before, store.outbox, done, 0, now);
      }
      if !err {
        published := published + pos;
      }
    }

    /**
     * The leader's loop in fair weather, going straight round again after a full batch: it stops after exactly
     * waiting / 100 + 1 batches, with nothing left waiting.
     */
    method DrainAll(w: Weather, now: nat, ghost c: D.Config, ghost s0: P.State, ghost n: nat)
      returns (batches: nat, ghost ls: seq<P.Label>, ghost s: P.State)
      requires Fair(w) && broker.window == c.window && Matches(s0, store.outbox, broker.stream, n, P.Leader, now) && 0 !in store.outbox
      modifies this, store, broker
      ensures Ran(c, s0, ls, s) && Matches(s, store.outbox, broker.stream, n, P.Leader, now)
      ensures Waiting(store.outbox) == {} && batches == |old(Waiting(store.outbox))| / 100 + 1
      ensures store.outbox.Keys == old(store.outbox).Keys
      ensures published == old(published) + |old(Waiting(store.outbox))|
    {
      ls, s, batches := [], s0, 0;
      while true
        invariant Ran(c, s0, ls, s) && Matches(s, store.outbox, broker.stream, n, P.Leader, now)
        invariant store.outbox.Keys == old(store.outbox).Keys && published == old(published) + P.BATCH * batches
        invariant |Waiting(store.outbox)| + P.BATCH * batches == |old(Waiting(store.outbox))|
        decreases |Waiting(store.outbox)|
      {
        label Round:
        var batch, err;
        ghost var rows, more, s1 := [], [], s;
        batch, err, rows, more, s1 := Drain(w, now, c, s, n);
        P.RunOn(c, s0, ls, more);
        ls, s, batches := ls + more, s1, batches + 1;
        FairBatch(w, old@Round(store.outbox), store.outbox, rows, batch.published, now);
        if batch.published < P.BATCH {
          return;
        }
      }
    }

    /** One batch, and how long the leader waits after it. */
    method SendAndWait(w: Weather, now: nat, ghost c: D.Config, ghost junk: set<nat>, ghost gone: set<nat>)
      returns (wait: nat, ghost gone': set<nat>)
      requires broker.window == c.window && 0 !in store.outbox && Known(store.outbox, junk, gone)
      modifies this, store, broker
      ensures wait == 0 || wait == 100 || wait == 5_000
      ensures wait == 5_000 <==> w.fetchFails || Troubled(w, old(store.outbox))
      ensures wait == 0 ==> |old(Waiting(store.outbox))| == |Waiting(store.outbox)| + 100
      ensures wait == 100 ==> old(Waiting(store.outbox)) == {}
                              || |Waiting(store.outbox)| < |old(Waiting(store.outbox))| < |Waiting(store.outbox)| + 100
      ensures store.outbox.Keys == old(store.outbox).Keys
      ensures old(failed) <= failed <= old(failed) + 1
      ensures NothingConfirmed(w) ==>
                && Known(store.outbox, junk, gone') && gone <= gone' <= gone + old(store.outbox).Keys
                && (wait == 0 || (wait < LEADER_RETRY && failed > old(failed)) ==> gone < gone')
    {
      ghost var before := store.outbox;
      var batch, err;
      ghost var rows, ls, s;
      batch, err, rows, ls, s := Drain(w, now, c, AsLeader(store.outbox, broker.stream, now), 0);
      gone' := gone;
      if !w.fetchFails {
        FirstIsOldest(before, rows);
        BatchIsTroubled(w, before, rows, batch.published);
        if !w.mark.Fails? {
          BatchTakes(before, store.outbox, rows, batch.published, now);
        }
        if NothingConfirmed(w) {
          gone' := BatchKeeps(w, before, store.outbox, rows, batch.published, now, junk, gone);
        }
      }
      wait := Pause(batch, err);
    }

    /**
     * One round of the leader's loop, in any weather: clean out if it is time, find what others added, send a batch, wait.
     * It goes straight round again after exactly 100 rows, and it waits five seconds when something is wrong: a statement
     * failed, or the oldest row does not pass. While the broker confirms nothing, a round that tries a publish and does
     * not wait five seconds has got an unreadable row off the queue.
     */
    method LeaderRound(w: Weather, clean: Option<nat>, added: map<nat, OutboxRow>, now: nat,
                       ghost c: D.Config, ghost junk: set<nat>, ghost gone: set<nat>)
      returns (wait: nat, ghost gone': set<nat>)
      requires broker.window == c.window && 0 !in store.outbox && 0 !in added
      requires Known(store.outbox, junk, gone) && Unreadable(added) <= junk && added.Keys !! store.outbox.Keys && added.Keys !! gone
      modifies this, store, broker
      ensures wait == 0 || wait == 100 || wait == 5_000
      ensures wait == 5_000 <==> w.fetchFails || Troubled(w, old(store.outbox) + added)
      ensures wait == 0 ==> |Waiting(old(store.outbox) + added)| == |Waiting(store.outbox)| + 100
      ensures wait == 100 ==> Waiting(old(store.outbox) + added) == {}
                              || |Waiting(store.outbox)| < |Waiting(old(store.outbox) + added)| < |Waiting(store.outbox)| + 100
      ensures store.outbox.Keys <= old(store.outbox).Keys + added.Keys
      ensures old(failed) <= failed <= old(failed) + 1
      ensures NothingConfirmed(w) ==>
                && Known(store.outbox, junk, gone') && gone <= gone' <= gone + old(store.outbox).Keys + added.Keys
                && (wait == 0 || (wait < LEADER_RETRY && failed > old(failed)) ==> gone < gone')
    {
      if clean.Some? {
        CleanKeeps(store.outbox, junk, gone, clean.value);
        CleanedThenAdded(store.outbox, added, clean.value);
        var _ := store.DeleteOutboxPublishedBefore(clean.value);
      }
      RowsCome(store.outbox, added, junk, gone);
      store.outbox := store.outbox + added;
      SameTrouble(w, store.outbox, old(store.outbox) + added);
      wait, gone' := SendAndWait(w, now, c, junk, gone);
    }

    /**
     * The leader's loop from `start` to `end` while the broker confirms nothing. Round k may clean out old rows, finds
     * `arrivals(k)` added, and takes `took(k)`. With `junk` the unreadable rows that wait or come in, it sends at most
     * one publish every five seconds, and one more for each of those: skipping one counts as progress.
     */
    method RunLeader(weather: nat -> Weather, cleans: nat -> Option<nat>, arrivals: nat -> map<nat, OutboxRow>, took: nat -> nat,
                     start: nat, end: nat, ghost c: D.Config, ghost junk: set<nat>)
      requires broker.window == c.window && start <= end && forall k :: NothingConfirmed(weather(k))
      requires 0 !in store.outbox && Unreadable(store.outbox) <= junk
      requires NewRows(store.outbox.Keys, arrivals, 0) && forall k :: Unreadable(arrivals(k)) <= junk
      modifies this, store, broker
      ensures failed - old(failed) <= (end - start) / LEADER_RETRY + 1 + |junk|
    {
      var now, k := start, 0;
      ghost var used, gone: set<nat> := store.outbox.Keys, {};
      while now <= end
        invariant start <= now && 0 !in store.outbox && store.outbox.Keys <= used && gone <= used
        invariant NewRows(used, arrivals, k) && Known(store.outbox, junk, gone)
        invariant LEADER_RETRY * (failed - old(failed) - |gone|) <= now - start
        invariant failed - old(failed) <= (end - start) / LEADER_RETRY + 1 + |gone|
        decreases junk - gone, end + 1 - now
      {
        assert NothingConfirmed(weather(k)) && Unreadable(arrivals(k)) <= junk;
        var wait;
        ghost var early := gone;
        wait, gone := LeaderRound(weather(k), cleans(k), arrivals(k), now, c, junk, gone);
        GoneGrows(early, gone, junk);
        used, now, k := used + arrivals(k).Keys, now + took(k) + wait, k + 1;
      }
      Sets.SubsetSize(gone, junk);
    }
  }

  const LEADER_RETRY := 5_000
  const POLL_INTERVAL := 100

  /** How long the leader waits after a batch. */
  function Pause(batch: Batch, err: bool): nat {
    if err then LEADER_RETRY
    else if batch.fetched > 0 && batch.published == 0 then LEADER_RETRY
    else if batch.published == P.BATCH then 0
    else POLL_INTERVAL
  }

  /** The oldest waiting row does not pass, or one does and the stamping reports an error. */
  ghost predicate Troubled(w: Weather, outbox: map<nat, OutboxRow>) {
    exists id :: IsOldest(outbox, id) && (!w.mark.Stamps? || (outbox[id].payload.Readable? && !OutcomeOf(w, id).Ok?))
  }

  ghost predicate IsOldest(outbox: map<nat, OutboxRow>, id: nat) {
    Pending(outbox, id) && forall o :: Pending(outbox, o) ==> id <= o
  }

  /** Of two outboxes with the same waiting rows, both are troubled or none. */
  lemma SameTrouble(w: Weather, a: map<nat, OutboxRow>, b: map<nat, OutboxRow>)
    requires SameWaiting(a, b)
    ensures Troubled(w, a) <==> Troubled(w, b)
    ensures Waiting(a) == Waiting(b)
  {
    if Troubled(w, a) {
      var id :| IsOldest(a, id) && (!w.mark.Stamps? || (a[id].payload.Readable? && !OutcomeOf(w, id).Ok?));
      assert IsOldest(b, id);
    }
    if Troubled(w, b) {
      var id :| IsOldest(b, id) && (!w.mark.Stamps? || (b[id].payload.Readable? && !OutcomeOf(w, id).Ok?));
      assert IsOldest(a, id);
    }
  }

  ghost predicate SameWaiting(a: map<nat, OutboxRow>, b: map<nat, OutboxRow>) {
    && (forall id :: Pending(a, id) <==> Pending(b, id))
    && (forall id :: Pending(a, id) ==> a[id].payload == b[id].payload)
  }

  lemma CleanedThenAdded(outbox: map<nat, OutboxRow>, added: map<nat, OutboxRow>, t: nat)
    ensures SameWaiting(P.Cleaned(outbox, t) + added, outbox + added)
  {
  }

  /** The batch begins with the oldest waiting row, and is empty only if none waits. */
  ghost predicate BeginsWithOldest(outbox: map<nat, OutboxRow>, rows: seq<P.Row>) {
    if rows == [] then forall id :: !Pending(outbox, id)
    else IsOldest(outbox, rows[0].id) && outbox[rows[0].id].payload == rows[0].payload
  }

  lemma FirstIsOldest(before: map<nat, OutboxRow>, rows: seq<P.Row>)
    requires P.IsBatch(before, P.BATCH, rows)
    ensures BeginsWithOldest(before, rows)
  {
    if rows == [] {
    } else {
      forall id | Pending(before, id) ensures rows[0].id <= id {
      }
    }
  }

  lemma OneOldest(outbox: map<nat, OutboxRow>, i: nat, j: nat)
    requires IsOldest(outbox, i) && IsOldest(outbox, j)
    ensures i == j
  {
  }

  /** What was wrong with a batch that got as far as k. */
  lemma BatchIsTroubled(w: Weather, before: map<nat, OutboxRow>, rows: seq<P.Row>, k: nat)
    requires BeginsWithOldest(before, rows) && Longest(w, rows, k)
    ensures rows == [] <==> Waiting(before) == {}
    ensures Troubled(w, before) <==> rows != [] && (k == 0 || !w.mark.Stamps?)
  {
    if rows != [] {
      var id := rows[0].id;
      assert k == 0 <==> !Passes(w, rows[0]);
      assert id in Waiting(before);
      if Troubled(w, before) {
        var o :| IsOldest(before, o) && (!w.mark.Stamps? || (before[o].payload.Readable? && !OutcomeOf(w, o).Ok?));
        OneOldest(before, id, o);
      }
    }
  }

  /** How many rows a stamped batch takes off the queue. */
  lemma BatchTakes(before: map<nat, OutboxRow>, after: map<nat, OutboxRow>, rows: seq<P.Row>, k: nat, now: nat)
    requires P.IsBatch(before, P.BATCH, rows) && k <= |rows| && Stamped(before, after, P.Ids(rows, k), now)
    ensures |Waiting(before)| == |Waiting(after)| + k
  {
    IdsSize(rows, k);
    assert P.Ids(rows, k) <= Waiting(before);
    assert Waiting(after) == Waiting(before) - P.Ids(rows, k);
  }

  ghost predicate NothingConfirmed(w: Weather) {
    forall id :: !OutcomeOf(w, id).Ok?
  }

  /** The waiting rows that cannot be decoded. */
  ghost function Unreadable(outbox: map<nat, OutboxRow>): set<nat> {
    set id | id in outbox && Pending(outbox, id) && outbox[id].payload.Junk?
  }

  /** The rows of round k and later have ids of their own. */
  ghost predicate NewRows(used: set<nat>, arrivals: nat -> map<nat, OutboxRow>, k: nat) {
    && (forall j :: j >= k ==> 0 !in arrivals(j) && arrivals(j).Keys !! used)
    && (forall i, j :: k <= i < j ==> arrivals(i).Keys !! arrivals(j).Keys)
  }

  /** The waiting unreadable rows are among `junk`, and the ones in `gone` do not wait any more. */
  ghost predicate Known(outbox: map<nat, OutboxRow>, junk: set<nat>, gone: set<nat>) {
    Unreadable(outbox) <= junk && gone <= junk && gone !! Unreadable(outbox)
  }

  lemma CleanKeeps(outbox: map<nat, OutboxRow>, junk: set<nat>, gone: set<nat>, t: nat)
    requires Known(outbox, junk, gone)
    ensures Known(P.Cleaned(outbox, t), junk, gone)
  {
    assert Unreadable(P.Cleaned(outbox, t)) == Unreadable(outbox);
  }

  lemma RowsCome(outbox: map<nat, OutboxRow>, added: map<nat, OutboxRow>, junk: set<nat>, gone: set<nat>)
    requires Known(outbox, junk, gone) && Unreadable(added) <= junk && added.Keys !! outbox.Keys && added.Keys !! gone
    ensures Known(outbox + added, junk, gone)
  {
    assert Unreadable(outbox + added) == Unreadable(outbox) + Unreadable(added);
  }

  /** While nothing is confirmed only unreadable rows pass, and each of them stops waiting once the batch is stamped. */
  lemma BatchKeeps(w: Weather, before: map<nat, OutboxRow>, after: map<nat, OutboxRow>, rows: seq<P.Row>, k: nat, now: nat,
                   junk: set<nat>, gone: set<nat>) returns (gone': set<nat>)
    requires NothingConfirmed(w) && P.IsBatch(before, P.BATCH, rows) && Longest(w, rows, k) && Known(before, junk, gone)
    requires Stamped(before, after, if w.mark.Fails? then {} else P.Ids(rows, k), now)
    ensures Known(after, junk, gone') && gone <= gone' <= gone + before.Keys
    ensures k > 0 && !w.mark.Fails? ==> gone < gone'
  {
    var ids := if w.mark.Fails? then {} else P.Ids(rows, k);
    forall id | id in ids ensures id in Unreadable(before) {
      var j :| 0 <= j < k && rows[j].id == id;
      assert Passes(w, rows[j]) && Pending(before, rows[j].id);
    }
    gone' := gone + ids;
    assert Unreadable(after) == Unreadable(before) - ids;
    if k > 0 && !w.mark.Fails? {
      assert rows[0].id in ids;
    }
  }

  lemma GoneGrows(early: set<nat>, gone: set<nat>, junk: set<nat>)
    requires early <= gone <= junk
    ensures |early| <= |gone| && (early != gone ==> |early| < |gone|) && junk - gone <= junk - early
    ensures early != gone ==> junk - gone < junk - early
  {
    Sets.SubsetSize(early, gone);
    if early != gone {
      assert early + (gone - early) == gone;
      var x :| x in gone - early;
      assert x in junk - early && x !in junk - gone;
    }
  }

  ghost function AsLeader(outbox: map<nat, OutboxRow>, stream: D.Stream, now: nat): P.State {
    P.EMPTY.(db := P.SetOutbox(P.EMPTY.db, outbox), relays := map[0 := P.Leader], d := P.EMPTY.d.(stream := stream, now := now))
  }
}
