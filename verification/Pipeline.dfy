// The whole message pipeline: senders' transactions, any number of relays draining the outbox (a crashed one, a
// restarted one, one that lost its lock without noticing), a network that delays and repeats publishes, the stream,
// the durable consumer and the janitor, in any interleaving.

module Pipeline {
  import opened Schema
  import W = Writers
  import D = Delivery
  import U = Unread

  const BATCH := 100

  /** A row as the relay read it. */
  datatype Row = Row(id: nat, payload: Payload)

  /**
   * A relay between two steps of its loop. Rows batch[..pos] are done; `waiting` means batch[pos] was sent and the
   * broker has not answered; `broke` means the batch stopped at batch[pos].
   */
  datatype Relay =
    | Follower
    | Leader
    | Draining(batch: seq<Row>, pos: nat, waiting: bool, broke: bool)

  /** `net` holds every publish ever sent: the broker may take it at any later time, and more than once. */
  datatype State = State(
    db: W.Db, relays: map<nat, Relay>, lock: Option<nat>, net: set<Row>, d: D.State)

  datatype Label =
    | Writer(w: W.Label)
    | TryLock(n: nat)
    | Fetch(n: nat, batch: seq<Row>)
    | SkipJunk(n: nat, noted: bool)
    | Send(n: nat)
    | Acked(n: nat)
    | Failed(n: nat, noted: bool)
    | Mark(n: nat)
    | MarkFailed(n: nat)
    | Stop(n: nat)
    | LoseLock
    | CleanOutbox(before: nat)
    | Take(p: Row)
    | Broker(l: D.Label)

  function RelayOf(s: State, n: nat): Relay {
    if n in s.relays then s.relays[n] else Follower
  }

  /** A fetch may return this: waiting rows by rising id, none left out below the last, and all of them if there is room. */
  ghost predicate IsBatch(outbox: map<nat, OutboxRow>, limit: nat, batch: seq<Row>) {
    && |batch| <= limit
    && (forall k :: 0 <= k < |batch| ==> Pending(outbox, batch[k].id) && outbox[batch[k].id].payload == batch[k].payload)
    && (forall j, k :: 0 <= j < k < |batch| ==> batch[j].id < batch[k].id)
    && (forall id :: Pending(outbox, id) ==>
          (exists k :: 0 <= k < |batch| && batch[k].id == id)
          || (|batch| == limit && forall k :: 0 <= k < |batch| ==> batch[k].id < id))
  }

  function Ids(batch: seq<Row>, n: nat): set<nat>
    requires n <= |batch|
  {
    set k | 0 <= k < n :: batch[k].id
  }

  function Marked(outbox: map<nat, OutboxRow>, ids: set<nat>, now: nat): map<nat, OutboxRow> {
    map id | id in outbox :: if id in ids then outbox[id].(publishedAt := Some(now)) else outbox[id]
  }

  function Noted(outbox: map<nat, OutboxRow>, id: nat): map<nat, OutboxRow> {
    if id in outbox then outbox[id := outbox[id].(attempts := outbox[id].attempts + 1)] else outbox
  }

  function Cleaned(outbox: map<nat, OutboxRow>, before: nat): map<nat, OutboxRow> {
    map id | id in outbox && !(outbox[id].publishedAt.Some? && outbox[id].publishedAt.value < before) :: outbox[id]
  }

  /** The relay is at a row it has neither sent nor given up on. */
  predicate AtRow(r: Relay) {
    r.Draining? && r.pos < |r.batch| && !r.waiting && !r.broke
  }

  ghost predicate Enabled(c: D.Config, s: State, l: Label) {
    match l
    case Writer(w) => W.Enabled(s.db, w)
    case TryLock(n) => RelayOf(s, n).Follower? && s.lock.None?
    case Fetch(n, batch) => RelayOf(s, n).Leader? && IsBatch(s.db.t.outbox, BATCH, batch)
    case SkipJunk(n, _) => AtRow(RelayOf(s, n)) && RelayOf(s, n).batch[RelayOf(s, n).pos].payload.Junk?
    case Send(n) => AtRow(RelayOf(s, n)) && RelayOf(s, n).batch[RelayOf(s, n).pos].payload.Readable?
    case Acked(n) =>
      var r := RelayOf(s, n);
      r.Draining? && r.pos < |r.batch| && r.waiting && r.batch[r.pos].id in s.d.stream.accepted
    case Failed(n, _) =>
      var r := RelayOf(s, n);
      r.Draining? && r.pos < |r.batch| && (r.waiting || AtRow(r)) && r.batch[r.pos].payload.Readable?
    case Mark(n) => var r := RelayOf(s, n); r.Draining? && (r.broke || r.pos == |r.batch|) && r.pos <= |r.batch|
    case MarkFailed(n) => var r := RelayOf(s, n); r.Draining? && (r.broke || r.pos == |r.batch|)
    case Stop(n) => true
    case LoseLock => true
    case CleanOutbox(before) => before <= s.d.now
    case Take(p) => p in s.net && p.id > 0
    case Broker(b) => !b.Accept? && D.Enabled(c, s.d, b)
  }

  function SetOutbox(db: W.Db, outbox: map<nat, OutboxRow>): W.Db {
    db.(t := db.t.(outbox := outbox))
  }

  function Annotate(db: W.Db, id: nat): W.Db {
    SetOutbox(db, Noted(db.t.outbox, id))
  }

  ghost function Do(c: D.Config, s: State, l: Label): State
    requires Enabled(c, s, l)
  {
    match l
    case Writer(w) => s.(db := W.Do(s.db, w))
    case TryLock(n) => s.(relays := s.relays[n := Leader], lock := Some(n))
    case Fetch(n, batch) => s.(relays := s.relays[n := Draining(batch, 0, false, false)])
    case SkipJunk(n, noted) =>
      var r := RelayOf(s, n);
      s.(relays := s.relays[n := r.(pos := r.pos + 1)], db := if noted then Annotate(s.db, r.batch[r.pos].id) else s.db)
    case Send(n) =>
      var r := RelayOf(s, n);
      s.(relays := s.relays[n := r.(waiting := true)], net := s.net + {r.batch[r.pos]})
    case Acked(n) => var r := RelayOf(s, n); s.(relays := s.relays[n := r.(pos := r.pos + 1, waiting := false)])
    case Failed(n, noted) =>
      var r := RelayOf(s, n);
      s.(relays := s.relays[n := r.(waiting := false, broke := true)],
         db := if noted then Annotate(s.db, r.batch[r.pos].id) else s.db)
    case Mark(n) =>
      var r := RelayOf(s, n);
      s.(relays := s.relays[n := Leader], db := SetOutbox(s.db, Marked(s.db.t.outbox, Ids(r.batch, r.pos), s.d.now)))
    case MarkFailed(n) => s.(relays := s.relays[n := Leader])
    case Stop(n) => s.(relays := s.relays[n := Follower], lock := if s.lock == Some(n) then None else s.lock)
    case LoseLock => s.(lock := None)
    case CleanOutbox(before) => s.(db := SetOutbox(s.db, Cleaned(s.db.t.outbox, before)))
    case Take(p) => s.(d := D.Do(c, s.d, D.Accept(p.id, p.payload)))
    case Broker(b) => s.(d := D.Do(c, s.d, b))
  }

  const EMPTY := State(W.EMPTY, map[], None, {}, D.EMPTY)

  // ----- Invariants -----

  /** The broker has accepted this outbox row. */
  predicate Accepted(d: D.State, oid: nat) {
    oid in d.stream.accepted
  }

  /** No loss: a message's row is still waiting in the outbox, or the broker has it. */
  ghost predicate NothingLost(db: W.Db, d: D.State) {
    forall oid :: oid in db.journal && db.journal[oid].Readable? ==> Pending(db.t.outbox, oid) || Accepted(d, oid)
  }

  /** What the stream holds under a row's id is that row. */
  ghost predicate StreamTrue(journal: map<nat, Payload>, log: seq<D.Entry>) {
    forall i :: 0 <= i < |log| ==>
      if log[i].payload.Readable? then log[i].outboxId > 0 && log[i].outboxId in journal && journal[log[i].outboxId] == log[i].payload
      else log[i].outboxId == 0
  }

  /** An earlier row of the same room. */
  ghost predicate Before(journal: map<nat, Payload>, o: nat, e: Event) {
    o in journal && journal[o].Readable? && journal[o].event.room == e.room && journal[o].event.seqNo < e.seqNo
  }

  ghost predicate EarlierAccepted(journal: map<nat, Payload>, d: D.State, e: Event) {
    forall o :: Before(journal, o, e) ==> Accepted(d, o)
  }

  /** First acceptances in seq order, as it stands in the log. */
  ghost predicate LogInOrder(journal: map<nat, Payload>, log: seq<D.Entry>) {
    forall i, o :: 0 <= i < |log| && log[i].payload.Readable? && Before(journal, o, log[i].payload.event) ==> SeenBefore(log, i, o)
  }

  ghost predicate SeenBefore(log: seq<D.Entry>, i: nat, o: nat) {
    exists j :: 0 <= j < i && j < |log| && log[j].outboxId == o
  }

  ghost predicate NetOk(db: W.Db, d: D.State, net: set<Row>) {
    forall p :: p in net ==>
      p.id in db.journal && db.journal[p.id] == p.payload && p.payload.Readable?
      && EarlierAccepted(db.journal, d, p.payload.event)
  }

  ghost predicate InBatchBefore(batch: seq<Row>, k: nat, o: nat) {
    exists j :: 0 <= j < k && j < |batch| && batch[j].id == o
  }

  /** A batch holds every earlier row of a room that the broker lacks, in order, and its done rows are accepted. */
  ghost predicate BatchOk(db: W.Db, d: D.State, batch: seq<Row>, pos: nat) {
    && pos <= |batch|
    && (forall k :: 0 <= k < |batch| ==> batch[k].id in db.journal && db.journal[batch[k].id] == batch[k].payload)
    && (forall k :: 0 <= k < pos && batch[k].payload.Readable? ==> Accepted(d, batch[k].id))
    && (forall k, o :: 0 <= k < |batch| && batch[k].payload.Readable? && Before(db.journal, o, batch[k].payload.event) ==>
          Accepted(d, o) || InBatchBefore(batch, k, o))
  }

  ghost predicate RelaysOk(db: W.Db, d: D.State, relays: map<nat, Relay>) {
    forall n :: n in relays && relays[n].Draining? ==> BatchOk(db, d, relays[n].batch, relays[n].pos)
  }

  ghost predicate FlowOk(s: State) {
    && NothingLost(s.db, s.d)
    && StreamTrue(s.db.journal, s.d.stream.log)
    && LogInOrder(s.db.journal, s.d.stream.log)
    && NetOk(s.db, s.d, s.net)
    && RelaysOk(s.db, s.d, s.relays)
  }

  ghost predicate Inv(c: D.Config, s: State) {
    W.Inv(s.db) && D.Inv(c, s.d) && FlowOk(s)
  }

  // ----- A writer's step -----

  /** New rows of a room come after every event already told. */
  lemma NewRowsAreLater(db: W.Db, w: W.Label, o: nat, e: Event)
    requires W.Inv(db) && W.Enabled(db, w) && W.TellsTruth(db.t.messages, e) && Before(W.Do(db, w).journal, o, e)
    ensures Before(db.journal, o, e)
  {
  }

  lemma WriterJournal(db: W.Db, w: W.Label)
    requires W.Inv(db) && W.Enabled(db, w)
    ensures var db' := W.Do(db, w);
            && (forall o :: o in db.journal ==> o in db'.journal && db'.journal[o] == db.journal[o])
            && (forall o :: Pending(db.t.outbox, o) ==> Pending(db'.t.outbox, o))
            && (forall o :: o in db'.journal && o !in db.journal ==> Pending(db'.t.outbox, o))
  {
    if w.Commit? {
      assert W.TxOk(db.t, db.journal, db.txs[w.tx]);
    }
  }

  lemma WriterKeepsLog(db: W.Db, w: W.Label, d: D.State)
    requires W.Inv(db) && W.Enabled(db, w)
    requires StreamTrue(db.journal, d.stream.log) && LogInOrder(db.journal, d.stream.log)
    ensures StreamTrue(W.Do(db, w).journal, d.stream.log) && LogInOrder(W.Do(db, w).journal, d.stream.log)
  {
    WriterJournal(db, w);
    var log := d.stream.log;
    forall i, o | 0 <= i < |log| && log[i].payload.Readable? && Before(W.Do(db, w).journal, o, log[i].payload.event)
      ensures SeenBefore(log, i, o)
    {
      NewRowsAreLater(db, w, o, log[i].payload.event);
    }
  }

  lemma WriterKeepsNet(db: W.Db, w: W.Label, d: D.State, net: set<Row>)
    requires W.Inv(db) && W.Enabled(db, w) && NetOk(db, d, net)
    ensures NetOk(W.Do(db, w), d, net)
  {
    WriterJournal(db, w);
    forall p | p in net ensures EarlierAccepted(W.Do(db, w).journal, d, p.payload.event) {
      forall o | Before(W.Do(db, w).journal, o, p.payload.event) ensures Accepted(d, o) {
        NewRowsAreLater(db, w, o, p.payload.event);
      }
    }
  }

  lemma WriterKeepsBatch(db: W.Db, w: W.Label, d: D.State, batch: seq<Row>, pos: nat)
    requires W.Inv(db) && W.Enabled(db, w) && BatchOk(db, d, batch, pos)
    ensures BatchOk(W.Do(db, w), d, batch, pos)
  {
    WriterJournal(db, w);
    forall k, o | 0 <= k < |batch| && batch[k].payload.Readable? && Before(W.Do(db, w).journal, o, batch[k].payload.event)
      ensures Accepted(d, o) || InBatchBefore(batch, k, o)
    {
      NewRowsAreLater(db, w, o, batch[k].payload.event);
    }
  }

  lemma WriterKeepsFlow(s: State, w: W.Label)
    requires W.Inv(s.db) && W.Enabled(s.db, w) && FlowOk(s)
    ensures FlowOk(s.(db := W.Do(s.db, w)))
  {
    WriterJournal(s.db, w);
    WriterKeepsLog(s.db, w, s.d);
    WriterKeepsNet(s.db, w, s.d, s.net);
    forall n | n in s.relays && s.relays[n].Draining?
      ensures BatchOk(W.Do(s.db, w), s.d, s.relays[n].batch, s.relays[n].pos)
    {
      WriterKeepsBatch(s.db, w, s.d, s.relays[n].batch, s.relays[n].pos);
    }
  }

  // ----- A broker's step -----

  lemma AcceptanceKeepsRelays(db: W.Db, d: D.State, d': D.State, relays: map<nat, Relay>)
    requires RelaysOk(db, d, relays) && d.stream.accepted.Keys <= d'.stream.accepted.Keys
    ensures RelaysOk(db, d', relays)
  {
    forall n | n in relays && relays[n].Draining? ensures BatchOk(db, d', relays[n].batch, relays[n].pos) {
      assert BatchOk(db, d, relays[n].batch, relays[n].pos);
    }
  }

  lemma AppendKeepsLog(journal: map<nat, Payload>, log: seq<D.Entry>, e: D.Entry)
    requires StreamTrue(journal, log) && LogInOrder(journal, log)
    requires e.payload.Junk? ==> e.outboxId == 0
    requires e.payload.Readable? ==>
               e.outboxId > 0 && e.outboxId in journal && journal[e.outboxId] == e.payload
               && (forall o :: Before(journal, o, e.payload.event) ==> SeenBefore(log, |log|, o))
    ensures StreamTrue(journal, log + [e]) && LogInOrder(journal, log + [e])
  {
    var log' := log + [e];
    forall i, o | 0 <= i < |log'| && log'[i].payload.Readable? && Before(journal, o, log'[i].payload.event)
      ensures SeenBefore(log', i, o)
    {
      assert SeenBefore(log, i, o);
      var j :| 0 <= j < i && j < |log| && log[j].outboxId == o;
      assert log'[j].outboxId == o;
    }
  }

  lemma BrokerKeepsFlow(c: D.Config, s: State, b: D.Label)
    requires W.Inv(s.db) && D.Inv(c, s.d) && FlowOk(s) && D.Enabled(c, s.d, b)
    requires b.Accept? ==> Row(b.outboxId, b.payload) in s.net
    ensures FlowOk(s.(d := D.Do(c, s.d, b)))
  {
    var d, d' := s.d, D.Do(c, s.d, b);
    AcceptanceKeepsRelays(s.db, d, d', s.relays);
    if d'.stream.log != d.stream.log {
      var e := if b.Accept? then D.Entry(b.outboxId, b.payload, d.now) else D.Entry(0, Junk, d.now);
      if b.Accept? {
        forall o | Before(s.db.journal, o, e.payload.event) ensures SeenBefore(d.stream.log, |d.stream.log|, o) {
          assert Accepted(d, o);
          var i :| 0 <= i < |d.stream.log| && d.stream.log[i].outboxId == o;
        }
      }
      AppendKeepsLog(s.db.journal, d.stream.log, e);
    }
  }

  // ----- A relay's step -----

  lemma FetchedIsOk(db: W.Db, d: D.State, limit: nat, batch: seq<Row>)
    requires W.Inv(db) && NothingLost(db, d) && IsBatch(db.t.outbox, limit, batch)
    ensures BatchOk(db, d, batch, 0)
  {
    forall k, o: nat | 0 <= k < |batch| && batch[k].payload.Readable? && Before(db.journal, o, batch[k].payload.event)
      ensures Accepted(d, o) || InBatchBefore(batch, k, o)
    {
      if !Accepted(d, o) {
        assert Pending(db.t.outbox, o);
        assert o < batch[k].id;
        var j :| 0 <= j < |batch| && batch[j].id == o;
        assert j < k;
      }
    }
  }

  lemma SentIsOk(db: W.Db, d: D.State, net: set<Row>, batch: seq<Row>, pos: nat)
    requires NetOk(db, d, net) && BatchOk(db, d, batch, pos) && pos < |batch| && batch[pos].payload.Readable?
    ensures NetOk(db, d, net + {batch[pos]})
  {
    forall o | Before(db.journal, o, batch[pos].payload.event) ensures Accepted(d, o) {
      if InBatchBefore(batch, pos, o) {
        var j :| 0 <= j < pos && j < |batch| && batch[j].id == o;
      }
    }
  }

  /** Editing the outbox columns leaves the tables consistent. */
  lemma OutboxEditKeepsDb(db: W.Db, outbox: map<nat, OutboxRow>)
    requires W.Inv(db)
    requires forall o :: o in outbox ==> o in db.t.outbox && outbox[o].payload == db.t.outbox[o].payload
    ensures W.Inv(SetOutbox(db, outbox))
  {
    var db' := SetOutbox(db, outbox);
    W.QuietMessages(db.t, db'.t);
    W.QuietJournal(db.t, db'.t, db.journal, db'.journal);
    forall tx | tx in db'.txs ensures W.TxOk(db'.t, db'.journal, db'.txs[tx]) {
      W.QuietTx(db.t, db'.t, db.journal, db'.journal, db.txs[tx]);
    }
  }

  lemma BatchIgnoresOutbox(db: W.Db, outbox: map<nat, OutboxRow>, d: D.State, relays: map<nat, Relay>)
    requires RelaysOk(db, d, relays)
    ensures RelaysOk(SetOutbox(db, outbox), d, relays)
  {
    forall n | n in relays && relays[n].Draining?
      ensures BatchOk(SetOutbox(db, outbox), d, relays[n].batch, relays[n].pos)
    {
      assert BatchOk(db, d, relays[n].batch, relays[n].pos);
    }
  }

  /** Stamping and deleting only rows the broker has loses nothing. */
  lemma OutboxEditKeepsFlow(s: State, outbox: map<nat, OutboxRow>)
    requires FlowOk(s)
    requires forall o :: Pending(s.db.t.outbox, o) && !Pending(outbox, o) && o in s.db.journal && s.db.journal[o].Readable? ==>
                           Accepted(s.d, o)
    ensures FlowOk(s.(db := SetOutbox(s.db, outbox)))
  {
    BatchIgnoresOutbox(s.db, outbox, s.d, s.relays);
  }

  /** The edit rewrites no payload, adds no row, and a readable row stops waiting only when the broker has it. */
  ghost predicate SafeEdit(db: W.Db, d: D.State, db': W.Db) {
    && db' == SetOutbox(db, db'.t.outbox)
    && (forall o :: o in db'.t.outbox ==> o in db.t.outbox && db'.t.outbox[o].payload == db.t.outbox[o].payload)
    && (forall o :: Pending(db.t.outbox, o) && !Pending(db'.t.outbox, o) && o in db.journal && db.journal[o].Readable? ==>
          Accepted(d, o))
  }

  lemma MarkedIsSafe(db: W.Db, d: D.State, batch: seq<Row>, pos: nat, now: nat)
    requires BatchOk(db, d, batch, pos)
    ensures SafeEdit(db, d, SetOutbox(db, Marked(db.t.outbox, Ids(batch, pos), now)))
  {
    forall o | o in Ids(batch, pos) && o in db.journal && db.journal[o].Readable? ensures Accepted(d, o) {
      var k :| 0 <= k < pos && batch[k].id == o;
    }
  }

  lemma SetRelay(s: State, n: nat, r: Relay)
    requires FlowOk(s) && (r.Draining? ==> BatchOk(s.db, s.d, r.batch, r.pos))
    ensures FlowOk(s.(relays := s.relays[n := r]))
  {
  }

  lemma FetchKeepsFlow(s: State, n: nat, batch: seq<Row>)
    requires W.Inv(s.db) && FlowOk(s) && IsBatch(s.db.t.outbox, BATCH, batch)
    ensures FlowOk(s.(relays := s.relays[n := Draining(batch, 0, false, false)]))
  {
    FetchedIsOk(s.db, s.d, BATCH, batch);
    SetRelay(s, n, Draining(batch, 0, false, false));
  }

  lemma SendKeepsFlow(s: State, n: nat)
    requires FlowOk(s) && AtRow(RelayOf(s, n)) && RelayOf(s, n).batch[RelayOf(s, n).pos].payload.Readable?
    ensures var r := RelayOf(s, n);
            FlowOk(s.(relays := s.relays[n := r.(waiting := true)], net := s.net + {r.batch[r.pos]}))
  {
    var r := RelayOf(s, n);
    SentIsOk(s.db, s.d, s.net, r.batch, r.pos);
    SetRelay(s.(net := s.net + {r.batch[r.pos]}), n, r.(waiting := true));
  }

  lemma AckedKeepsFlow(s: State, n: nat)
    requires FlowOk(s) && RelayOf(s, n).Draining? && RelayOf(s, n).pos < |RelayOf(s, n).batch|
    requires Accepted(s.d, RelayOf(s, n).batch[RelayOf(s, n).pos].id)
    ensures var r := RelayOf(s, n); FlowOk(s.(relays := s.relays[n := r.(pos := r.pos + 1, waiting := false)]))
  {
    var r := RelayOf(s, n);
    assert BatchOk(s.db, s.d, r.batch, r.pos);
    SetRelay(s, n, r.(pos := r.pos + 1, waiting := false));
  }

  lemma NoteIsSafe(db: W.Db, d: D.State, id: nat)
    ensures SafeEdit(db, d, Annotate(db, id))
  {
  }

  /** What SkipJunk, Failed, Mark and CleanOutbox do to the outbox. */
  lemma EditIsSafe(c: D.Config, s: State, l: Label)
    requires W.Inv(s.db) && RelaysOk(s.db, s.d, s.relays) && Enabled(c, s, l)
    requires l.SkipJunk? || l.Failed? || l.Mark? || l.CleanOutbox?
    ensures SafeEdit(s.db, s.d, Do(c, s, l).db)
  {
    if l.Mark? {
      MarkedIsSafe(s.db, s.d, RelayOf(s, l.n).batch, RelayOf(s, l.n).pos, s.d.now);
    } else if l.SkipJunk? || l.Failed? {
      NoteIsSafe(s.db, s.d, RelayOf(s, l.n).batch[RelayOf(s, l.n).pos].id);
    }
  }

  lemma EditKeepsFlow(c: D.Config, s: State, l: Label)
    requires W.Inv(s.db) && FlowOk(s) && Enabled(c, s, l) && (l.SkipJunk? || l.Failed? || l.Mark?)
    ensures FlowOk(Do(c, s, l))
  {
    var outbox := Do(c, s, l).db.t.outbox;
    EditIsSafe(c, s, l);
    OutboxEditKeepsFlow(s, outbox);
    EditedRelayOk(c, s, l);
    SetRelay(s.(db := SetOutbox(s.db, outbox)), l.n, Do(c, s, l).relays[l.n]);
  }

  lemma EditedRelayOk(c: D.Config, s: State, l: Label)
    requires RelaysOk(s.db, s.d, s.relays) && Enabled(c, s, l) && (l.SkipJunk? || l.Failed? || l.Mark?)
    ensures var r := Do(c, s, l).relays[l.n]; r.Draining? ==> BatchOk(Do(c, s, l).db, s.d, r.batch, r.pos)
  {
    assert BatchOk(s.db, s.d, RelayOf(s, l.n).batch, RelayOf(s, l.n).pos);
  }

  lemma EditKeepsInv(c: D.Config, s: State, l: Label)
    requires Inv(c, s) && Enabled(c, s, l) && (l.SkipJunk? || l.Failed? || l.Mark? || l.CleanOutbox?)
    ensures Inv(c, Do(c, s, l))
  {
    EditIsSafe(c, s, l);
    OutboxEditKeepsDb(s.db, Do(c, s, l).db.t.outbox);
    if l.CleanOutbox? {
      OutboxEditKeepsFlow(s, Do(c, s, l).db.t.outbox);
    } else {
      EditKeepsFlow(c, s, l);
    }
  }

  lemma RelayKeepsFlow(c: D.Config, s: State, l: Label)
    requires W.Inv(s.db) && FlowOk(s) && Enabled(c, s, l)
    requires l.TryLock? || l.Fetch? || l.Send? || l.Acked? || l.MarkFailed? || l.Stop? || l.LoseLock?
    ensures FlowOk(Do(c, s, l)) && Do(c, s, l).db == s.db && Do(c, s, l).d == s.d
  {
    match l
    case Fetch(n, batch) => FetchKeepsFlow(s, n, batch);
    case Send(n) => SendKeepsFlow(s, n);
    case Acked(n) => AckedKeepsFlow(s, n);
    case TryLock(n) => SetRelay(s, n, Leader);
    case MarkFailed(n) => SetRelay(s, n, Leader);
    case Stop(n) => SetRelay(s, n, Follower);
    case LoseLock =>
  }

  lemma WriterKeepsInv(c: D.Config, s: State, w: W.Label)
    requires Inv(c, s) && W.Enabled(s.db, w)
    ensures Inv(c, s.(db := W.Do(s.db, w)))
  {
    W.StepKeepsInv(s.db, w);
    WriterKeepsFlow(s, w);
  }

  lemma BrokerKeepsInv(c: D.Config, s: State, b: D.Label)
    requires Inv(c, s) && D.Enabled(c, s.d, b) && (b.Accept? ==> Row(b.outboxId, b.payload) in s.net)
    ensures Inv(c, s.(d := D.Do(c, s.d, b)))
  {
    D.StepKeepsInv(c, s.d, b);
    BrokerKeepsFlow(c, s, b);
  }

  lemma StreamKeepsInv(c: D.Config, s: State, l: Label)
    requires Inv(c, s) && Enabled(c, s, l) && (l.Take? || l.Broker?)
    ensures Inv(c, Do(c, s, l))
  {
    BrokerKeepsInv(c, s, if l.Take? then D.Accept(l.p.id, l.p.payload) else l.l);
  }

  lemma RelayKeepsInv(c: D.Config, s: State, l: Label)
    requires Inv(c, s) && Enabled(c, s, l)
    requires l.TryLock? || l.Fetch? || l.Send? || l.Acked? || l.MarkFailed? || l.Stop? || l.LoseLock?
    ensures Inv(c, Do(c, s, l))
  {
    RelayKeepsFlow(c, s, l);
  }

  lemma StepKeepsInv(c: D.Config, s: State, l: Label)
    requires Inv(c, s) && Enabled(c, s, l)
    ensures Inv(c, Do(c, s, l))
  {
    if l.Writer? {
      WriterKeepsInv(c, s, l.w);
    } else if l.Take? || l.Broker? {
      StreamKeepsInv(c, s, l);
    } else if l.SkipJunk? || l.Failed? || l.Mark? || l.CleanOutbox? {
      EditKeepsInv(c, s, l);
    } else {
      RelayKeepsInv(c, s, l);
    }
  }

  // ----- Runs -----

  ghost predicate CanRun(c: D.Config, s: State, ls: seq<Label>)
    decreases |ls|
  {
    ls == [] || (Enabled(c, s, ls[0]) && CanRun(c, Do(c, s, ls[0]), ls[1..]))
  }

  ghost function Run(c: D.Config, s: State, ls: seq<Label>): State
    requires CanRun(c, s, ls)
    decreases |ls|
  {
    if ls == [] then s else Run(c, Do(c, s, ls[0]), ls[1..])
  }

  lemma {:induction false} RunKeepsInv(c: D.Config, s: State, ls: seq<Label>)
    requires Inv(c, s) && CanRun(c, s, ls)
    ensures Inv(c, Run(c, s, ls))
    decreases |ls|
  {
    if ls == [] {
    } else {
      StepKeepsInv(c, s, ls[0]);
      RunKeepsInv(c, Do(c, s, ls[0]), ls[1..]);
    }
  }

  lemma StartIsConsistent(c: D.Config)
    ensures Inv(c, EMPTY)
  {
  }

  lemma EveryRunIsConsistent(c: D.Config, ls: seq<Label>)
    requires CanRun(c, EMPTY, ls)
    ensures Inv(c, Run(c, EMPTY, ls))
  {
    StartIsConsistent(c);
    RunKeepsInv(c, EMPTY, ls);
  }

  lemma {:induction false} RunThen(c: D.Config, s: State, ls: seq<Label>, l: Label)
    requires CanRun(c, s, ls) && Enabled(c, Run(c, s, ls), l)
    ensures CanRun(c, s, ls + [l]) && Run(c, s, ls + [l]) == Do(c, Run(c, s, ls), l)
    decreases |ls|
  {
    if ls == [] {
      assert CanRun(c, Do(c, s, l), []);
    } else {
      assert (ls + [l])[1..] == ls[1..] + [l];
      RunThen(c, Do(c, s, ls[0]), ls[1..], l);
    }
  }

  lemma {:induction false} RunOn(c: D.Config, s: State, ls: seq<Label>, more: seq<Label>)
    requires CanRun(c, s, ls) && CanRun(c, Run(c, s, ls), more)
    ensures CanRun(c, s, ls + more) && Run(c, s, ls + more) == Run(c, Run(c, s, ls), more)
    decreases |ls|
  {
    if ls == [] {
      assert [] + more == more;
    } else {
      assert (ls + more)[1..] == ls[1..] + more;
      RunOn(c, Do(c, s, ls[0]), ls[1..], more);
    }
  }
}
