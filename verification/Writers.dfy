// CreateMessage as concurrent transactions: the statements of any number of senders interleave,
// each of them can fail and roll back, and a row lock on the room is held until commit.

module Writers {
  import opened Schema

  /** A transaction of CreateMessage, by the last statement it finished. Nothing of it is visible to others. */
  datatype Tx =
    | Allocated(req: Request, seqNo: nat)
    | Inserted(req: Request, seqNo: nat, messageId: nat)
    | Ready(req: Request, seqNo: nat, messageId: nat, outboxId: nat)

  /** `journal` is a history variable: every outbox row ever committed, even after its deletion. */
  datatype Db = Db(t: Tables, txs: map<nat, Tx>, journal: map<nat, Payload>)

  datatype Label =
    | CreateRoom(room: nat)
    | DeleteRoom(room: nat)
    | Allocate(tx: nat, req: Request)
    | Insert(tx: nat)
    | Duplicate(tx: nat)
    | WriteOutbox(tx: nat)
    | Commit(tx: nat)
    | Rollback(tx: nat)
    | BurnIds(messages: nat, outbox: nat)
    | ForeignRow

  predicate Locked(db: Db, room: nat) {
    exists tx :: tx in db.txs && db.txs[tx].req.room == room
  }

  /** The two unique indexes of the messages table reject this insert. */
  predicate Rejected(t: Tables, req: Request, seqNo: nat) {
    exists id :: id in t.messages && Collides(t.messages[id], req, seqNo)
  }

  predicate Collides(m: Message, req: Request, seqNo: nat) {
    SameKey(m, req.room, req.sender, req.key) || (m.room == req.room && m.seqNo == seqNo)
  }

  predicate Enabled(db: Db, l: Label) {
    match l
    case CreateRoom(room) => room !in db.t.rooms
    case DeleteRoom(room) => room in db.t.rooms && !Locked(db, room)
    case Allocate(tx, req) =>
      tx !in db.txs && req.room in db.t.rooms && !db.t.rooms[req.room].deleted && !Locked(db, req.room)
    case Insert(tx) => tx in db.txs && db.txs[tx].Allocated? && !Rejected(db.t, db.txs[tx].req, db.txs[tx].seqNo)
    case Duplicate(tx) => tx in db.txs && db.txs[tx].Allocated? && Rejected(db.t, db.txs[tx].req, db.txs[tx].seqNo)
    case WriteOutbox(tx) => tx in db.txs && db.txs[tx].Inserted?
    case Commit(tx) => tx in db.txs && db.txs[tx].Ready? && db.txs[tx].req.room in db.t.rooms
    case Rollback(tx) => tx in db.txs
    case BurnIds(_, _) => true
    case ForeignRow => true
  }

  function Do(db: Db, l: Label): Db
    requires Enabled(db, l)
  {
    var t := db.t;
    match l
    case CreateRoom(room) => db.(t := t.(rooms := t.rooms[room := Room(0, false)]))
    case DeleteRoom(room) => db.(t := t.(rooms := t.rooms[room := t.rooms[room].(deleted := true)]))
    case Allocate(tx, req) => db.(txs := db.txs[tx := Allocated(req, t.rooms[req.room].lastSeq + 1)])
    case Insert(tx) =>
      db.(t := t.(nextMessage := t.nextMessage + 1),
          txs := db.txs[tx := Inserted(db.txs[tx].req, db.txs[tx].seqNo, t.nextMessage)])
    case Duplicate(tx) => db.(t := t.(nextMessage := t.nextMessage + 1), txs := db.txs - {tx})
    case WriteOutbox(tx) =>
      db.(t := t.(nextOutbox := t.nextOutbox + 1),
          txs := db.txs[tx := Ready(db.txs[tx].req, db.txs[tx].seqNo, db.txs[tx].messageId, t.nextOutbox)])
    case Commit(tx) => Committed(db, tx)
    case Rollback(tx) => db.(txs := db.txs - {tx})
    case BurnIds(m, o) => db.(t := t.(nextMessage := t.nextMessage + m, nextOutbox := t.nextOutbox + o))
    case ForeignRow =>
      db.(t := t.(outbox := t.outbox[t.nextOutbox := OutboxRow(Junk, None, 0)], nextOutbox := t.nextOutbox + 1),
          journal := db.journal[t.nextOutbox := Junk])
  }

  /** The allocator, the message row and the outbox row become visible together. */
  function Committed(db: Db, tx: nat): Db
    requires Enabled(db, Commit(tx))
  {
    var Ready(req, seqNo, id, oid) := db.txs[tx];
    var payload := Readable(EventOf(req, seqNo, id));
    Db(db.t.(rooms := db.t.rooms[req.room := db.t.rooms[req.room].(lastSeq := seqNo)],
             messages := db.t.messages[id := MessageOf(req, seqNo)],
             outbox := db.t.outbox[oid := OutboxRow(payload, None, 0)]),
       db.txs - {tx},
       db.journal[oid := payload])
  }

  // ----- The invariant -----

  ghost predicate Holds(t: Tables, room: nat, n: nat) {
    exists id :: id in t.messages && t.messages[id].room == room && t.messages[id].seqNo == n
  }

  ghost predicate IdsOk(t: Tables) {
    && t.nextMessage > 0
    && (forall id :: id in t.messages ==>
          0 < id < t.nextMessage && t.messages[id].room in t.rooms
          && 1 <= t.messages[id].seqNo <= t.rooms[t.messages[id].room].lastSeq)
  }

  ghost predicate SeqsFollowIds(messages: map<nat, Message>) {
    forall i, j :: i in messages && j in messages && i < j && messages[i].room == messages[j].room ==>
      messages[i].seqNo < messages[j].seqNo
  }

  ghost predicate NoHole(t: Tables) {
    forall r, n :: r in t.rooms && 1 <= n <= t.rooms[r].lastSeq ==> Holds(t, r, n)
  }

  ghost predicate KeysOnce(messages: map<nat, Message>) {
    forall i, j :: i in messages && j in messages && i != j ==>
      !SameKey(messages[i], messages[j].room, messages[j].sender, messages[j].key)
  }

  /** Seqs of a room are exactly 1..lastSeq, each once, in id order, and no client key is used twice. */
  ghost predicate MessagesOk(t: Tables) {
    IdsOk(t) && SeqsFollowIds(t.messages) && NoHole(t) && KeysOnce(t.messages)
  }

  ghost predicate Told(journal: map<nat, Payload>, id: nat, m: Message) {
    exists oid :: oid in journal && journal[oid].Readable? && Describes(journal[oid].event, id, m)
  }

  ghost predicate AllTold(messages: map<nat, Message>, journal: map<nat, Payload>) {
    forall id :: id in messages ==> Told(journal, id, messages[id])
  }

  ghost predicate Truthful(messages: map<nat, Message>, journal: map<nat, Payload>) {
    forall oid :: oid in journal && journal[oid].Readable? ==> TellsTruth(messages, journal[oid].event)
  }

  ghost predicate TellsTruth(messages: map<nat, Message>, e: Event) {
    e.messageId in messages && Describes(e, e.messageId, messages[e.messageId])
  }

  ghost predicate RoomOrder(journal: map<nat, Payload>) {
    forall i, j :: i in journal && j in journal && journal[i].Readable? && journal[j].Readable? && i < j
                   && journal[i].event.room == journal[j].event.room ==>
      journal[i].event.seqNo < journal[j].event.seqNo
  }

  ghost predicate RowsOk(t: Tables, journal: map<nat, Payload>) {
    && t.nextOutbox > 0
    && (forall oid :: oid in journal ==> 0 < oid < t.nextOutbox)
    && (forall oid :: oid in t.outbox ==> oid in journal && t.outbox[oid].payload == journal[oid])
  }

  /** Every message has its outbox row in the journal, rows tell the truth, and a room's rows are in seq order. */
  ghost predicate JournalOk(t: Tables, journal: map<nat, Payload>) {
    AllTold(t.messages, journal) && Truthful(t.messages, journal) && RoomOrder(journal) && RowsOk(t, journal)
  }

  /** What an open transaction knows about its room, thanks to the row lock. */
  ghost predicate AllocationOk(t: Tables, tx: Tx) {
    tx.req.room in t.rooms && tx.seqNo == t.rooms[tx.req.room].lastSeq + 1
  }

  ghost predicate InsertOk(t: Tables, req: Request, seqNo: nat, id: nat) {
    && 0 < id < t.nextMessage && id !in t.messages
    && (forall i :: i in t.messages ==>
          !Collides(t.messages[i], req, seqNo) && (t.messages[i].room == req.room ==> i < id))
  }

  ghost predicate RowOk(t: Tables, journal: map<nat, Payload>, room: nat, oid: nat) {
    && 0 < oid < t.nextOutbox && oid !in journal
    && (forall o :: o in journal && journal[o].Readable? && journal[o].event.room == room ==> o < oid)
  }

  ghost predicate TxOk(t: Tables, journal: map<nat, Payload>, tx: Tx) {
    && AllocationOk(t, tx)
    && (!tx.Allocated? ==> InsertOk(t, tx.req, tx.seqNo, tx.messageId))
    && (tx.Ready? ==> RowOk(t, journal, tx.req.room, tx.outboxId))
  }

  ghost predicate Apart(a: Tx, b: Tx) {
    && a.req.room != b.req.room
    && (!a.Allocated? && !b.Allocated? ==> a.messageId != b.messageId)
    && (a.Ready? && b.Ready? ==> a.outboxId != b.outboxId)
  }

  ghost predicate TxsOk(db: Db) {
    && (forall tx :: tx in db.txs ==> TxOk(db.t, db.journal, db.txs[tx]))
    && (forall a, b :: a in db.txs && b in db.txs && a != b ==> Apart(db.txs[a], db.txs[b]))
  }

  ghost predicate Inv(db: Db) {
    MessagesOk(db.t) && JournalOk(db.t, db.journal) && TxsOk(db)
  }

  // ----- Commit -----

  lemma CommitKeepsMessages(t: Tables, t': Tables, req: Request, seqNo: nat, id: nat)
    requires MessagesOk(t) && req.room in t.rooms && seqNo == t.rooms[req.room].lastSeq + 1
    requires InsertOk(t, req, seqNo, id)
    requires t'.rooms == t.rooms[req.room := t.rooms[req.room].(lastSeq := seqNo)]
    requires t'.messages == t.messages[id := MessageOf(req, seqNo)] && t'.nextMessage == t.nextMessage
    ensures MessagesOk(t')
  {
    assert KeysOnce(t'.messages) by {
      forall i, j | i in t'.messages && j in t'.messages && i != j
        ensures !SameKey(t'.messages[i], t'.messages[j].room, t'.messages[j].sender, t'.messages[j].key)
      {
        assert i in t.messages ==> !Collides(t.messages[i], req, seqNo);
        assert j in t.messages ==> !Collides(t.messages[j], req, seqNo);
      }
    }
    forall r, n | r in t'.rooms && 1 <= n <= t'.rooms[r].lastSeq
      ensures Holds(t', r, n)
    {
      if r == req.room && n == seqNo {
        assert t'.messages[id].seqNo == n;
      } else {
        assert Holds(t, r, n);
        var i :| i in t.messages && t.messages[i].room == r && t.messages[i].seqNo == n;
        assert t'.messages[i] == t.messages[i];
      }
    }
  }

  lemma CommitKeepsTold(messages: map<nat, Message>, journal: map<nat, Payload>, id: nat, m: Message, oid: nat, e: Event)
    requires AllTold(messages, journal) && oid !in journal && Describes(e, id, m)
    ensures AllTold(messages[id := m], journal[oid := Readable(e)])
  {
    var messages', journal' := messages[id := m], journal[oid := Readable(e)];
    forall i | i in messages' ensures Told(journal', i, messages'[i]) {
      if i == id {
        assert Describes(journal'[oid].event, id, m);
      } else {
        ToldKept(journal, journal', i, messages[i]);
      }
    }
  }

  lemma CommitKeepsTruth(messages: map<nat, Message>, journal: map<nat, Payload>, id: nat, m: Message, oid: nat, e: Event)
    requires Truthful(messages, journal) && id !in messages && Describes(e, id, m)
    ensures Truthful(messages[id := m], journal[oid := Readable(e)])
  {
    var messages', journal' := messages[id := m], journal[oid := Readable(e)];
    forall o | o in journal' && journal'[o].Readable? ensures TellsTruth(messages', journal'[o].event) {
      assert o != oid ==> TellsTruth(messages, journal[o].event);
    }
  }

  lemma CommitKeepsOrder(t: Tables, journal: map<nat, Payload>, oid: nat, e: Event)
    requires IdsOk(t) && Truthful(t.messages, journal) && RoomOrder(journal) && RowOk(t, journal, e.room, oid)
    requires e.room in t.rooms && e.seqNo == t.rooms[e.room].lastSeq + 1
    ensures RoomOrder(journal[oid := Readable(e)])
  {
    forall o | o in journal && journal[o].Readable? && journal[o].event.room == e.room
      ensures o < oid && journal[o].event.seqNo < e.seqNo
    {
      assert TellsTruth(t.messages, journal[o].event);
    }
  }

  lemma ToldKept(journal: map<nat, Payload>, journal': map<nat, Payload>, id: nat, m: Message)
    requires Told(journal, id, m)
    requires forall o :: o in journal ==> o in journal' && journal'[o] == journal[o]
    ensures Told(journal', id, m)
  {
    var oid :| oid in journal && journal[oid].Readable? && Describes(journal[oid].event, id, m);
    assert journal'[oid] == journal[oid];
  }

  /** Another room's transaction does not notice a commit. */
  lemma CommitKeepsTx(t: Tables, t': Tables, journal: map<nat, Payload>, mine: Tx, other: Tx)
    requires mine.Ready? && TxOk(t, journal, mine) && TxOk(t, journal, other) && Apart(mine, other)
    requires t'.rooms == t.rooms[mine.req.room := t.rooms[mine.req.room].(lastSeq := mine.seqNo)]
    requires t'.messages == t.messages[mine.messageId := MessageOf(mine.req, mine.seqNo)]
    requires t'.nextMessage == t.nextMessage && t'.nextOutbox == t.nextOutbox
    ensures TxOk(t', journal[mine.outboxId := Readable(EventOf(mine.req, mine.seqNo, mine.messageId))], other)
  {
  }

  lemma CommitKeepsInv(db: Db, tx: nat)
    requires Inv(db) && Enabled(db, Commit(tx))
    ensures Inv(Committed(db, tx))
  {
    var db', mine := Committed(db, tx), db.txs[tx];
    assert TxOk(db.t, db.journal, mine);
    CommitKeepsMessages(db.t, db'.t, mine.req, mine.seqNo, mine.messageId);
    var m, e := MessageOf(mine.req, mine.seqNo), EventOf(mine.req, mine.seqNo, mine.messageId);
    CommitKeepsTold(db.t.messages, db.journal, mine.messageId, m, mine.outboxId, e);
    CommitKeepsTruth(db.t.messages, db.journal, mine.messageId, m, mine.outboxId, e);
    CommitKeepsOrder(db.t, db.journal, mine.outboxId, e);
    forall other | other in db'.txs ensures TxOk(db'.t, db'.journal, db'.txs[other]) {
      assert Apart(mine, db.txs[other]);
      CommitKeepsTx(db.t, db'.t, db.journal, mine, db.txs[other]);
    }
    assert forall a, b :: a in db'.txs && b in db'.txs && a != b ==> Apart(db.txs[a], db.txs[b]);
  }

  // ----- The other statements -----

  lemma QuietMessages(t: Tables, t': Tables)
    requires MessagesOk(t) && t'.messages == t.messages && t'.nextMessage >= t.nextMessage
    requires forall r :: r in t.rooms ==> r in t'.rooms && t'.rooms[r].lastSeq == t.rooms[r].lastSeq
    requires forall r :: r in t'.rooms && r !in t.rooms ==> t'.rooms[r].lastSeq == 0
    ensures MessagesOk(t')
  {
    forall r, n | r in t'.rooms && 1 <= n <= t'.rooms[r].lastSeq ensures Holds(t', r, n) {
      assert Holds(t, r, n);
    }
  }

  lemma QuietTx(t: Tables, t': Tables, journal: map<nat, Payload>, journal': map<nat, Payload>, tx: Tx)
    requires TxOk(t, journal, tx) && t'.messages == t.messages
    requires t'.nextMessage >= t.nextMessage && t'.nextOutbox >= t.nextOutbox
    requires forall r :: r in t.rooms ==> r in t'.rooms && t'.rooms[r].lastSeq == t.rooms[r].lastSeq
    requires forall oid :: oid in journal' && oid !in journal ==> oid == t.nextOutbox && journal'[oid].Junk?
    requires forall oid :: oid in journal ==> oid in journal' && journal'[oid] == journal[oid]
    ensures TxOk(t', journal', tx)
  {
  }

  /** A statement that leaves its transaction open: the row lock keeps what it read true. */
  lemma OwnTx(db: Db, l: Label)
    requires Inv(db) && Enabled(db, l) && (l.Allocate? || l.Insert? || l.WriteOutbox?)
    ensures TxOk(Do(db, l).t, db.journal, Do(db, l).txs[l.tx])
  {
    var db' := Do(db, l);
    if !l.Allocate? {
      assert TxOk(db.t, db.journal, db.txs[l.tx]);
      if l.Insert? {
        var req, seqNo := db.txs[l.tx].req, db.txs[l.tx].seqNo;
        forall i | i in db.t.messages ensures !Collides(db.t.messages[i], req, seqNo) {
          assert !Rejected(db.t, req, seqNo);
        }
      }
    }
  }

  lemma OpenTxs(db: Db, l: Label)
    requires Inv(db) && Enabled(db, l) && !l.Commit?
    ensures TxsOk(Do(db, l))
  {
    var db' := Do(db, l);
    forall tx | tx in db'.txs ensures TxOk(db'.t, db'.journal, db'.txs[tx]) {
      if tx !in db.txs || db'.txs[tx] != db.txs[tx] {
        OwnTx(db, l);
      } else {
        assert TxOk(db.t, db.journal, db.txs[tx]);
        QuietTx(db.t, db'.t, db.journal, db'.journal, db.txs[tx]);
      }
    }
    forall a, b | a in db'.txs && b in db'.txs && a != b ensures Apart(db'.txs[a], db'.txs[b]) {
      NewTxApart(db, l, a, b);
    }
  }

  lemma NewTxApart(db: Db, l: Label, a: nat, b: nat)
    requires Inv(db) && Enabled(db, l) && !l.Commit?
    requires a in Do(db, l).txs && b in Do(db, l).txs && a != b
    ensures Apart(Do(db, l).txs[a], Do(db, l).txs[b])
  {
    assert a in db.txs ==> TxOk(db.t, db.journal, db.txs[a]);
    assert b in db.txs ==> TxOk(db.t, db.journal, db.txs[b]);
    if a in db.txs && b in db.txs {
      assert Apart(db.txs[a], db.txs[b]);
    } else {
      assert l.Allocate? && !Locked(db, l.req.room);
    }
  }

  lemma QuietJournal(t: Tables, t': Tables, journal: map<nat, Payload>, journal': map<nat, Payload>)
    requires JournalOk(t, journal) && t'.messages == t.messages && RowsOk(t', journal')
    requires forall oid :: oid in journal' && oid !in journal ==> journal'[oid].Junk?
    requires forall oid :: oid in journal ==> oid in journal' && journal'[oid] == journal[oid]
    ensures JournalOk(t', journal')
  {
    forall id | id in t.messages ensures Told(journal', id, t.messages[id]) {
      assert Told(journal, id, t.messages[id]);
      ToldKept(journal, journal', id, t.messages[id]);
    }
  }

  lemma QuietStepKeepsMessages(db: Db, l: Label)
    requires MessagesOk(db.t) && Enabled(db, l) && !l.Commit?
    ensures MessagesOk(Do(db, l).t)
  {
    QuietMessages(db.t, Do(db, l).t);
  }

  lemma QuietStepKeepsJournal(db: Db, l: Label)
    requires JournalOk(db.t, db.journal) && Enabled(db, l) && !l.Commit?
    ensures JournalOk(Do(db, l).t, Do(db, l).journal)
  {
    QuietJournal(db.t, Do(db, l).t, db.journal, Do(db, l).journal);
  }

  /** Every statement of every interleaving keeps the tables consistent. */
  lemma StepKeepsInv(db: Db, l: Label)
    requires Inv(db) && Enabled(db, l)
    ensures Inv(Do(db, l))
  {
    if l.Commit? {
      CommitKeepsInv(db, l.tx);
    } else {
      QuietStepKeepsMessages(db, l);
      QuietStepKeepsJournal(db, l);
      OpenTxs(db, l);
    }
  }

  // ----- Runs -----

  ghost predicate CanRun(db: Db, ls: seq<Label>)
    decreases |ls|
  {
    ls == [] || (Enabled(db, ls[0]) && CanRun(Do(db, ls[0]), ls[1..]))
  }

  ghost function Run(db: Db, ls: seq<Label>): Db
    requires CanRun(db, ls)
    decreases |ls|
  {
    if ls == [] then db else Run(Do(db, ls[0]), ls[1..])
  }

  lemma {:induction false} RunKeepsInv(db: Db, ls: seq<Label>)
    requires Inv(db) && CanRun(db, ls)
    ensures Inv(Run(db, ls))
    decreases |ls|
  {
    if ls == [] {
    } else {
      StepKeepsInv(db, ls[0]);
      RunKeepsInv(Do(db, ls[0]), ls[1..]);
    }
  }

  lemma {:induction false} RunThen(db: Db, ls: seq<Label>, l: Label)
    requires CanRun(db, ls) && Enabled(Run(db, ls), l)
    ensures CanRun(db, ls + [l]) && Run(db, ls + [l]) == Do(Run(db, ls), l)
    decreases |ls|
  {
    if ls == [] {
      assert CanRun(Do(db, l), []);
    } else {
      assert (ls + [l])[1..] == ls[1..] + [l];
      RunThen(Do(db, ls[0]), ls[1..], l);
    }
  }

  const EMPTY := Db(Tables(map[], map[], map[], 1, 1), map[], map[])

  /** Some interleaving of statements leads from one state to the other. */
  ghost predicate Reaches(db: Db, db': Db) {
    exists ls :: CanRun(db, ls) && Run(db, ls) == db'
  }

  lemma ReachesKeepsInv(db: Db, db': Db)
    requires Reaches(db, db') && Inv(db)
    ensures Inv(db')
  {
    var ls :| CanRun(db, ls) && Run(db, ls) == db';
    RunKeepsInv(db, ls);
  }

  lemma ReachableIsConsistent(db: Db)
    requires Reaches(EMPTY, db)
    ensures Inv(db)
  {
    ReachesKeepsInv(EMPTY, db);
  }

  lemma {:induction false} RunOn(db: Db, ls: seq<Label>, more: seq<Label>)
    requires CanRun(db, ls) && CanRun(Run(db, ls), more)
    ensures CanRun(db, ls + more) && Run(db, ls + more) == Run(Run(db, ls), more)
    decreases |ls|
  {
    if ls == [] {
      assert [] + more == more;
    } else {
      assert (ls + more)[1..] == ls[1..] + more;
      RunOn(Do(db, ls[0]), ls[1..], more);
    }
  }

  lemma ReachesItself(db: Db)
    ensures Reaches(db, db)
  {
    assert CanRun(db, []) && Run(db, []) == db;
  }

  lemma ReachesStep(db: Db, db': Db, l: Label)
    requires Reaches(db, db') && Enabled(db', l)
    ensures Reaches(db, Do(db', l))
  {
    var ls :| CanRun(db, ls) && Run(db, ls) == db';
    RunThen(db, ls, l);
  }

  lemma ReachesOn(a: Db, b: Db, c: Db)
    requires Reaches(a, b) && Reaches(b, c)
    ensures Reaches(a, c)
  {
    var ls :| CanRun(a, ls) && Run(a, ls) == b;
    var more :| CanRun(b, more) && Run(b, more) == c;
    RunOn(a, ls, more);
  }

  ghost function RowsOfRoom(t: Tables, room: nat): set<nat> {
    set id | id in t.messages && t.messages[id].room == room
  }

  ghost function SeqsOf(t: Tables, room: nat): set<nat> {
    set id | id in t.messages && t.messages[id].room == room :: t.messages[id].seqNo
  }

  ghost function EventsOf(db: Db, room: nat): set<nat> {
    set oid | oid in db.journal && db.journal[oid].Readable? && db.journal[oid].event.room == room
  }

  ghost predicate IdsInSeqOrder(t: Tables, room: nat) {
    forall i, j :: i in RowsOfRoom(t, room) && j in RowsOfRoom(t, room) ==>
      (i < j <==> t.messages[i].seqNo < t.messages[j].seqNo)
  }

  ghost predicate OutboxInSeqOrder(db: Db, room: nat) {
    forall p, q :: p in EventsOf(db, room) && q in EventsOf(db, room) ==>
      (p < q <==> db.journal[p].event.seqNo < db.journal[q].event.seqNo)
  }

  /**
   * However the senders' statements interleave, fail and retry: a room's seqs are exactly 1..last_seq, no two
   * messages share one, message ids and outbox ids both grow with the seq, and every message has its outbox row.
   */
  lemma Gapless(ls: seq<Label>, room: nat)
    requires CanRun(EMPTY, ls) && room in Run(EMPTY, ls).t.rooms
    ensures var db := Run(EMPTY, ls);
            && (forall n :: n in SeqsOf(db.t, room) <==> 1 <= n <= db.t.rooms[room].lastSeq)
            && IdsInSeqOrder(db.t, room) && OutboxInSeqOrder(db, room)
            && (forall id :: id in RowsOfRoom(db.t, room) ==> Told(db.journal, id, db.t.messages[id]))
  {
    RunKeepsInv(EMPTY, ls);
    SeqsExact(Run(EMPTY, ls).t, room);
    OrderBothWays(Run(EMPTY, ls), room);
  }

  lemma SeqsExact(t: Tables, room: nat)
    requires MessagesOk(t) && room in t.rooms
    ensures forall n :: n in SeqsOf(t, room) <==> 1 <= n <= t.rooms[room].lastSeq
  {
    forall n: nat | 1 <= n <= t.rooms[room].lastSeq ensures n in SeqsOf(t, room) {
      assert Holds(t, room, n);
    }
  }

  lemma OrderBothWays(db: Db, room: nat)
    requires Inv(db)
    ensures IdsInSeqOrder(db.t, room) && OutboxInSeqOrder(db, room)
  {
  }

  /** Each (room, sender, client_msg_id) has at most one message, whatever was retried concurrently. */
  lemma KeyUsedOnce(ls: seq<Label>, i: nat, j: nat)
    requires CanRun(EMPTY, ls)
    requires var m := Run(EMPTY, ls).t.messages;
             i in m && j in m && m[i].key.Some? && m[i].room == m[j].room && m[i].sender == m[j].sender && m[i].key == m[j].key
    ensures i == j
  {
    RunKeepsInv(EMPTY, ls);
    var m := Run(EMPTY, ls).t.messages;
    assert SameKey(m[i], m[j].room, m[j].sender, m[j].key);
  }

  predicate CarriesKey(messages: map<nat, Message>, id: nat, req: Request) {
    id in messages && messages[id].room == req.room && messages[id].sender == req.sender && messages[id].key == req.key
  }

  /**
   * The unique index on (room, seq) never fires: an insert is rejected only for a client key already used, and then
   * exactly one message carries it, so the duplicate branch always finds the first message.
   */
  lemma DuplicateIsARetry(ls: seq<Label>, tx: nat)
    requires CanRun(EMPTY, ls) && Enabled(Run(EMPTY, ls), Duplicate(tx))
    ensures var db := Run(EMPTY, ls); var req := db.txs[tx].req;
            && req.key.Some?
            && (exists id :: CarriesKey(db.t.messages, id, req) && (forall j :: CarriesKey(db.t.messages, j, req) ==> j == id))
  {
    RunKeepsInv(EMPTY, ls);
    var db := Run(EMPTY, ls);
    var req, seqNo := db.txs[tx].req, db.txs[tx].seqNo;
    assert TxOk(db.t, db.journal, db.txs[tx]);
    var id :| id in db.t.messages && Collides(db.t.messages[id], req, seqNo);
    assert CarriesKey(db.t.messages, id, req);
    assert KeysOnce(db.t.messages);
  }

  /** `later` shows every row of `early`, and a room's new rows come after all the rows it had, in id and in seq. */
  ghost predicate Extends(early: Tables, later: Tables) {
    && (forall r :: r in early.rooms ==> r in later.rooms && early.rooms[r].lastSeq <= later.rooms[r].lastSeq)
    && (forall id :: id in early.messages ==> id in later.messages && later.messages[id] == early.messages[id])
    && (forall id :: id in later.messages && id !in early.messages ==> NewRow(early, id, later.messages[id]))
  }

  ghost predicate NewRow(early: Tables, id: nat, m: Message) {
    m.room in early.rooms ==>
      m.seqNo > early.rooms[m.room].lastSeq && (forall i :: i in RowsOfRoom(early, m.room) ==> i < id)
  }

  lemma StepExtends(db: Db, l: Label)
    requires Inv(db) && Enabled(db, l)
    ensures Extends(db.t, Do(db, l).t)
  {
    if l.Commit? {
      CommitExtends(db.t, db.txs[l.tx], Do(db, l).t, db.journal);
    }
  }

  lemma CommitExtends(t: Tables, tx: Tx, t': Tables, journal: map<nat, Payload>)
    requires tx.Ready? && TxOk(t, journal, tx)
    requires t'.rooms == t.rooms[tx.req.room := t.rooms[tx.req.room].(lastSeq := tx.seqNo)]
    requires t'.messages == t.messages[tx.messageId := MessageOf(tx.req, tx.seqNo)]
    ensures Extends(t, t')
  {
  }

  lemma ExtendsTransitive(a: Tables, b: Tables, c: Tables)
    requires Extends(a, b) && Extends(b, c)
    ensures Extends(a, c)
  {
    forall id | id in c.messages && id !in a.messages ensures NewRow(a, id, c.messages[id]) {
      var m := c.messages[id];
      if id in b.messages {
        assert NewRow(a, id, b.messages[id]);
      } else {
        assert NewRow(b, id, m);
        forall i | m.room in a.rooms && i in RowsOfRoom(a, m.room) ensures i < id {
          assert i in RowsOfRoom(b, m.room);
        }
      }
    }
  }

  lemma {:induction false} RunExtends(db: Db, ls: seq<Label>)
    requires Inv(db) && CanRun(db, ls)
    ensures Extends(db.t, Run(db, ls).t)
    decreases |ls|
  {
    if ls == [] {
    } else {
      StepKeepsInv(db, ls[0]);
      StepExtends(db, ls[0]);
      RunExtends(Do(db, ls[0]), ls[1..]);
      ExtendsTransitive(db.t, Do(db, ls[0]).t, Run(db, ls).t);
    }
  }

  // ----- What a commit makes of its request -----

  lemma {:induction false} LastStep(db: Db, ls: seq<Label>)
    requires CanRun(db, ls) && ls != []
    ensures var init, l := ls[..|ls| - 1], ls[|ls| - 1];
            CanRun(db, init) && Enabled(Run(db, init), l) && Run(db, ls) == Do(Run(db, init), l)
    decreases |ls|
  {
    if |ls| == 1 {
      assert CanRun(Do(db, ls[0]), []) && ls[..0] == [];
    } else {
      var rest := ls[1..];
      LastStep(Do(db, ls[0]), rest);
      assert ls[..|ls| - 1] == [ls[0]] + rest[..|rest| - 1];
    }
  }

  /** The transaction `tx` that is open after these steps began with its `Allocate` at step j. */
  ghost predicate Began(ls: seq<Label>, j: nat, tx: nat) {
    && j < |ls| && ls[j].Allocate? && ls[j].tx == tx
    && (forall i :: j < i < |ls| && ls[i].Allocate? ==> ls[i].tx != tx)
  }

  ghost predicate BeganWith(ls: seq<Label>, tx: nat, req: Request) {
    exists j: nat :: Began(ls, j, tx) && ls[j].req == req
  }

  lemma BeganLater(ls: seq<Label>, l: Label, tx: nat, req: Request)
    requires BeganWith(ls, tx, req) && (l.Allocate? ==> l.tx != tx)
    ensures BeganWith(ls + [l], tx, req)
  {
    var j: nat :| Began(ls, j, tx) && ls[j].req == req;
    assert Began(ls + [l], j, tx) && (ls + [l])[j] == ls[j];
  }

  lemma AllocatedNow(init: seq<Label>, l: Label)
    requires l.Allocate?
    ensures BeganWith(init + [l], l.tx, l.req)
  {
    assert (init + [l])[|init|] == l && Began(init + [l], |init|, l.tx);
  }

  /** A step opens a transaction on its own request, or leaves the request of an open one alone. */
  lemma RequestStays(db: Db, l: Label, tx: nat)
    requires Enabled(db, l) && tx in Do(db, l).txs
    ensures if l.Allocate? && l.tx == tx then Do(db, l).txs[tx].req == l.req
            else tx in db.txs && Do(db, l).txs[tx].req == db.txs[tx].req
  {
  }

  /** An open transaction works on the request it was begun with. */
  lemma {:induction false} OpenSince(db: Db, ls: seq<Label>, tx: nat)
    requires CanRun(db, ls) && db.txs == map[] && tx in Run(db, ls).txs
    ensures BeganWith(ls, tx, Run(db, ls).txs[tx].req)
    decreases |ls|
  {
    if ls == [] {
      assert false;
    } else {
      var init, l := ls[..|ls| - 1], ls[|ls| - 1];
      LastStep(db, ls);
      RequestStays(Run(db, init), l, tx);
      assert ls == init + [l];
      if l.Allocate? && l.tx == tx {
        AllocatedNow(init, l);
      } else {
        OpenSince(db, init, tx);
        BeganLater(init, l, tx, Run(db, init).txs[tx].req);
      }
    }
  }

  /** The row `id` of the table is the request's, under the room's next seq, and the row did not exist before. */
  ghost predicate NewMessage(t: Tables, t': Tables, id: nat, req: Request) {
    && req.room in t.rooms && req.room in t'.rooms && t'.rooms[req.room].lastSeq == t.rooms[req.room].lastSeq + 1
    && id !in t.messages && id in t'.messages
    && SaysRequest(t'.messages[id], req, t.rooms[req.room].lastSeq + 1)
  }

  /** The row `oid` of the outbox is new, waits, and tells what the request said about message `id`. */
  ghost predicate NewEvent(t: Tables, t': Tables, id: nat, oid: nat, req: Request) {
    && oid !in t.outbox && Pending(t'.outbox, oid) && t'.outbox[oid].payload.Readable? && req.room in t.rooms
    && TellsRequest(t'.outbox[oid].payload.event, req, t.rooms[req.room].lastSeq + 1, id)
  }

  ghost predicate CommitsRequest(t: Tables, t': Tables, req: Request) {
    exists id, oid ::
      NewMessage(t, t', id, req) && NewEvent(t, t', id, oid, req)
      && t'.messages == t.messages[id := t'.messages[id]] && t'.outbox == t.outbox[oid := t'.outbox[oid]]
  }

  lemma CommitIsTheRequest(db: Db, tx: nat)
    requires Inv(db) && Enabled(db, Commit(tx))
    ensures CommitsRequest(db.t, Do(db, Commit(tx)).t, db.txs[tx].req)
  {
    assert TxOk(db.t, db.journal, db.txs[tx]);
    var id, oid := db.txs[tx].messageId, db.txs[tx].outboxId;
    var t' := Do(db, Commit(tx)).t;
    assert NewMessage(db.t, t', id, db.txs[tx].req) && NewEvent(db.t, t', id, oid, db.txs[tx].req);
  }

  /**
   * Whatever run comes before it, a commit makes one message row and one outbox row, and both say what the caller asked
   * for when the transaction began: room, sender, name, content and key, under the room's next seq.
   */
  lemma CommittedIsRequested(ls: seq<Label>, tx: nat) returns (req: Request)
    requires CanRun(EMPTY, ls) && Enabled(Run(EMPTY, ls), Commit(tx))
    ensures BeganWith(ls, tx, req)
    ensures CommitsRequest(Run(EMPTY, ls).t, Do(Run(EMPTY, ls), Commit(tx)).t, req)
  {
    var db := Run(EMPTY, ls);
    RunKeepsInv(EMPTY, ls);
    req := db.txs[tx].req;
    OpenSince(EMPTY, ls, tx);
    CommitIsTheRequest(db, tx);
  }
}
