// CreateMessage as the program runs it: four statements in one transaction, and the lookup after a rejected insert.

module Sending {
  import opened Schema
  import W = Writers

  /**
   * A statement that fails for a reason of its own: a lost connection, a cancelled context, a failing commit.
   * AfterCommit is the commit that takes effect while its reply is lost: the caller sees an error all the same.
   */
  datatype Fault = NoFault | AtAllocate | AtInsert | AtOutbox | AtCommit | AfterCommit | AtLookup

  datatype Outcome = Committed(id: nat) | NoRoom | DuplicateKey | Aborted

  /** The transaction gets as far as a commit that takes effect, unless an index stops it. */
  predicate Commits(fault: Fault) {
    fault.NoFault? || fault.AfterCommit? || fault.AtLookup?
  }

  datatype Result =
    | Created(id: nat, message: Message)
    | Existing(id: nat, message: Message)
    | NotFound
    | Failed

  predicate HasKey(messages: map<nat, Message>, req: Request, id: nat) {
    id in messages && SameKey(messages[id], req.room, req.sender, req.key)
  }

  predicate KeyTaken(messages: map<nat, Message>, req: Request) {
    exists id :: id in messages && HasKey(messages, req, id)
  }

  /** The database with the message, the room's new last_seq and the outbox row, and nothing else changed. */
  ghost function WithMessage(db: W.Db, req: Request): W.Db
    requires req.room in db.t.rooms
  {
    var t := db.t;
    var seqNo := t.rooms[req.room].lastSeq + 1;
    var payload := Readable(EventOf(req, seqNo, t.nextMessage));
    W.Db(Tables(t.rooms[req.room := t.rooms[req.room].(lastSeq := seqNo)],
                t.messages[t.nextMessage := MessageOf(req, seqNo)],
                t.outbox[t.nextOutbox := OutboxRow(payload, None, 0)], t.nextMessage + 1, t.nextOutbox + 1),
         map[], db.journal[t.nextOutbox := payload])
  }

  class Database {
    var rooms: map<nat, Room>
    var messages: map<nat, Message>
    var outbox: map<nat, OutboxRow>
    var nextMessage: nat
    var nextOutbox: nat
    ghost var journal: map<nat, Payload>

    ghost function View(): W.Db
      reads this
    {
      W.Db(Tables(rooms, messages, outbox, nextMessage, nextOutbox), map[], journal)
    }

    ghost predicate Valid()
      reads this
    {
      W.Reaches(W.EMPTY, View())
    }

    constructor ()
      ensures Valid() && View() == W.EMPTY
    {
      rooms, messages, outbox, nextMessage, nextOutbox, journal := map[], map[], map[], 1, 1, map[];
      new;
      W.ReachesItself(W.EMPTY);
    }

    predicate Live(room: nat)
      reads this
    {
      room in rooms && !rooms[room].deleted
    }

    /** The database transaction: four statements, all of them or none, whatever the caller is told. */
    method Transaction(req: Request, fault: Fault) returns (out: Outcome)
      modifies this
      ensures W.Reaches(old(View()), View())
      ensures out.NoRoom? <==> fault != AtAllocate && !old(Live(req.room))
      ensures out.DuplicateKey? <==>
                old(Live(req.room)) && fault != AtAllocate && fault != AtInsert
                && old(W.Rejected(View().t, req, rooms[req.room].lastSeq + 1))
      ensures out.Aborted? ==> fault != NoFault && fault != AtLookup
      ensures var stored := old(Live(req.room)) && Commits(fault) && !old(W.Rejected(View().t, req, rooms[req.room].lastSeq + 1));
              && (out.Committed? <==> stored && fault != AfterCommit)
              && (if stored then View() == WithMessage(old(View()), req)
                  else rooms == old(rooms) && messages == old(messages) && outbox == old(outbox))
      ensures out.Committed? ==> out.id == old(nextMessage)
    {
      W.ReachesItself(View());
      if fault == AtAllocate {
        return Aborted;
      }
      if req.room !in rooms || rooms[req.room].deleted {
        return NoRoom;
      }
      out := Store(req, rooms[req.room].lastSeq + 1, fault);
    }

    /** After the room's row is locked: the message row, the outbox row, and the commit. */
    method Store(req: Request, seqNo: nat, fault: Fault) returns (out: Outcome)
      requires Live(req.room) && seqNo == rooms[req.room].lastSeq + 1 && fault != AtAllocate
      modifies this
      ensures W.Reaches(old(View()), View())
      ensures out.DuplicateKey? <==> fault != AtInsert && old(W.Rejected(View().t, req, seqNo))
      ensures !out.NoRoom? && (out.Aborted? ==> fault != NoFault && fault != AtLookup)
      ensures var stored := Commits(fault) && !old(W.Rejected(View().t, req, seqNo));
              && (out.Committed? <==> stored && fault != AfterCommit)
              && (if stored then View() == WithMessage(old(View()), req)
                  else rooms == old(rooms) && messages == old(messages) && outbox == old(outbox))
      ensures out.Committed? ==> out.id == old(nextMessage)
    {
      W.ReachesItself(View());
      if fault == AtInsert {
        return Aborted;
      }
      if exists i :: i in messages && W.Collides(messages[i], req, seqNo) {
        RolledBack(View(), req);
        nextMessage := nextMessage + 1;
        return DuplicateKey;
      }
      if fault == AtOutbox || fault == AtCommit {
        RolledBack(View(), req);
        nextMessage, nextOutbox := nextMessage + 1, nextOutbox + 1;
        return Aborted;
      }
      Stored(View(), req);
      out := if fault == AfterCommit then Aborted else Committed(nextMessage);
      Commit(req, seqNo);
    }

    /** The three writes that become visible at commit. */
    method Commit(req: Request, seqNo: nat)
      requires req.room in rooms && seqNo == rooms[req.room].lastSeq + 1
      modifies this
      ensures View() == WithMessage(old(View()), req)
    {
      var payload := Readable(EventOf(req, seqNo, nextMessage));
      rooms := rooms[req.room := rooms[req.room].(lastSeq := seqNo)];
      messages := messages[nextMessage := MessageOf(req, seqNo)];
      outbox := outbox[nextOutbox := OutboxRow(payload, None, 0)];
      journal := journal[nextOutbox := payload];
      nextMessage, nextOutbox := nextMessage + 1, nextOutbox + 1;
    }

    /**
     * Stores a message and its outbox row, or hands back the message that already carries the client's key. An error
     * leaves the tables alone, except when the commit took effect and only its reply was lost.
     */
    method CreateMessage(req: Request, fault: Fault) returns (r: Result)
      requires Valid()
      modifies this
      ensures Valid()
      ensures r.NotFound? <==> fault != AtAllocate && !old(Live(req.room))
      ensures r.Failed? ==> fault != NoFault
      ensures r.Existing? <==>
                old(Live(req.room)) && old(KeyTaken(messages, req)) && fault != AtAllocate && fault != AtInsert && fault != AtLookup
      ensures r.Existing? ==> HasKey(messages, req, r.id) && messages[r.id] == r.message
      ensures r.Existing? ==> r.message.room == req.room && r.message.sender == req.sender && req.key.Some? && r.message.key == req.key
      ensures var stored := old(Live(req.room)) && Commits(fault) && !old(KeyTaken(messages, req));
              && (r.Created? <==> stored && fault != AfterCommit)
              && (if stored then OneMore(old(rooms), old(messages), old(outbox), rooms, messages, outbox, req,
                                         old(nextMessage), old(nextOutbox))
                  else rooms == old(rooms) && messages == old(messages) && outbox == old(outbox))
      ensures r.Created? ==> r.id == old(nextMessage) && r.message == messages[r.id]
    {
      ghost var db0 := View();
      FreshIds(db0, req);
      var out := Transaction(req, fault);
      W.ReachesOn(W.EMPTY, db0, View());
      match out
      case Committed(id) => r := Created(id, messages[id]);
      case NoRoom => r := NotFound;
      case Aborted => r := Failed;
      case DuplicateKey => r := LoadExisting(req, fault == AtLookup);
    }

    /** The lookup by (room, sender, client_msg_id). */
    method LoadExisting(req: Request, fails: bool) returns (r: Result)
      ensures if !fails && KeyTaken(messages, req)
              then r.Existing? && HasKey(messages, req, r.id) && messages[r.id] == r.message
              else r.Failed?
      ensures r.Existing? ==> r.message.room == req.room && r.message.sender == req.sender && req.key.Some? && r.message.key == req.key
    {
      if !fails && KeyTaken(messages, req) {
        var i :| i in messages && HasKey(messages, req, i);
        r := Existing(i, messages[i]);
      } else {
        r := Failed;
      }
    }
  }

  /**
   * One new message at the room's next seq, with the request's fields, its outbox row with an event that tells them, the
   * allocator moved by one, and nothing else.
   */
  ghost predicate OneMore(rooms: map<nat, Room>, messages: map<nat, Message>, outbox: map<nat, OutboxRow>,
                          rooms': map<nat, Room>, messages': map<nat, Message>, outbox': map<nat, OutboxRow>,
                          req: Request, id: nat, oid: nat)
  {
    && req.room in rooms && id !in messages && oid !in outbox
    && var seqNo := rooms[req.room].lastSeq + 1;
    && rooms' == rooms[req.room := rooms[req.room].(lastSeq := seqNo)]
    && id in messages' && messages' == messages[id := messages'[id]] && SaysRequest(messages'[id], req, seqNo)
    && oid in outbox' && outbox' == outbox[oid := outbox'[oid]]
    && outbox'[oid].publishedAt.None? && outbox'[oid].attempts == 0
    && outbox'[oid].payload.Readable? && TellsRequest(outbox'[oid].payload.event, req, seqNo, id)
  }

  /** The ids are new, and the (room, seq) index cannot be what rejects the next seq of a room. */
  lemma FreshIds(db: W.Db, req: Request)
    requires W.Reaches(W.EMPTY, db)
    ensures db.t.nextMessage !in db.t.messages && db.t.nextOutbox !in db.t.outbox
    ensures req.room in db.t.rooms ==>
              (W.Rejected(db.t, req, db.t.rooms[req.room].lastSeq + 1) <==> KeyTaken(db.t.messages, req))
  {
    W.ReachableIsConsistent(db);
    if req.room in db.t.rooms && KeyTaken(db.t.messages, req) {
      var i :| i in db.t.messages && HasKey(db.t.messages, req, i);
      assert W.Collides(db.t.messages[i], req, db.t.rooms[req.room].lastSeq + 1);
    }
  }

  /** A transaction up to its commit, on its own. */
  lemma Prepared(db: W.Db, req: Request)
    requires db.txs == map[] && W.Enabled(db, W.Allocate(0, req))
    requires !W.Rejected(db.t, req, db.t.rooms[req.room].lastSeq + 1)
    ensures var t := db.t;
            W.Reaches(db, db.(t := t.(nextMessage := t.nextMessage + 1, nextOutbox := t.nextOutbox + 1),
                              txs := map[0 := W.Ready(req, t.rooms[req.room].lastSeq + 1, t.nextMessage, t.nextOutbox)]))
  {
    var db1 := W.Do(db, W.Allocate(0, req));
    var db2 := W.Do(db1, W.Insert(0));
    W.ReachesItself(db);
    W.ReachesStep(db, db, W.Allocate(0, req));
    W.ReachesStep(db, db1, W.Insert(0));
    W.ReachesStep(db, db2, W.WriteOutbox(0));
    assert W.Do(db2, W.WriteOutbox(0)).txs
        == map[0 := W.Ready(req, db.t.rooms[req.room].lastSeq + 1, db.t.nextMessage, db.t.nextOutbox)];
  }

  /** A transaction that is rolled back leaves only a gap in the id sequences. */
  lemma RolledBack(db: W.Db, req: Request)
    requires db.txs == map[] && W.Enabled(db, W.Allocate(0, req))
    ensures var rejected := W.Rejected(db.t, req, db.t.rooms[req.room].lastSeq + 1);
            W.Reaches(db, db.(t := db.t.(nextMessage := db.t.nextMessage + 1,
                                         nextOutbox := db.t.nextOutbox + if rejected then 0 else 1)))
  {
    var t, seqNo := db.t, db.t.rooms[req.room].lastSeq + 1;
    if W.Rejected(t, req, seqNo) {
      W.ReachesItself(db);
      W.ReachesStep(db, db, W.Allocate(0, req));
      W.ReachesStep(db, W.Do(db, W.Allocate(0, req)), W.Duplicate(0));
      assert W.Do(db, W.Allocate(0, req)).txs - {0} == map[];
    } else {
      Prepared(db, req);
      var db' := db.(t := t.(nextMessage := t.nextMessage + 1, nextOutbox := t.nextOutbox + 1),
                     txs := map[0 := W.Ready(req, seqNo, t.nextMessage, t.nextOutbox)]);
      W.ReachesStep(db, db', W.Rollback(0));
      assert db'.txs - {0} == map[];
    }
  }

  lemma Stored(db: W.Db, req: Request)
    requires db.txs == map[] && W.Enabled(db, W.Allocate(0, req))
    requires !W.Rejected(db.t, req, db.t.rooms[req.room].lastSeq + 1)
    ensures W.Reaches(db, WithMessage(db, req))
  {
    Prepared(db, req);
    var t := db.t;
    var db' := db.(t := t.(nextMessage := t.nextMessage + 1, nextOutbox := t.nextOutbox + 1),
                   txs := map[0 := W.Ready(req, t.rooms[req.room].lastSeq + 1, t.nextMessage, t.nextOutbox)]);
    W.ReachesStep(db, db', W.Commit(0));
    assert db'.txs - {0} == map[];
  }

  /** What a client knows after a list of answers: every answer that shows a message shows this one. */
  predicate AllShow(answers: seq<Result>, id: nat) {
    forall k :: 0 <= k < |answers| && (answers[k].Created? || answers[k].Existing?) ==> answers[k].id == id
  }

  /** The tables as the first attempt found them, or with the one message of the request. */
  ghost predicate AtMostOnce(rooms: map<nat, Room>, messages: map<nat, Message>, outbox: map<nat, OutboxRow>,
                             db: Database, req: Request, id: nat, oid: nat)
    reads db
  {
    || (db.rooms == rooms && db.messages == messages && db.outbox == outbox)
    || (!KeyTaken(messages, req) && OneMore(rooms, messages, outbox, db.rooms, db.messages, db.outbox, req, id, oid))
  }

  /**
   * A client that sends one request again and again, whatever goes wrong each time, even a commit whose reply is lost:
   * at most one message, one seq and one outbox row come of it, and every answer that shows a message shows that one.
   */
  method Retry(db: Database, req: Request, faults: seq<Fault>)
    returns (answers: seq<Result>, ghost id: nat, ghost oid: nat)
    requires db.Valid() && req.key.Some?
    modifies db
    ensures db.Valid() && |answers| == |faults| && AllShow(answers, id)
    ensures AtMostOnce(old(db.rooms), old(db.messages), old(db.outbox), db, req, id, oid)
    ensures (exists k :: 0 <= k < |answers| && (answers[k].Created? || answers[k].Existing?)) ==>
              HasKey(db.messages, req, id)
    ensures forall k :: 0 <= k < |answers| && answers[k].Failed? ==> !faults[k].NoFault?
  {
    answers, id, oid := [], 0, 0;
    if KeyTaken(db.messages, req) {
      id :| id in db.messages && HasKey(db.messages, req, id);
    }
    while |answers| < |faults|
      invariant db.Valid() && |answers| <= |faults| && AllShow(answers, id)
      invariant AtMostOnce(old(db.rooms), old(db.messages), old(db.outbox), db, req, id, oid)
      invariant if KeyTaken(db.messages, req) then HasKey(db.messages, req, id)
                else forall k :: 0 <= k < |answers| ==> !answers[k].Created? && !answers[k].Existing?
      invariant !KeyTaken(db.messages, req) ==>
                  db.rooms == old(db.rooms) && db.messages == old(db.messages) && db.outbox == old(db.outbox)
      invariant forall k :: 0 <= k < |answers| && answers[k].Failed? ==> !faults[k].NoFault?
    {
      ghost var taken, newId, newOid := KeyTaken(db.messages, req), db.nextMessage, db.nextOutbox;
      var r := db.CreateMessage(req, faults[|answers|]);
      OneKey(db.View(), req);
      if !taken && db.messages != old(db.messages) {
        assert HasKey(db.messages, req, newId);
        id, oid := newId, newOid;
      }
      answers := answers + [r];
    }
  }

  /** In every reachable state a key belongs to one message. */
  lemma OneKey(db: W.Db, req: Request)
    requires W.Reaches(W.EMPTY, db)
    ensures forall i, j | HasKey(db.t.messages, req, i) && HasKey(db.t.messages, req, j) :: i == j
  {
    W.ReachableIsConsistent(db);
  }

  /** CreateConversation's list of members: the creator first, then each other id once. */
  method MemberList(creator: nat, memberIds: seq<nat>) returns (ids: seq<nat>)
    ensures |ids| > 0 && ids[0] == creator
    ensures forall i, j :: 0 <= i < j < |ids| ==> ids[i] != ids[j]
    ensures forall u :: u in ids <==> u == creator || u in memberIds
  {
    ids := [creator];
    var seen := {creator};
    for k := 0 to |memberIds|
      invariant |ids| > 0 && ids[0] == creator
      invariant forall u :: u in seen <==> u in ids
      invariant forall i, j :: 0 <= i < j < |ids| ==> ids[i] != ids[j]
      invariant forall u :: u in ids <==> u == creator || u in memberIds[..k]
    {
      var id := memberIds[k];
      assert memberIds[..k + 1] == memberIds[..k] + [id];
      if id !in seen {
        seen := seen + {id};
        ids := ids + [id];
      }
    }
    assert memberIds[..|memberIds|] == memberIds;
  }
}
