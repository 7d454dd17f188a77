// What the pipeline promises end to end, over every run of Pipeline.

module Guarantees {
  import opened Schema
  import W = Writers
  import D = Delivery
  import R = Retention
  import U = Unread
  import P = Pipeline

  predicate OnStream(log: seq<D.Entry>, oid: nat, payload: Payload) {
    exists i :: 0 <= i < |log| && log[i].outboxId == oid && log[i].payload == payload
  }

  /** The message's row still waits in the outbox, or the stream has taken it. */
  ghost predicate Safe(s: P.State, id: nat, m: Message) {
    exists oid :: oid in s.db.journal && s.db.journal[oid].Readable? && Describes(s.db.journal[oid].event, id, m)
                  && (Pending(s.db.t.outbox, oid) || OnStream(s.d.stream.log, oid, s.db.journal[oid]))
  }

  /**
   * No loss, in every run: crashes at any point, lost publish acks, failed marks, several relays at once and the
   * janitor included, no committed message is ever both gone from the outbox's waiting rows and unknown to the stream.
   */
  lemma NoLoss(c: D.Config, ls: seq<P.Label>, id: nat)
    requires P.CanRun(c, P.EMPTY, ls) && id in P.Run(c, P.EMPTY, ls).db.t.messages
    ensures var s := P.Run(c, P.EMPTY, ls); Safe(s, id, s.db.t.messages[id])
  {
    P.EveryRunIsConsistent(c, ls);
    SafeInState(c, P.Run(c, P.EMPTY, ls), id);
  }

  lemma SafeInState(c: D.Config, s: P.State, id: nat)
    requires P.Inv(c, s) && id in s.db.t.messages
    ensures Safe(s, id, s.db.t.messages[id])
  {
    assert W.Told(s.db.journal, id, s.db.t.messages[id]);
    var oid :| oid in s.db.journal && s.db.journal[oid].Readable? && Describes(s.db.journal[oid].event, id, s.db.t.messages[id]);
    if !Pending(s.db.t.outbox, oid) {
      AcceptedIsOnStream(c, s, oid);
    }
  }

  lemma AcceptedIsOnStream(c: D.Config, s: P.State, oid: nat)
    requires P.Inv(c, s) && P.Accepted(s.d, oid) && oid in s.db.journal && oid > 0
    ensures OnStream(s.d.stream.log, oid, s.db.journal[oid])
  {
    var log := s.d.stream.log;
    var i :| 0 <= i < |log| && log[i].outboxId == oid;
    assert log[i].payload == s.db.journal[oid];
  }

  /** Republishing inside the duplicate window adds nothing: two copies of one row are at least a window apart. */
  lemma CopiesAreAWindowApart(c: D.Config, ls: seq<P.Label>, i: nat, j: nat)
    requires P.CanRun(c, P.EMPTY, ls)
    requires var log := P.Run(c, P.EMPTY, ls).d.stream.log; i < j < |log| && log[i].outboxId == log[j].outboxId > 0
    ensures var log := P.Run(c, P.EMPTY, ls).d.stream.log; log[i].at + c.window <= log[j].at && log[i].payload == log[j].payload
  {
    P.EveryRunIsConsistent(c, ls);
  }

  predicate SeqAt(e: D.Entry, room: nat, n: nat) {
    e.payload.Readable? && e.payload.event.room == room && e.payload.event.seqNo == n
  }

  predicate TakenBefore(log: seq<D.Entry>, i: nat, room: nat, n: nat) {
    exists j :: 0 <= j < i && j < |log| && SeqAt(log[j], room, n)
  }

  /**
   * In-room order: when a message enters the stream, every message of its room with a lower seq is already there.
   * It needs no assumption on how many relays drain at once.
   */
  lemma InRoomOrder(c: D.Config, ls: seq<P.Label>, i: nat, room: nat, seqNo: nat, n: nat)
    requires P.CanRun(c, P.EMPTY, ls)
    requires var log := P.Run(c, P.EMPTY, ls).d.stream.log; i < |log| && SeqAt(log[i], room, seqNo)
    requires 1 <= n < seqNo
    ensures TakenBefore(P.Run(c, P.EMPTY, ls).d.stream.log, i, room, n)
  {
    P.EveryRunIsConsistent(c, ls);
    OrderInState(c, P.Run(c, P.EMPTY, ls), i, room, seqNo, n);
  }

  lemma OrderInState(c: D.Config, s: P.State, i: nat, room: nat, seqNo: nat, n: nat)
    requires P.Inv(c, s) && i < |s.d.stream.log| && SeqAt(s.d.stream.log[i], room, seqNo) && 1 <= n < seqNo
    ensures TakenBefore(s.d.stream.log, i, room, n)
  {
    var log := s.d.stream.log;
    var e := log[i].payload.event;
    assert W.TellsTruth(s.db.t.messages, e);
    assert W.Holds(s.db.t, room, n);
    var id :| id in s.db.t.messages && s.db.t.messages[id].room == room && s.db.t.messages[id].seqNo == n;
    assert W.Told(s.db.journal, id, s.db.t.messages[id]);
    var o :| o in s.db.journal && s.db.journal[o].Readable? && Describes(s.db.journal[o].event, id, s.db.t.messages[id]);
    assert P.Before(s.db.journal, o, e);
    assert P.SeenBefore(log, i, o);
    var j :| 0 <= j < i && j < |log| && log[j].outboxId == o;
    assert SeqAt(log[j], room, n);
  }

  predicate Taken(log: seq<D.Entry>, room: nat, n: nat) {
    exists j :: 0 <= j < |log| && SeqAt(log[j], room, n)
  }

  /** The seqs of a room that the stream ever took are a prefix 1..k of the room. */
  lemma TakenIsAPrefix(c: D.Config, ls: seq<P.Label>, room: nat) returns (k: nat)
    requires P.CanRun(c, P.EMPTY, ls) && room in P.Run(c, P.EMPTY, ls).db.t.rooms
    ensures var s := P.Run(c, P.EMPTY, ls);
            k <= s.db.t.rooms[room].lastSeq && (forall n: nat :: Taken(s.d.stream.log, room, n) <==> 1 <= n <= k)
  {
    P.EveryRunIsConsistent(c, ls);
    var s := P.Run(c, P.EMPTY, ls);
    forall n: nat | Taken(s.d.stream.log, room, n)
      ensures 1 <= n <= s.db.t.rooms[room].lastSeq && (forall m: nat :: 1 <= m < n ==> Taken(s.d.stream.log, room, m))
    {
      TakenDownward(c, s, room, n);
    }
    k := PrefixLength(s.d.stream.log, room, s.db.t.rooms[room].lastSeq);
  }

  lemma TakenDownward(c: D.Config, s: P.State, room: nat, n: nat)
    requires P.Inv(c, s) && room in s.db.t.rooms && Taken(s.d.stream.log, room, n)
    ensures 1 <= n <= s.db.t.rooms[room].lastSeq && (forall m: nat :: 1 <= m < n ==> Taken(s.d.stream.log, room, m))
  {
    var log := s.d.stream.log;
    var j :| 0 <= j < |log| && SeqAt(log[j], room, n);
    assert W.TellsTruth(s.db.t.messages, log[j].payload.event);
    forall m: nat | 1 <= m < n ensures Taken(log, room, m) {
      OrderInState(c, s, j, room, n, m);
    }
  }

  lemma PrefixLength(log: seq<D.Entry>, room: nat, last: nat) returns (k: nat)
    requires forall n: nat :: Taken(log, room, n) ==>
               1 <= n <= last && forall m: nat :: 1 <= m < n ==> Taken(log, room, m)
    ensures k <= last && forall n: nat :: Taken(log, room, n) <==> 1 <= n <= k
  {
    k := 0;
    while k < last && Taken(log, room, k + 1)
      invariant k <= last && forall m: nat :: 1 <= m <= k ==> Taken(log, room, m)
    {
      k := k + 1;
    }
    assert forall n: nat :: Taken(log, room, n) && k + 1 < n ==> Taken(log, room, k + 1);
  }

  // ----- Counting, end to end -----

  /** The run's assumption: no row is taken by the stream again more than `republish` after its message was counted. */
  ghost predicate Timely(c: D.Config, s: P.State, ls: seq<P.Label>)
    requires P.CanRun(c, s, ls)
    decreases |ls|
  {
    ls != [] ==>
      (ls[0].Take? ==> R.Timely(c, s.d, D.Accept(ls[0].p.id, ls[0].p.payload))) && Timely(c, P.Do(c, s, ls[0]), ls[1..])
  }

  /** A run of the pipeline, seen from the stream, is a run of Delivery. */
  lemma {:induction false} Projection(c: D.Config, s: P.State, ls: seq<P.Label>) returns (ds: seq<D.Label>)
    requires P.CanRun(c, s, ls) && Timely(c, s, ls)
    ensures R.CanRun(c, s.d, ds) && R.Run(c, s.d, ds) == P.Run(c, s, ls).d
    decreases |ls|
  {
    if ls == [] {
      ds := [];
    } else {
      var rest := Projection(c, P.Do(c, s, ls[0]), ls[1..]);
      if ls[0].Take? || ls[0].Broker? {
        ds := [if ls[0].Take? then D.Accept(ls[0].p.id, ls[0].p.payload) else ls[0].l] + rest;
        assert ds[1..] == rest;
      } else {
        ds := rest;
      }
    }
  }

  /** A counted claim is a committed message, counted with its own room, sender and seq. */
  ghost predicate ClaimsCommitted(messages: map<nat, Message>, op: U.Op) {
    op.Claimed? && op.messageId in messages
    && messages[op.messageId].room == op.room && messages[op.messageId].sender == op.sender && messages[op.messageId].seqNo == op.seqNo
  }

  /**
   * Exactly once, end to end: in every timely run each committed message is counted at most once, only committed
   * messages are counted, and a user's badge is the number of distinct messages counted since their last mark-read.
   */
  lemma BadgeIsExact(c: D.Config, ls: seq<P.Label>, room: nat, user: nat)
    requires R.LongEnough(c) && P.CanRun(c, P.EMPTY, ls) && Timely(c, P.EMPTY, ls)
    ensures var s := P.Run(c, P.EMPTY, ls); var l := s.d.ledger;
            && U.ClaimedOnce(l.trace)
            && (forall k :: 0 <= k < |l.trace| && l.trace[k].Claimed? ==> ClaimsCommitted(s.db.t.messages, l.trace[k]))
            && U.Row(l.unread.counters, room, user).count == |U.UnseenMessages(l.trace, room, user)|
  {
    var ds := Projection(c, P.EMPTY, ls);
    R.CountedExactlyOnce(c, ds, room, user);
    P.EveryRunIsConsistent(c, ls);
    ClaimsInState(c, P.Run(c, P.EMPTY, ls));
  }

  lemma ClaimsInState(c: D.Config, s: P.State)
    requires P.Inv(c, s)
    ensures var trace := s.d.ledger.trace;
            forall k :: 0 <= k < |trace| && trace[k].Claimed? ==> ClaimsCommitted(s.db.t.messages, trace[k])
  {
    var trace := s.d.ledger.trace;
    forall k | 0 <= k < |trace| && trace[k].Claimed? ensures ClaimsCommitted(s.db.t.messages, trace[k]) {
      ClaimIsCommitted(s.db.t.messages, s.db.journal, s.d.stream.log, trace[k]);
    }
  }

  lemma ClaimIsCommitted(messages: map<nat, Message>, journal: map<nat, Payload>, log: seq<D.Entry>, op: U.Op)
    requires D.FromLog(log, op) && P.StreamTrue(journal, log) && W.Truthful(messages, journal)
    ensures ClaimsCommitted(messages, op)
  {
    var i :| 0 <= i < |log| && log[i].payload.Readable? && D.Records(op, log[i].payload.event);
    assert W.TellsTruth(messages, log[i].payload.event);
  }

  /** The outbox is drained and the consumer is done with every entry: acked, or Term'd. */
  ghost predicate Quiet(s: P.State) {
    && (forall oid :: oid in s.db.t.outbox ==> !Pending(s.db.t.outbox, oid))
    && (forall i :: 0 <= i < |s.d.stream.log| ==> i in s.d.cons.acked || i in s.d.cons.termed)
  }

  predicate AllAcked(d: D.State) {
    forall i :: 0 <= i < |d.stream.log| ==> i in d.cons.acked
  }

  /** A copy of the message is in the dead-letter stream, and its entry was never acked. */
  predicate DeadLettered(d: D.State, id: nat) {
    exists i :: 0 <= i < |d.stream.log| && d.stream.log[i].payload.Readable? && d.stream.log[i].payload.event.messageId == id
                && i in d.cons.dead && i !in d.cons.acked
  }

  /**
   * Conservation: once the pipeline is quiet, every committed message has been counted, or is in the dead letters, and
   * none has been counted twice.
   */
  lemma QuietMeansSettled(c: D.Config, ls: seq<P.Label>, id: nat)
    requires R.LongEnough(c) && P.CanRun(c, P.EMPTY, ls) && Timely(c, P.EMPTY, ls)
    requires var s := P.Run(c, P.EMPTY, ls); Quiet(s) && id in s.db.t.messages
    ensures var d := P.Run(c, P.EMPTY, ls).d;
            U.ClaimedOnce(d.ledger.trace) && (D.InTrace(d.ledger.trace, id) || DeadLettered(d, id))
  {
    BadgeIsExact(c, ls, 0, 0);
    NoLoss(c, ls, id);
    P.EveryRunIsConsistent(c, ls);
    QuietInState(c, P.Run(c, P.EMPTY, ls), id);
  }

  /** With every entry acked, every committed message has been counted, and exactly once. */
  lemma QuietMeansCounted(c: D.Config, ls: seq<P.Label>, id: nat)
    requires R.LongEnough(c) && P.CanRun(c, P.EMPTY, ls) && Timely(c, P.EMPTY, ls)
    requires var s := P.Run(c, P.EMPTY, ls); Quiet(s) && AllAcked(s.d) && id in s.db.t.messages
    ensures var trace := P.Run(c, P.EMPTY, ls).d.ledger.trace; U.ClaimedOnce(trace) && D.InTrace(trace, id)
  {
    QuietMeansSettled(c, ls, id);
  }

  lemma QuietInState(c: D.Config, s: P.State, id: nat)
    requires P.Inv(c, s) && Quiet(s) && id in s.db.t.messages && Safe(s, id, s.db.t.messages[id])
    ensures D.InTrace(s.d.ledger.trace, id) || DeadLettered(s.d, id)
  {
    var log := s.d.stream.log;
    var oid :| oid in s.db.journal && s.db.journal[oid].Readable? && Describes(s.db.journal[oid].event, id, s.db.t.messages[id])
               && OnStream(log, oid, s.db.journal[oid]);
    var i :| 0 <= i < |log| && log[i].outboxId == oid && log[i].payload == s.db.journal[oid];
    if i in s.d.cons.acked {
      assert D.Counts(log, s.d.ledger.first, i);
    } else {
      assert i in s.d.cons.termed && i in s.d.cons.dead;
    }
  }

  /** Settlement, in every run: acked means counted, Term'd means copied to the dead letters, and no entry is both. */
  lemma Settlement(c: D.Config, ls: seq<P.Label>, i: nat)
    requires P.CanRun(c, P.EMPTY, ls)
    ensures var d := P.Run(c, P.EMPTY, ls).d;
            && (i in d.cons.acked ==> i < |d.stream.log| && d.stream.log[i].payload.Readable?
                                      && D.InTrace(d.ledger.trace, d.stream.log[i].payload.event.messageId))
            && (i in d.cons.termed ==> i in d.cons.dead && i !in d.cons.acked)
  {
    P.EveryRunIsConsistent(c, ls);
    var d := P.Run(c, P.EMPTY, ls).d;
    assert i in d.cons.acked ==> D.Counts(d.stream.log, d.ledger.first, i);
  }

  // ----- The advisory lock -----

  ghost predicate OnlyHolderLeads(s: P.State) {
    forall n: nat :: !P.RelayOf(s, n).Follower? ==> s.lock == Some(n)
  }

  /** As long as no lock is lost behind a relay's back, at most one relay drains. */
  lemma {:induction false} OneLeader(c: D.Config, s: P.State, ls: seq<P.Label>)
    requires OnlyHolderLeads(s) && P.CanRun(c, s, ls) && P.LoseLock !in ls
    ensures OnlyHolderLeads(P.Run(c, s, ls))
    decreases |ls|
  {
    if ls == [] {
    } else {
      assert ls[0] != P.LoseLock;
      OneLeaderStep(c, s, ls[0]);
      OneLeader(c, P.Do(c, s, ls[0]), ls[1..]);
    }
  }

  lemma OneLeaderStep(c: D.Config, s: P.State, l: P.Label)
    requires OnlyHolderLeads(s) && P.Enabled(c, s, l) && !l.LoseLock?
    ensures OnlyHolderLeads(P.Do(c, s, l))
  {
    var s' := P.Do(c, s, l);
    forall n: nat | !P.RelayOf(s', n).Follower? ensures s'.lock == Some(n) {
      assert !P.RelayOf(s, n).Follower? ==> s.lock == Some(n);
    }
  }
}
