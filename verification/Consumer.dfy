// The unread tables and handleUnread as the program runs them, proved to be a run of Delivery's steps.

module Consumer {
  import opened Schema
  import U = Unread
  import D = Delivery
  import R = Retention
  import Sets

  /** consumed_messages, unread_counters and conversation_members. */
  class UnreadTables {
    var inbox: map<nat, nat>
    var counters: map<(nat, nat), U.Counter>
    var members: map<nat, set<nat>>

    constructor ()
      ensures View() == U.State(map[], map[], map[])
    {
      inbox, counters, members := map[], map[], map[];
    }

    function View(): U.State
      reads this
    {
      U.State(inbox, counters, members)
    }

    /** One transaction: the claim, and the upsert over the room if the claim was new. */
    method ApplyUnread(e: Event, now: nat) returns (changed: nat)
      modifies this
      ensures (View(), changed) == U.Apply(old(View()), e, now)
      ensures members == old(members) && U.CountedOnce(old(View()), e, now, View(), changed)
    {
      U.ApplyCounts(View(), e, now);
      if e.messageId in inbox {
        return 0;
      }
      var readers := (if e.room in members then members[e.room] else {}) - {e.sender};
      inbox := inbox[e.messageId := now];
      counters := U.Upsert(counters, e.room, readers, e.seqNo);
      changed := |readers|;
    }

    method MarkConversationRead(room: nat, user: nat)
      modifies this
      ensures View() == U.MarkRead(old(View()), room, user)
      ensures inbox == old(inbox) && members == old(members)
      ensures forall r: nat, u: nat :: U.Row(counters, r, u)
                == if r == room && u == user then U.Counter(0, U.Row(old(counters), r, u).lastSeq) else U.Row(old(counters), r, u)
    {
      var last := if (room, user) in counters then counters[(room, user)].lastSeq else 0;
      counters := counters[(room, user) := U.Counter(0, last)];
    }

    /** Forgets old claims: a claim stays exactly if it was made at `t` or later. */
    method DeleteConsumedBefore(t: nat) returns (deleted: nat)
      modifies this
      ensures View() == old(View()).(inbox := U.Forget(old(inbox), t)) && |inbox| + deleted == |old(inbox)|
      ensures forall m :: m in inbox <==> m in old(inbox) && old(inbox)[m] >= t
      ensures forall m :: m in inbox ==> inbox[m] == old(inbox)[m]
    {
      var kept := U.Forget(inbox, t);
      assert kept.Keys <= inbox.Keys;
      Sets.SubsetSize(kept.Keys, inbox.Keys);
      deleted := |inbox| - |kept|;
      inbox := kept;
    }

    /** The badges of one user: the rooms with something unread, and only those. */
    method UnreadForUser(user: nat) returns (badges: map<nat, nat>)
      ensures forall room :: room in badges <==> U.Row(counters, room, user).count > 0
      ensures forall room :: room in badges ==> badges[room] == U.Row(counters, room, user).count
    {
      badges := map[];
      var rows := set key | key in counters && key.1 == user && counters[key].count > 0;
      while rows != {}
        invariant forall key :: key in rows ==> key in counters && key.1 == user && counters[key].count > 0
        invariant forall room :: U.Row(counters, room, user).count > 0 ==> (room, user) in rows || room in badges
        invariant forall room :: room in badges ==> badges[room] == U.Row(counters, room, user).count > 0
        decreases rows
      {
        var key :| key in rows;
        rows := rows - {key};
        badges := badges[key.0 := counters[key].count];
      }
    }
  }

  /** How ApplyUnread ends for the caller: an error can come before the commit or after it. */
  datatype Attempt = Works | FailsBefore | FailsAfter

  datatype Verdict = Acked | AckLost | Nak(delay: nat) | Termed

  const ACK_WAIT := 30_000
  const SECOND := 1_000

  /** The run has reached a state where handler `h` is at `w` and the tables are as in `l`. */
  ghost predicate Holding(c: D.Config, s0: D.State, ls: seq<D.Label>, s: D.State, h: nat, w: D.Handler, l: D.Ledger) {
    R.Ran(c, s0, ls, s) && h in s.cons.handlers && s.cons.handlers[h] == w && s.ledger == l && s.stream == s0.stream && s.now == s0.now
  }

  ghost predicate Finished(c: D.Config, s0: D.State, ls: seq<D.Label>, s: D.State, h: nat, l: D.Ledger) {
    R.Ran(c, s0, ls, s) && h !in s.cons.handlers && s.ledger == l
  }

  lemma Receives(c: D.Config, s0: D.State, h: nat, i: nat) returns (ls: seq<D.Label>, s: D.State)
    requires D.Enabled(c, s0, D.Deliver(h, i))
    ensures Holding(c, s0, ls, s, h,
                    if s0.stream.log[i].payload.Junk? then D.Dying(i) else D.Working(i, D.Given(s0.cons, i) + 1, s0.now), s0.ledger)
  {
    ls, s := R.Next(c, s0, [], s0, D.Deliver(h, i));
  }

  lemma WorksOn(c: D.Config, s0: D.State, ls: seq<D.Label>, s: D.State, h: nat, w: D.Handler, committed: bool, reported: bool)
    returns (ls': seq<D.Label>, s': D.State)
    requires Holding(c, s0, ls, s, h, w, s0.ledger) && w.Working? && w.since == s0.now && (reported ==> committed)
    requires w.index < |s0.stream.log| && s0.stream.log[w.index].payload.Readable?
    ensures var l := if committed then D.Claim(s0.ledger, s0.stream.log[w.index].payload.event, s0.now) else s0.ledger;
            if reported then Holding(c, s0, ls', s', h, D.Counted(w.index), l)
            else if w.delivered >= c.maxDeliver then Holding(c, s0, ls', s', h, D.Dying(w.index), l)
            else Finished(c, s0, ls', s', h, l)
  {
    ls', s' := R.Next(c, s0, ls, s, D.Work(h, committed, reported));
  }

  lemma Acks(c: D.Config, s0: D.State, ls: seq<D.Label>, s: D.State, h: nat, i: nat, l: D.Ledger, lost: bool)
    returns (ls': seq<D.Label>, s': D.State)
    requires Holding(c, s0, ls, s, h, D.Counted(i), l)
    ensures Finished(c, s0, ls', s', h, l) && (!lost ==> i in s'.cons.acked || i in s'.cons.termed)
  {
    ls', s' := R.Next(c, s0, ls, s, D.Ack(h, lost));
  }

  lemma Buries(c: D.Config, s0: D.State, ls: seq<D.Label>, s: D.State, h: nat, i: nat, l: D.Ledger, copy: D.CopyResult)
    returns (ls': seq<D.Label>, s': D.State)
    requires Holding(c, s0, ls, s, h, D.Dying(i), l)
    ensures Finished(c, s0, ls', s', h, l)
    ensures copy.Stored? ==> i in s'.cons.dead && (i in s'.cons.termed || i in s'.cons.acked)
  {
    ls', s' := R.Next(c, s0, ls, s, D.Copy(h, copy));
    if copy.Stored? {
      ls', s' := R.Next(c, s0, ls', s', D.Term(h, false));
    }
  }

  /** The claim's trail in the history does not change what it does to the tables. */
  lemma ClaimIsApply(l: D.Ledger, e: Event, now: nat)
    ensures D.Claim(l, e, now).unread == U.Apply(l.unread, e, now).0
  {
  }

  /** What a dead letter keeps: the message and how often it was delivered. */
  datatype DeadCopy = DeadCopy(payload: Payload, delivered: nat)

  /** The handler of one node, with its counters, and what it wrote to the dead-letter stream. */
  class Handler {
    const tables: UnreadTables
    const maxDeliver: nat
    var redelivered: nat
    var unreadDone: nat
    var deadLettered: nat
    var dead: seq<DeadCopy>

    constructor (tables: UnreadTables, maxDeliver: nat)
      ensures this.tables == tables && this.maxDeliver == maxDeliver && redelivered == unreadDone == deadLettered == 0 && dead == []
    {
      this.tables, this.maxDeliver := tables, maxDeliver;
      redelivered, unreadDone, deadLettered, dead := 0, 0, 0, [];
    }

    /**
     * Moves a message out of the way. It is Term'd only with its copy already at the end of the dead-letter stream; with
     * an error, which can come after the copy was stored, it is Nak'd. No copy is ever removed.
     */
    method DeadLetter(payload: Payload, delivered: nat, result: D.CopyResult) returns (v: Verdict)
      modifies this`deadLettered, this`dead
      ensures v.Termed? ==> dead == old(dead) + [DeadCopy(payload, delivered)]
      ensures v.Termed? || v == Nak(30_000)
      ensures v.Termed? <==> result.Stored?
      ensures old(dead) <= dead && (dead == old(dead) <==> result.Refused?)
      ensures 0 <= deadLettered - old(deadLettered) <= |dead| - |old(dead)| <= 1
      ensures deadLettered > old(deadLettered) <==> v.Termed?
    {
      if !result.Refused? {
        dead := dead + [DeadCopy(payload, delivered)];
      }
      if !result.Stored? {
        return Nak(ACK_WAIT);
      }
      deadLettered := deadLettered + 1;
      v := Termed;
    }

    /** The durable work for one message, as it ends for the handler. */
    method Apply(e: Event, now: nat, attempt: Attempt) returns (ok: bool)
      modifies tables
      ensures ok == attempt.Works?
      ensures tables.View() == if attempt.FailsBefore? then old(tables.View()) else U.Apply(old(tables.View()), e, now).0
    {
      if !attempt.FailsBefore? {
        var changed := tables.ApplyUnread(e, now);
      }
      ok := attempt.Works?;
    }

    /** After a failed apply: another delivery later, or the dead letters when this was the last one. */
    method NotApplied(payload: Payload, delivered: nat, copy: D.CopyResult,
                      ghost c: D.Config, ghost s0: D.State, ghost ls0: seq<D.Label>, ghost s1: D.State, ghost h: nat, ghost i: nat,
                      ghost l: D.Ledger)
      returns (v: Verdict, ghost ls: seq<D.Label>, ghost s: D.State)
      requires if delivered >= maxDeliver then Holding(c, s0, ls0, s1, h, D.Dying(i), l) else Finished(c, s0, ls0, s1, h, l)
      modifies this`deadLettered, this`dead
      ensures Finished(c, s0, ls, s, h, l)
      ensures v.Termed? <==> delivered >= maxDeliver && copy.Stored?
      ensures v.Termed? ==> i in s.cons.dead && dead == old(dead) + [DeadCopy(payload, delivered)]
      ensures v.Termed? || v == Nak(if delivered < maxDeliver then delivered * 1_000 else 30_000)
      ensures old(dead) <= dead && deadLettered == old(deadLettered) + if v.Termed? then 1 else 0
    {
      ls, s := ls0, s1;
      if delivered >= maxDeliver {
        v := DeadLetter(payload, delivered, copy);
        ls, s := Buries(c, s0, ls, s, h, i, l, copy);
      } else {
        v := Nak(delivered * SECOND);
      }
    }

    /**
     * Handles delivery number `delivered` of the stream's message `i`. Apply comes before the ack, the dead-letter
     * copy before Term, and the whole call is a run of one handler `h` in Delivery.
     */
    method HandleUnread(payload: Payload, delivered: nat, now: nat, attempt: Attempt, ackFails: bool, copy: D.CopyResult,
                        ghost c: D.Config, ghost s0: D.State, ghost h: nat, ghost i: nat)
      returns (v: Verdict, ghost ls: seq<D.Label>, ghost s: D.State)
      requires D.Enabled(c, s0, D.Deliver(h, i)) && s0.stream.log[i].payload == payload && c.maxDeliver == maxDeliver
      requires delivered == D.Given(s0.cons, i) + 1 && s0.now == now && s0.ledger.unread == tables.View()
      modifies this, tables
      ensures R.Ran(c, s0, ls, s) && s.ledger.unread == tables.View() && h !in s.cons.handlers
      ensures v.Acked? || v.AckLost? <==> payload.Readable? && attempt.Works?
      ensures v.Acked? || v.AckLost? ==> payload.event.messageId in tables.inbox && v.AckLost? == ackFails
      ensures v.Acked? ==> i in s.cons.acked || i in s.cons.termed
      ensures v.Termed? ==> copy.Stored? && i in s.cons.dead && (payload.Junk? || delivered >= maxDeliver)
      ensures if v.Termed? then dead == old(dead) + [DeadCopy(payload, delivered)] else old(dead) <= dead
      ensures v.Nak? <==> !(payload.Readable? && attempt.Works?) && ((payload.Readable? && delivered < maxDeliver) || !copy.Stored?)
      ensures v.Nak? ==> v.delay == if payload.Readable? && delivered < maxDeliver then delivered * 1_000 else 30_000
      ensures tables.View() == if payload.Readable? && !attempt.FailsBefore?
                               then U.Apply(old(tables.View()), payload.event, now).0 else old(tables.View())
      ensures unreadDone == old(unreadDone) + if v.Acked? then 1 else 0
      ensures deadLettered == old(deadLettered) + if v.Termed? then 1 else 0
      ensures redelivered == old(redelivered) + if delivered > 1 then 1 else 0
    {
      if delivered > 1 {
        redelivered := redelivered + 1;
      }
      ls, s := Receives(c, s0, h, i);
      if payload.Junk? {
        v := DeadLetter(payload, delivered, copy);
        ls, s := Buries(c, s0, ls, s, h, i, s0.ledger, copy);
        return;
      }
      ghost var l := if attempt.FailsBefore? then s0.ledger else D.Claim(s0.ledger, payload.event, now);
      ClaimIsApply(s0.ledger, payload.event, now);
      ls, s := WorksOn(c, s0, ls, s, h, D.Working(i, delivered, now), !attempt.FailsBefore?, attempt.Works?);
      var ok := Apply(payload.event, now, attempt);
      if !ok {
        v, ls, s := NotApplied(payload, delivered, copy, c, s0, ls, s, h, i, l);
        return;
      }
      ls, s := Acks(c, s0, ls, s, h, i, l, ackFails);
      if ackFails {
        return AckLost, ls, s;
      }
      unreadDone := unreadDone + 1;
      v := Acked;
    }
  }
}
