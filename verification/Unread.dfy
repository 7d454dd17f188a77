// The unread counters and the inbox table that guards them.

module Unread {
  import opened Schema

  datatype Counter = Counter(count: nat, lastSeq: nat)

  /** consumed_messages (with the time of the claim), unread_counters, and the members of each room. */
  datatype State = State(
    inbox: map<nat, nat>, counters: map<(nat, nat), Counter>, members: map<nat, set<nat>>)

  function Members(s: State, room: nat): set<nat> {
    if room in s.members then s.members[room] else {}
  }

  /** A missing row reads as zero. */
  function Row(counters: map<(nat, nat), Counter>, room: nat, user: nat): Counter {
    if (room, user) in counters then counters[(room, user)] else Counter(0, 0)
  }

  function Bumped(c: Counter, seqNo: nat): Counter {
    Counter(c.count + 1, if seqNo > c.lastSeq then seqNo else c.lastSeq)
  }

  /** The upsert over every member of the room except the sender. */
  function Upsert(counters: map<(nat, nat), Counter>, room: nat, users: set<nat>, seqNo: nat): map<(nat, nat), Counter> {
    counters + map u | u in users :: (room, u) := Bumped(Row(counters, room, u), seqNo)
  }

  /** The transaction of ApplyUnread: claim the message, and only then count it. Returns the rows changed. */
  function Apply(s: State, e: Event, now: nat): (State, nat) {
    if e.messageId in s.inbox then (s, 0)
    else
      var readers := Members(s, e.room) - {e.sender};
      (s.(inbox := s.inbox[e.messageId := now], counters := Upsert(s.counters, e.room, readers, e.seqNo)), |readers|)
  }

  /** ApplyUnread changes no row for a message claimed before, and for a room where nobody but the sender reads. */
  lemma ChangesNothingIff(s: State, e: Event, now: nat)
    ensures Apply(s, e, now).1 == 0 <==> e.messageId in s.inbox || Members(s, e.room) <= {e.sender}
  {
    var readers := Members(s, e.room) - {e.sender};
    assert readers == {} <==> Members(s, e.room) <= {e.sender};
  }

  /** A new message to a room of one changes no row, and is no redelivery: it is claimed now and was not before. */
  lemma RoomOfOne(s: State, e: Event, now: nat)
    requires e.messageId !in s.inbox && Members(s, e.room) == {e.sender}
    ensures Apply(s, e, now).1 == 0 && e.messageId in Apply(s, e, now).0.inbox
  {
    ChangesNothingIff(s, e, now);
  }

  function MarkRead(s: State, room: nat, user: nat): State {
    s.(counters := s.counters[(room, user) := Counter(0, Row(s.counters, room, user).lastSeq)])
  }

  function Join(s: State, room: nat, user: nat): State {
    s.(members := s.members[room := Members(s, room) + {user}])
  }

  function Forget(inbox: map<nat, nat>, before: nat): map<nat, nat> {
    map m | m in inbox && inbox[m] >= before :: inbox[m]
  }

  lemma RowOfUpsert(counters: map<(nat, nat), Counter>, room: nat, users: set<nat>, seqNo: nat, r: nat, u: nat)
    ensures Row(Upsert(counters, room, users, seqNo), r, u)
         == if r == room && u in users then Bumped(Row(counters, r, u), seqNo) else Row(counters, r, u)
  {
    if r == room && u in users {
      assert (room, u) in map v | v in users :: (room, v) := Bumped(Row(counters, room, v), seqNo);
    }
  }

  /** The row of each reader, and of nobody else, counts one more and has the higher of the two seqs. */
  ghost predicate RowsBumped(before: map<(nat, nat), Counter>, after: map<(nat, nat), Counter>, room: nat, readers: set<nat>, seqNo: nat) {
    forall r: nat, u: nat :: Row(after, r, u) ==
      if r != room || u !in readers then Row(before, r, u)
      else var c := Row(before, r, u); Counter(c.count + 1, if c.lastSeq >= seqNo then c.lastSeq else seqNo)
  }

  /**
   * A message claimed before changes nothing. A new one is claimed, with the time, and counted for every member of its
   * room but its sender; `changed` is the number of those.
   */
  ghost predicate CountedOnce(s: State, e: Event, now: nat, s': State, changed: nat) {
    if e.messageId in s.inbox then s' == s && changed == 0
    else
      var readers := Members(s, e.room) - {e.sender};
      && s'.inbox == s.inbox[e.messageId := now] && s'.members == s.members && changed == |readers|
      && RowsBumped(s.counters, s'.counters, e.room, readers, e.seqNo)
  }

  lemma ApplyCounts(s: State, e: Event, now: nat)
    ensures CountedOnce(s, e, now, Apply(s, e, now).0, Apply(s, e, now).1)
  {
    var readers := Members(s, e.room) - {e.sender};
    forall r: nat, u: nat ensures Row(Upsert(s.counters, e.room, readers, e.seqNo), r, u)
                               == if r == e.room && u in readers then Bumped(Row(s.counters, r, u), e.seqNo) else Row(s.counters, r, u)
    {
      RowOfUpsert(s.counters, e.room, readers, e.seqNo, r, u);
    }
  }

  // ----- What a counter means: a history of claims and reads -----

  datatype Op =
    | Claimed(messageId: nat, room: nat, sender: nat, seqNo: nat, members: set<nat>)
    | Marked(room: nat, user: nat)

  predicate CountsFor(op: Op, room: nat, user: nat) {
    op.Claimed? && op.room == room && user in op.members && user != op.sender
  }

  predicate Clears(op: Op, room: nat, user: nat) {
    op == Marked(room, user)
  }

  /** The positions of the claims that `user` has not read in `room`. */
  ghost function Unseen(tr: seq<Op>, room: nat, user: nat): set<nat> {
    set i: nat | i < |tr| && CountsFor(tr[i], room, user) && (forall j :: i < j < |tr| ==> !Clears(tr[j], room, user))
  }

  ghost function UnseenMessages(tr: seq<Op>, room: nat, user: nat): set<nat> {
    set i | i in Unseen(tr, room, user) :: tr[i].messageId
  }

  ghost predicate Highest(tr: seq<Op>, room: nat, user: nat, n: nat) {
    && (forall i :: 0 <= i < |tr| && CountsFor(tr[i], room, user) ==> tr[i].seqNo <= n)
    && (n == 0 || exists i :: 0 <= i < |tr| && CountsFor(tr[i], room, user) && tr[i].seqNo == n)
  }

  ghost predicate Explains(tr: seq<Op>, counters: map<(nat, nat), Counter>) {
    forall r: nat, u: nat ::
      Row(counters, r, u).count == |Unseen(tr, r, u)| && Highest(tr, r, u, Row(counters, r, u).lastSeq)
  }

  ghost predicate ClaimedOnce(tr: seq<Op>) {
    forall i, j :: 0 <= i < j < |tr| && tr[i].Claimed? && tr[j].Claimed? ==> tr[i].messageId != tr[j].messageId
  }

  function ClaimOf(s: State, e: Event): Op {
    Claimed(e.messageId, e.room, e.sender, e.seqNo, Members(s, e.room))
  }

  lemma UnseenAfter(tr: seq<Op>, op: Op, room: nat, user: nat)
    ensures Unseen(tr + [op], room, user)
         == if Clears(op, room, user) then {}
            else if CountsFor(op, room, user) then Unseen(tr, room, user) + {|tr|} else Unseen(tr, room, user)
  {
    var tr' := tr + [op];
    assert tr'[|tr|] == op && forall j :: 0 <= j < |tr| ==> tr'[j] == tr[j];
    forall i: nat | i < |tr| && CountsFor(tr[i], room, user)
      ensures i in Unseen(tr', room, user) <==> i in Unseen(tr, room, user) && !Clears(op, room, user)
    {
      if i in Unseen(tr', room, user) {
        assert !Clears(tr'[|tr|], room, user);
        forall j | i < j < |tr| ensures !Clears(tr[j], room, user) {
          assert !Clears(tr'[j], room, user);
        }
      }
    }
    assert !Clears(op, room, user) ==>
        Unseen(tr', room, user) == if CountsFor(op, room, user) then Unseen(tr, room, user) + {|tr|} else Unseen(tr, room, user);
  }

  lemma HighestAfter(tr: seq<Op>, op: Op, room: nat, user: nat, n: nat)
    requires Highest(tr, room, user, n)
    ensures Highest(tr + [op], room, user, if CountsFor(op, room, user) && op.seqNo > n then op.seqNo else n)
  {
    var tr' := tr + [op];
    assert tr'[|tr|] == op && forall j :: 0 <= j < |tr| ==> tr'[j] == tr[j];
    if !(CountsFor(op, room, user) && op.seqNo > n) && n != 0 {
      var i :| 0 <= i < |tr| && CountsFor(tr[i], room, user) && tr[i].seqNo == n;
      assert tr'[i].seqNo == n;
    }
  }

  lemma ApplyExplained(tr: seq<Op>, s: State, e: Event, now: nat)
    requires Explains(tr, s.counters) && e.messageId !in s.inbox
    ensures Explains(tr + [ClaimOf(s, e)], Apply(s, e, now).0.counters)
  {
    var op := ClaimOf(s, e);
    forall r: nat, u: nat
      ensures var row := Row(Apply(s, e, now).0.counters, r, u);
              row.count == |Unseen(tr + [op], r, u)| && Highest(tr + [op], r, u, row.lastSeq)
    {
      RowOfUpsert(s.counters, e.room, Members(s, e.room) - {e.sender}, e.seqNo, r, u);
      UnseenAfter(tr, op, r, u);
      HighestAfter(tr, op, r, u, Row(s.counters, r, u).lastSeq);
    }
  }

  lemma MarkReadExplained(tr: seq<Op>, s: State, room: nat, user: nat)
    requires Explains(tr, s.counters)
    ensures Explains(tr + [Marked(room, user)], MarkRead(s, room, user).counters)
  {
    var op := Marked(room, user);
    forall r: nat, u: nat
      ensures var row := Row(MarkRead(s, room, user).counters, r, u);
              row.count == |Unseen(tr + [op], r, u)| && Highest(tr + [op], r, u, row.lastSeq)
    {
      UnseenAfter(tr, op, r, u);
      HighestAfter(tr, op, r, u, Row(s.counters, r, u).lastSeq);
    }
  }

  /** With no message claimed twice, a counter is the number of distinct messages not yet read. */
  lemma CountIsMessages(tr: seq<Op>, room: nat, user: nat)
    requires ClaimedOnce(tr)
    ensures |UnseenMessages(tr, room, user)| == |Unseen(tr, room, user)|
  {
    ImageSize(tr, Unseen(tr, room, user));
  }

  lemma {:induction false} ImageSize(tr: seq<Op>, s: set<nat>)
    requires ClaimedOnce(tr) && forall i :: i in s ==> i < |tr| && tr[i].Claimed?
    ensures |set i | i in s :: tr[i].messageId| == |s|
    decreases s
  {
    if s == {} {
    } else {
      var x :| x in s;
      ImageSize(tr, s - {x});
      assert (set i | i in s :: tr[i].messageId) == (set i | i in s - {x} :: tr[i].messageId) + {tr[x].messageId};
      assert tr[x].messageId !in (set i | i in s - {x} :: tr[i].messageId);
    }
  }

  // ----- Any delivery order -----

  function ApplyAll(s: State, es: seq<Event>, now: nat): State
    decreases |es|
  {
    if es == [] then s else Apply(ApplyAll(s, es[..|es| - 1], now), es[|es| - 1], now).0
  }

  /** A message id names one message. */
  ghost predicate OneMessagePerId(es: seq<Event>) {
    forall i, j :: 0 <= i < |es| && 0 <= j < |es| && es[i].messageId == es[j].messageId ==> es[i] == es[j]
  }

  /** The events for the user that are not claimed in `s`. */
  ghost function ForReader(s: State, es: seq<Event>, room: nat, user: nat): set<Event> {
    set e | e in es && e.room == room && user in Members(s, room) && user != e.sender && e.messageId !in s.inbox
  }

  /** From the counter `c0`, one more for each of the events, and the highest of all their seqs. */
  ghost predicate Tallied(c0: Counter, unseen: set<Event>, c: Counter) {
    && c.count == c0.count + |unseen|
    && c0.lastSeq <= c.lastSeq && (forall e :: e in unseen ==> e.seqNo <= c.lastSeq)
    && (c.lastSeq == c0.lastSeq || exists e :: e in unseen && e.seqNo == c.lastSeq)
  }

  ghost predicate Mentions(es: seq<Event>, m: nat) {
    exists e :: e in es && e.messageId == m
  }

  lemma MentionsGrows(init: seq<Event>, e: Event, m: nat)
    ensures Mentions(init + [e], m) <==> Mentions(init, m) || e.messageId == m
  {
    if Mentions(init, m) {
      var f :| f in init && f.messageId == m;
      assert f in init + [e];
    }
    if e.messageId == m {
      assert e in init + [e];
    }
  }

  lemma {:induction false} InboxOfApplyAll(s: State, es: seq<Event>, now: nat)
    ensures ApplyAll(s, es, now).members == s.members
    ensures forall m :: m in ApplyAll(s, es, now).inbox <==> m in s.inbox || Mentions(es, m)
    decreases |es|
  {
    if es == [] {
    } else {
      var init, e := es[..|es| - 1], es[|es| - 1];
      InboxOfApplyAll(s, init, now);
      assert es == init + [e];
      forall m ensures m in ApplyAll(s, es, now).inbox <==> m in s.inbox || Mentions(es, m) {
        MentionsGrows(init, e, m);
      }
    }
  }

  lemma OneMore(c0: Counter, unseen: set<Event>, e: Event, c: Counter)
    requires Tallied(c0, unseen, c) && e !in unseen
    ensures Tallied(c0, unseen + {e}, Bumped(c, e.seqNo))
  {
    if e.seqNo > c.lastSeq {
      assert e in unseen + {e};
    } else if c.lastSeq != c0.lastSeq {
      var f :| f in unseen && f.seqNo == c.lastSeq;
      assert f in unseen + {e};
    }
  }

  lemma RepeatAddsNothing(s: State, init: seq<Event>, e: Event, room: nat, user: nat)
    requires OneMessagePerId(init + [e]) && (Mentions(init, e.messageId) || e.messageId in s.inbox)
    ensures ForReader(s, init + [e], room, user) == ForReader(s, init, room, user)
  {
    if Mentions(init, e.messageId) {
      var f :| f in init && f.messageId == e.messageId;
      var i :| 0 <= i < |init| && init[i] == f;
      assert (init + [e])[i] == f && (init + [e])[|init|] == e;
    }
  }

  lemma NewAddsOne(s: State, init: seq<Event>, e: Event, room: nat, user: nat)
    requires !Mentions(init, e.messageId) && e.messageId !in s.inbox
    ensures var more := if e.room == room && user in Members(s, room) - {e.sender} then {e} else {};
            e !in ForReader(s, init, room, user)
            && ForReader(s, init + [e], room, user) == ForReader(s, init, room, user) + more
  {
  }

  /** One more delivery, in tables `t` that the deliveries `init` made of `s`. */
  lemma TallyStep(s: State, init: seq<Event>, t: State, e: Event, now: nat, room: nat, user: nat)
    requires OneMessagePerId(init + [e]) && t.members == s.members
    requires e.messageId in t.inbox <==> e.messageId in s.inbox || Mentions(init, e.messageId)
    requires Tallied(Row(s.counters, room, user), ForReader(s, init, room, user), Row(t.counters, room, user))
    ensures Tallied(Row(s.counters, room, user), ForReader(s, init + [e], room, user), Row(Apply(t, e, now).0.counters, room, user))
  {
    if e.messageId in t.inbox {
      RepeatAddsNothing(s, init, e, room, user);
    } else {
      RowOfUpsert(t.counters, e.room, Members(t, e.room) - {e.sender}, e.seqNo, room, user);
      NewAddsOne(s, init, e, room, user);
      if e.room == room && user in Members(s, room) - {e.sender} {
        OneMore(Row(s.counters, room, user), ForReader(s, init, room, user), e, Row(t.counters, room, user));
      }
    }
  }

  lemma FewerEvents(init: seq<Event>, e: Event)
    requires OneMessagePerId(init + [e])
    ensures OneMessagePerId(init)
  {
    forall i, j | 0 <= i < |init| && 0 <= j < |init| && init[i].messageId == init[j].messageId ensures init[i] == init[j] {
      assert (init + [e])[i] == init[i] && (init + [e])[j] == init[j];
    }
  }

  /**
   * After any deliveries, from any tables, a counter has grown by the number of distinct messages for its user that
   * were not claimed before, and its mark is the highest of what it was and their seqs.
   */
  lemma {:induction false} ApplyAllTallies(s: State, es: seq<Event>, now: nat, room: nat, user: nat)
    requires OneMessagePerId(es)
    ensures Tallied(Row(s.counters, room, user), ForReader(s, es, room, user), Row(ApplyAll(s, es, now).counters, room, user))
    decreases |es|
  {
    if es == [] {
      assert ForReader(s, es, room, user) == {};
    } else {
      var init, e := es[..|es| - 1], es[|es| - 1];
      assert es == init + [e];
      FewerEvents(init, e);
      ApplyAllTallies(s, init, now, room, user);
      InboxOfApplyAll(s, init, now);
      TallyStep(s, init, ApplyAll(s, init, now), e, now, room, user);
    }
  }

  lemma SameTally(c0: Counter, unseen: set<Event>, c: Counter, d: Counter)
    requires Tallied(c0, unseen, c) && Tallied(c0, unseen, d)
    ensures c == d
  {
  }

  /**
   * From any tables, two deliveries of the same messages, in any order and with any duplicates, leave the same
   * counters, the same high marks and the same claims, when nobody joins or reads in between.
   */
  lemma OrderDoesNotMatter(s: State, es: seq<Event>, fs: seq<Event>, now: nat, room: nat, user: nat)
    requires OneMessagePerId(es) && OneMessagePerId(fs) && (forall e :: e in es <==> e in fs)
    ensures var x, y := ApplyAll(s, es, now), ApplyAll(s, fs, now);
            Row(x.counters, room, user) == Row(y.counters, room, user) && x.inbox.Keys == y.inbox.Keys
  {
    var x, y := ApplyAll(s, es, now), ApplyAll(s, fs, now);
    ApplyAllTallies(s, es, now, room, user);
    ApplyAllTallies(s, fs, now, room, user);
    assert ForReader(s, es, room, user) == ForReader(s, fs, room, user);
    SameTally(Row(s.counters, room, user), ForReader(s, es, room, user),
              Row(x.counters, room, user), Row(y.counters, room, user));
    SameInbox(s, es, fs, now);
  }

  lemma SameInbox(s: State, es: seq<Event>, fs: seq<Event>, now: nat)
    requires forall e :: e in es <==> e in fs
    ensures ApplyAll(s, es, now).inbox.Keys == ApplyAll(s, fs, now).inbox.Keys
  {
    InboxOfApplyAll(s, es, now);
    InboxOfApplyAll(s, fs, now);
    forall m ensures Mentions(es, m) <==> Mentions(fs, m) {
    }
  }
}
