// The client that lost its socket: register first, page the gap second, merge by seq.

module Reconnect {
  import opened Schema
  import W = Writers
  import D = Delivery
  import P = Pipeline
  import G = Guarantees
  import E = Envelopes
  import H = Hub
  import F = FanOut
  import Pg = Paging
  import Sets

  datatype How = Live | Gap

  /** `before` with the seqs it lacked added as `how`, and nothing else changed. */
  ghost predicate Merged(before: map<nat, How>, seqs: seq<nat>, how: How, after: map<nat, How>) {
    && (forall n :: n in after <==> n in before || n in seqs)
    && (forall n :: n in after ==> after[n] == if n in before then before[n] else how)
  }

  lemma MergedGrows(before: map<nat, How>, seqs: seq<nat>, k: nat, how: How, after: map<nat, How>)
    requires k < |seqs| && Merged(before, seqs[..k], how, after)
    ensures Merged(before, seqs[..k + 1], how, if seqs[k] in after then after else after[seqs[k] := how])
  {
    assert seqs[..k + 1] == seqs[..k] + [seqs[k]];
  }

  /** What the client holds, and how many copies it threw away. */
  class Client {
    var seen: map<nat, How>
    var duplicates: nat

    constructor ()
      ensures seen == map[] && duplicates == 0
    {
      seen, duplicates := map[], 0;
    }

    /** Only the first arrival of a seq counts, and it decides how the message is said to have come. */
    method Note(seqNo: nat, how: How)
      modifies this
      ensures seen == if seqNo in old(seen) then old(seen) else old(seen)[seqNo := how]
      ensures duplicates == old(duplicates) + if seqNo in old(seen) then 1 else 0
      ensures |seen| + duplicates == |old(seen)| + old(duplicates) + 1
    {
      if seqNo in seen {
        duplicates := duplicates + 1;
        return;
      }
      seen := seen[seqNo := how];
    }

    /** Notes a list of arrivals: nothing is lost, nothing is counted twice, nothing held is overwritten. */
    method NoteAll(seqs: seq<nat>, how: How)
      modifies this
      ensures Merged(old(seen), seqs, how, seen)
      ensures |seen| + duplicates == |old(seen)| + old(duplicates) + |seqs|
    {
      for k := 0 to |seqs|
        invariant Merged(old(seen), seqs[..k], how, seen)
        invariant |seen| + duplicates == |old(seen)| + old(duplicates) + k
      {
        MergedGrows(old(seen), seqs, k, how, seen);
        Note(seqs[k], how);
      }
      assert seqs[..|seqs|] == seqs;
    }

    /** The oldest hole: the least sent seq that is not held, or 0. */
    method LowestMissing(sent: seq<nat>) returns (lowest: nat)
      requires 0 !in sent
      ensures lowest == 0 ==> forall n :: n in sent ==> n in seen
      ensures lowest != 0 ==> lowest in sent && forall n :: n in sent && n !in seen ==> lowest <= n
    {
      lowest := 0;
      for k := 0 to |sent|
        invariant lowest == 0 ==> forall n :: n in sent[..k] ==> n in seen
        invariant lowest != 0 ==> lowest in sent[..k] && forall n :: n in sent[..k] && n !in seen ==> lowest <= n
      {
        assert sent[..k + 1] == sent[..k] + [sent[k]];
        if sent[k] !in seen && (lowest == 0 || sent[k] < lowest) {
          lowest := sent[k];
        }
      }
      assert sent[..|sent|] == sent;
    }

    /** One last gap read from the oldest hole: afterwards nothing that was sent is missing, if the read came through. */
    method FillFromGap(views: Pg.Views, room: nat, sent: seq<nat>) returns (late: nat, ghost r: Pg.Fetched)
      requires Pg.Sound(views, room) && Pg.Growing(views, room) && 0 !in sent
      requires forall k, n :: Committed(views(k), room, n, sent)
      modifies this
      ensures |old(seen)| + late == |seen| && old(seen).Keys <= seen.Keys
      ensures r.Done? ==> forall n :: n in sent ==> n in seen
      ensures !r.Done? ==> late == 0 && seen == old(seen)
    {
      var lowest := LowestMissing(sent);
      if lowest == 0 {
        return 0, Pg.Done;
      }
      var gap, fetched, pages := Pg.FetchGap(views, room, lowest - 1, Pg.GAP_LIMIT, Pg.GAP_PAGES);
      r := fetched;
      if !fetched.Done? {
        return 0, r;
      }
      var before := |seen|;
      NoteAll(gap, Gap);
      Sets.SubsetSize(old(seen).Keys, seen.Keys);
      late := |seen| - before;
      forall n | n in sent ensures n in seen {
        assert Committed(views(pages - 1), room, n, sent);
        RangeHas(gap, lowest - 1, Pg.LastSeq(views(pages - 1).value, room), n);
      }
    }
  }

  /** A seq the client knows was sent is committed in every later view. */
  ghost predicate Committed(view: Option<Tables>, room: nat, n: nat, sent: seq<nat>) {
    view.Some? && n in sent ==> n <= Pg.LastSeq(view.value, room)
  }

  lemma RangeHas(out: seq<nat>, after: nat, last: nat, n: nat)
    requires Pg.Complete(out, after, last)
    ensures n in out <==> after < n <= last
  {
    if after < n <= last {
      assert out[n - after - 1] == n;
    }
  }

  // ----- The reconnect order, over runs of a node and the pipeline -----

  /** The client's k-th page is answered after `at(k)` steps of the run, and none before step `from`. */
  ghost predicate Schedule(at: nat -> nat, from: nat, steps: nat) {
    (forall k :: from <= at(k) <= steps) && forall j, k :: j <= k ==> at(j) <= at(k)
  }

  /** The k-th request fails, or shows the committed tables as they are after `at(k)` steps. */
  ghost predicate Answers(w: F.World, ls: seq<F.Label>, at: nat -> nat, views: Pg.Views)
    requires F.CanRun(w, ls)
  {
    forall k :: AnswerOf(w, ls, at(k), views(k))
  }

  ghost predicate AnswerOf(w: F.World, ls: seq<F.Label>, step: nat, view: Option<Tables>)
    requires F.CanRun(w, ls)
  {
    view.Some? ==> step <= |ls| && view.value == F.TablesOf(F.After(w, ls, step))
  }

  ghost function LastSeqAfter(w: F.World, ls: seq<F.Label>, k: nat, room: nat): nat
    requires F.CanRun(w, ls) && k <= |ls|
  {
    Pg.LastSeq(F.TablesOf(F.After(w, ls, k)), room)
  }

  lemma RoomStays(w: F.World, ls: seq<F.Label>, j: nat, k: nat, room: nat)
    requires F.CanRun(w, ls) && j <= k <= |ls| && room in F.TablesOf(F.After(w, ls, j)).rooms
    ensures room in F.TablesOf(F.After(w, ls, k)).rooms
    ensures Pg.LastSeq(F.TablesOf(F.After(w, ls, j)), room) <= Pg.LastSeq(F.TablesOf(F.After(w, ls, k)), room)
  {
    F.Between(w, ls, j, k);
  }

  lemma PageIsSound(w: F.World, ls: seq<F.Label>, from: nat, step: nat, room: nat, view: Option<Tables>)
    requires F.CanRun(w, ls) && from <= step <= |ls| && room in F.TablesOf(F.After(w, ls, from)).rooms
    requires AnswerOf(w, ls, step, view)
    ensures Pg.SoundAt(view, room)
  {
    RoomStays(w, ls, from, step, room);
    F.Consistent(w, ls, step);
  }

  lemma PageIsNotShorter(w: F.World, ls: seq<F.Label>, from: nat, j: nat, k: nat, room: nat,
                         early: Option<Tables>, later: Option<Tables>)
    requires F.CanRun(w, ls) && from <= j <= k <= |ls| && room in F.TablesOf(F.After(w, ls, from)).rooms
    requires AnswerOf(w, ls, j, early) && AnswerOf(w, ls, k, later)
    ensures Pg.NotShorter(early, later, room)
  {
    RoomStays(w, ls, from, j, room);
    RoomStays(w, ls, j, k, room);
  }

  /** What fetchGap needs of its pages holds in every run, however everything else moves in between. */
  lemma PagesOfARun(w: F.World, ls: seq<F.Label>, at: nat -> nat, from: nat, room: nat, views: Pg.Views)
    requires F.CanRun(w, ls) && Schedule(at, from, |ls|) && Answers(w, ls, at, views)
    requires from <= |ls| && room in F.TablesOf(F.After(w, ls, from)).rooms
    ensures Pg.Sound(views, room) && Pg.Growing(views, room)
  {
    forall k ensures Pg.SoundAt(views(k), room) {
      assert AnswerOf(w, ls, at(k), views(k));
      PageIsSound(w, ls, from, at(k), room, views(k));
    }
    forall j, k | j <= k ensures Pg.NotShorter(views(j), views(k), room) {
      assert AnswerOf(w, ls, at(j), views(j)) && AnswerOf(w, ls, at(k), views(k));
      PageIsNotShorter(w, ls, from, at(j), at(k), room, views(j), views(k));
    }
  }

  /** Every entry the stream has for this message came after position `lo`. */
  ghost predicate PublishedAfter(log: seq<D.Entry>, room: nat, n: nat, lo: nat) {
    forall i :: 0 <= i < |log| && G.SeqAt(log[i], room, n) ==> i >= lo
  }

  lemma LaterSeqsArePublishedLater(c: D.Config, s: P.State, s': P.State, room: nat, n: nat)
    requires P.Inv(c, s) && s.d.stream.log <= s'.d.stream.log && room in s.db.t.rooms && n > Pg.LastSeq(s.db.t, room)
    ensures PublishedAfter(s'.d.stream.log, room, n, |s.d.stream.log|)
  {
    var log := s.d.stream.log;
    forall i | 0 <= i < |log| ensures !G.SeqAt(log[i], room, n) {
      if log[i].payload.Readable? {
        var e := log[i].payload.event;
        assert W.TellsTruth(s.db.t.messages, e);
        assert e.room == room ==> e.seqNo <= Pg.LastSeq(s.db.t, room);
      }
    }
    assert forall i :: 0 <= i < |log| ==> s'.d.stream.log[i] == log[i];
  }

  /** The socket `id` of `user` was registered by step `from`. */
  ghost predicate Registered(ls: seq<F.Label>, from: nat, id: nat, user: nat) {
    0 < from <= |ls| && ls[from - 1] == F.Sockets(H.Label.Register(id, user))
  }

  lemma RegisteredNow(w: F.World, ls: seq<F.Label>, from: nat, id: nat, user: nat)
    requires F.CanRun(w, ls) && Registered(ls, from, id, user)
    ensures var h := F.After(w, ls, from).hub;
            H.Live(h, id) && h.sockets[id].user == user && h.sockets[id].since == |h.offers|
  {
    F.Consistent(w, ls, from - 1);
    F.OneStep(w, ls, from - 1);
  }

  /** The message of the entry was queued on the socket. */
  ghost predicate Framed(w: F.World, s: F.Node, id: nat, i: nat) {
    && i < |F.Log(s)| && F.Log(s)[i].payload.Readable? && id in s.hub.sockets
    && w.frame(F.Log(s)[i].payload.event) in H.Frames(s.hub.sockets[id])
  }

  /** An entry that reaches the stream after the registration reaches the socket, as long as the socket lives. */
  lemma EntryArrives(w: F.World, ls: seq<F.Label>, from: nat, id: nat, user: nat, i: nat)
    requires F.CanRun(w, ls) && Registered(ls, from, id, user) && H.Live(F.Run(w, ls).hub, id)
    requires var s := F.Run(w, ls);
             |F.Log(F.After(w, ls, from))| <= i < |F.Log(s)| && i < |s.post.envelopes| && F.Log(s)[i].payload.Readable?
             && user in s.post.envelopes[i]
    ensures var s := F.Run(w, ls); F.Coming(s, i) || F.Missed(s, i) || Framed(w, s, id, i)
  {
    var s1, s := F.After(w, ls, from), F.Run(w, ls);
    assert ls[..|ls|] == ls;
    RegisteredNow(w, ls, from, id, user);
    F.Consistent(w, ls, from);
    F.Consistent(w, ls, |ls|);
    F.Between(w, ls, from, |ls|);
    F.ServedIff(w, ls, i);
    if !F.Coming(s, i) && !F.Missed(s, i) {
      var k :| 0 <= k < |s.served| && s.served[k].at == i;
      ServedIsFramed(w, s1, s, id, user, k);
    }
  }

  lemma ServedIsFramed(w: F.World, s1: F.Node, s: F.Node, id: nat, user: nat, k: nat)
    requires F.QueueOk(w, s1) && F.QueueOk(w, s) && H.Inv(s.hub) && F.Later(s1, s) && H.Live(s.hub, id)
    requires id in s1.hub.sockets && s1.hub.sockets[id].user == user && s1.hub.sockets[id].since == |s1.hub.offers|
    requires k < |s.served| && s.served[k].at >= |F.Log(s1)|
    requires s.served[k].at < |s.post.envelopes| && user in s.post.envelopes[s.served[k].at]
    ensures Framed(w, s, id, s.served[k].at)
  {
    assert s.served[k] == (s.served + s.pending)[k];
    assert F.CallOk(w, s.post, F.StartOf(s), s.cursor, (s.served + s.pending)[k]);
    F.ServedLater(w, s1, s, k, user);
    assert F.SameSocket(s1.hub.sockets[id], s.hub.sockets[id]);
    F.OfferedIsFramed(s.hub, id, s.served[k].e.payload);
  }

  // ----- Who is named -----

  predicate IsMember(s: F.Node, room: nat, user: nat) {
    user in E.MembersOf(s.post, room)
  }

  lemma NodeKeepsNamed(w: F.World, s: F.Node, l: F.Label, room: nat, n: nat, user: nat)
    requires E.Inv(w.c, s.post) && F.Enabled(w, s, l) && E.Named(s.post, room, n, user)
    ensures E.Named(F.Do(w, s, l).post, room, n, user)
  {
    if l.Pipe? {
      E.StepKeepsNamed(w.c, s.post, l.l, room, n, user);
    }
  }

  lemma NamedStep(w: F.World, ls: seq<F.Label>, k: nat, room: nat, n: nat, user: nat)
    requires F.CanRun(w, ls) && k < |ls| && E.Named(F.After(w, ls, k).post, room, n, user)
    ensures E.Named(F.After(w, ls, k + 1).post, room, n, user)
  {
    F.Consistent(w, ls, k);
    F.OneStep(w, ls, k);
    NodeKeepsNamed(w, F.After(w, ls, k), ls[k], room, n, user);
  }

  lemma {:induction false} NamedBetween(w: F.World, ls: seq<F.Label>, j: nat, k: nat, room: nat, n: nat, user: nat)
    requires F.CanRun(w, ls) && j <= k <= |ls| && E.Named(F.After(w, ls, j).post, room, n, user)
    ensures E.Named(F.After(w, ls, k).post, room, n, user)
    decreases k
  {
    if j == k {
    } else {
      NamedBetween(w, ls, j, k - 1, room, n, user);
      NamedStep(w, ls, k - 1, room, n, user);
    }
  }

  /** A member before a message is committed is named by every envelope the stream has for it. */
  lemma MembersAreNamed(w: F.World, ls: seq<F.Label>, j: nat, room: nat, n: nat, user: nat, i: nat)
    requires F.CanRun(w, ls) && j <= |ls| && IsMember(F.After(w, ls, j), room, user)
    requires room in F.TablesOf(F.After(w, ls, j)).rooms && n > LastSeqAfter(w, ls, j, room)
    requires i < |F.Log(F.Run(w, ls))| && G.SeqAt(F.Log(F.Run(w, ls))[i], room, n)
    ensures i < |F.Run(w, ls).post.envelopes| && user in F.Run(w, ls).post.envelopes[i]
  {
    assert ls[..|ls|] == ls;
    F.Consistent(w, ls, j);
    F.Consistent(w, ls, |ls|);
    E.NamedAtFirst(w.c, F.After(w, ls, j).post, room, n, user);
    NamedBetween(w, ls, j, |ls|, room, n, user);
    E.NamedOnStream(w.c, F.Run(w, ls).post, room, n, user, i);
  }

  /** The message waits in the outbox. */
  ghost predicate InOutbox(s: P.State, room: nat, n: nat) {
    exists oid :: Pending(s.db.t.outbox, oid) && RowIs(s.db.t.outbox[oid], room, n)
  }

  predicate RowIs(row: OutboxRow, room: nat, n: nat) {
    row.payload.Readable? && row.payload.event.room == room && row.payload.event.seqNo == n
  }

  /** The entry is the message, it is newer than `lo`, and it reaches the socket unless something kept it away. */
  ghost predicate Arrives(w: F.World, s: F.Node, lo: nat, id: nat, user: nat, member: bool, room: nat, n: nat, i: nat) {
    && lo <= i < |F.Log(s)| && i < |s.post.envelopes| && G.SeqAt(F.Log(s)[i], room, n)
    && (Framed(w, s, id, i) || F.Coming(s, i) || F.Missed(s, i) || !H.Live(s.hub, id)
        || (!member && user !in s.post.envelopes[i]))
  }

  /** Where a message is that the pages up to step `last` did not show: in the outbox, or on its way to the socket. */
  ghost predicate OnItsWay(w: F.World, ls: seq<F.Label>, from: nat, last: nat, id: nat, user: nat, room: nat, n: nat)
    requires F.CanRun(w, ls) && from <= |ls| && last <= |ls|
  {
    var s, member := F.Run(w, ls), IsMember(F.After(w, ls, last), room, user);
    InOutbox(s.post.p, room, n) || exists i :: Arrives(w, s, |F.Log(F.After(w, ls, from))|, id, user, member, room, n, i)
  }

  /** A message the room did not have after step `last` enters the stream after it. */
  lemma NewerThanThePage(w: F.World, ls: seq<F.Label>, last: nat, room: nat, n: nat)
    requires F.CanRun(w, ls) && last <= |ls| && room in F.TablesOf(F.After(w, ls, last)).rooms
    requires n > LastSeqAfter(w, ls, last, room)
    ensures PublishedAfter(F.Log(F.Run(w, ls)), room, n, |F.Log(F.After(w, ls, last))|)
  {
    assert ls[..|ls|] == ls;
    F.Between(w, ls, last, |ls|);
    F.Consistent(w, ls, last);
    LaterSeqsArePublishedLater(w.c, F.After(w, ls, last).post.p, F.Run(w, ls).post.p, room, n);
  }

  /** Committed means waiting in the outbox or on the stream. */
  lemma SomewhereSafe(c: D.Config, s: P.State, room: nat, n: nat)
    requires P.Inv(c, s) && room in s.db.t.rooms && 1 <= n <= Pg.LastSeq(s.db.t, room)
    ensures InOutbox(s, room, n) || exists i :: 0 <= i < |s.d.stream.log| && G.SeqAt(s.d.stream.log[i], room, n)
  {
    assert W.Holds(s.db.t, room, n);
    var m :| m in s.db.t.messages && s.db.t.messages[m].room == room && s.db.t.messages[m].seqNo == n;
    G.SafeInState(c, s, m);
    var oid :| oid in s.db.journal && s.db.journal[oid].Readable? && Describes(s.db.journal[oid].event, m, s.db.t.messages[m])
               && (Pending(s.db.t.outbox, oid) || G.OnStream(s.d.stream.log, oid, s.db.journal[oid]));
    if Pending(s.db.t.outbox, oid) {
      assert RowIs(s.db.t.outbox[oid], room, n);
    } else {
      var i :| 0 <= i < |s.d.stream.log| && s.d.stream.log[i].outboxId == oid && s.d.stream.log[i].payload == s.db.journal[oid];
      assert G.SeqAt(s.d.stream.log[i], room, n);
    }
  }

  /**
   * Socket first, gap second. The client registers by step `from`, and its last page is read after step `last`. A
   * message that this page could not show yet is in the outbox, or its entry is newer than the registration and is
   * queued on the socket: unless the fan-out or the hub is still to come to it or missed it, the socket is gone, or the
   * user was not even in the room at the last page and its envelope does not name them.
   */
  lemma NoHole(w: F.World, ls: seq<F.Label>, from: nat, last: nat, id: nat, user: nat, room: nat, n: nat)
    requires F.CanRun(w, ls) && Registered(ls, from, id, user) && from <= last <= |ls|
    requires room in F.TablesOf(F.After(w, ls, from)).rooms
    requires LastSeqAfter(w, ls, last, room) < n <= LastSeqAfter(w, ls, |ls|, room)
    ensures OnItsWay(w, ls, from, last, id, user, room, n)
  {
    var s := F.Run(w, ls);
    assert ls[..|ls|] == ls;
    F.Consistent(w, ls, |ls|);
    RoomStays(w, ls, from, last, room);
    RoomStays(w, ls, last, |ls|, room);
    SomewhereSafe(w.c, s.post.p, room, n);
    if !InOutbox(s.post.p, room, n) {
      var i :| 0 <= i < |F.Log(s)| && G.SeqAt(F.Log(s)[i], room, n);
      NewerThanThePage(w, ls, last, room, n);
      F.Between(w, ls, from, last);
      OnTheWayAt(w, ls, from, last, id, user, room, n, i);
    }
  }

  lemma OnTheWayAt(w: F.World, ls: seq<F.Label>, from: nat, last: nat, id: nat, user: nat, room: nat, n: nat, i: nat)
    requires F.CanRun(w, ls) && Registered(ls, from, id, user) && from <= last <= |ls|
    requires |F.Log(F.Run(w, ls))| == |F.Run(w, ls).post.envelopes|
    requires room in F.TablesOf(F.After(w, ls, last)).rooms && n > LastSeqAfter(w, ls, last, room)
    requires |F.Log(F.After(w, ls, from))| <= i < |F.Log(F.Run(w, ls))| && G.SeqAt(F.Log(F.Run(w, ls))[i], room, n)
    ensures Arrives(w, F.Run(w, ls), |F.Log(F.After(w, ls, from))|, id, user, IsMember(F.After(w, ls, last), room, user), room, n, i)
  {
    var s := F.Run(w, ls);
    if IsMember(F.After(w, ls, last), room, user) {
      MembersAreNamed(w, ls, last, room, n, user, i);
    }
    if H.Live(s.hub, id) && user in s.post.envelopes[i] {
      EntryArrives(w, ls, from, id, user, i);
    }
  }

  /** Nothing is under way, and since the registration nothing was missed. */
  ghost predicate Settled(s: F.Node, lo: nat, id: nat) {
    && (forall oid :: !Pending(s.post.p.db.t.outbox, oid))
    && s.start.Some? && s.start.value <= lo && s.cursor == |F.Log(s)| && s.pending == []
    && (forall i :: lo <= i < |F.Log(s)| ==> i !in s.missed)
    && H.Live(s.hub, id)
  }

  /** Once everything has settled, a message the pages did not show a member is a frame on the socket. */
  lemma SettledMeansFramed(w: F.World, ls: seq<F.Label>, from: nat, last: nat, id: nat, user: nat, room: nat, n: nat) returns (i: nat)
    requires F.CanRun(w, ls) && Registered(ls, from, id, user) && from <= last <= |ls|
    requires room in F.TablesOf(F.After(w, ls, from)).rooms && IsMember(F.After(w, ls, last), room, user)
    requires LastSeqAfter(w, ls, last, room) < n <= LastSeqAfter(w, ls, |ls|, room)
    requires Settled(F.Run(w, ls), |F.Log(F.After(w, ls, from))|, id)
    ensures Framed(w, F.Run(w, ls), id, i) && G.SeqAt(F.Log(F.Run(w, ls))[i], room, n)
  {
    NoHole(w, ls, from, last, id, user, room, n);
    i :| Arrives(w, F.Run(w, ls), |F.Log(F.After(w, ls, from))|, id, user, true, room, n, i);
  }

  /** `live` has the seq of every message of the room that was queued on the socket. */
  ghost predicate Brought(w: F.World, s: F.Node, id: nat, room: nat, live: seq<nat>) {
    forall i: nat, n: nat :: Framed(w, s, id, i) && G.SeqAt(F.Log(s)[i], room, n) ==> n in live
  }

  /**
   * The whole repair: a client holding 1..held has registered by step `from`, pages the gap as a member while the run
   * goes on, and merges what the socket brought. If the gap read comes through, the client holds everything up to the
   * room's last_seq at its last page, and every later message is on its way to the socket. Once everything has settled
   * and the socket's frames have come, the client holds the whole room.
   */
  method CatchUp(client: Client, views: Pg.Views, room: nat, held: nat, live: seq<nat>,
                 ghost w: F.World, ghost ls: seq<F.Label>, ghost at: nat -> nat, ghost from: nat, ghost id: nat, ghost user: nat)
    returns (r: Pg.Fetched, pages: nat)
    requires F.CanRun(w, ls) && Registered(ls, from, id, user) && Schedule(at, from, |ls|) && Answers(w, ls, at, views)
    requires room in F.TablesOf(F.After(w, ls, from)).rooms && forall n :: 1 <= n <= held ==> n in client.seen
    requires at(0) <= |ls| && IsMember(F.After(w, ls, at(0)), room, user)
    modifies client
    ensures old(client.seen).Keys <= client.seen.Keys && (!r.Done? ==> client.seen == old(client.seen))
    ensures r.Done? ==> pages > 0 && at(pages - 1) <= |ls|
                        && forall n :: 1 <= n <= LastSeqAfter(w, ls, at(pages - 1), room) ==> n in client.seen
    ensures r.Done? ==> forall n :: 1 <= n <= LastSeqAfter(w, ls, |ls|, room) ==>
                          n in client.seen || OnItsWay(w, ls, from, at(pages - 1), id, user, room, n)
    ensures r.Done? ==> IsMember(F.After(w, ls, at(pages - 1)), room, user) && forall n :: n in live ==> n in client.seen
    ensures var s := F.Run(w, ls);
            r.Done? && Settled(s, |F.Log(F.After(w, ls, from))|, id) && Brought(w, s, id, room, live) ==>
              forall n :: 1 <= n <= LastSeqAfter(w, ls, |ls|, room) ==> n in client.seen
  {
    PagesOfARun(w, ls, at, from, room, views);
    var gap;
    gap, r, pages := Pg.FetchGap(views, room, held, Pg.GAP_LIMIT, Pg.GAP_PAGES);
    if !r.Done? {
      return;
    }
    client.NoteAll(gap, Gap);
    client.NoteAll(live, How.Live);
    ghost var last := at(pages - 1);
    assert AnswerOf(w, ls, last, views(pages - 1));
    forall n | 1 <= n <= LastSeqAfter(w, ls, last, room) ensures n in client.seen {
      RangeHas(gap, held, LastSeqAfter(w, ls, last, room), n);
    }
    F.Between(w, ls, at(0), last);
    LaterOnes(w, ls, from, last, id, user, room, live);
  }

  /** What CatchUp needs to know about the messages after its last page. */
  lemma LaterOnes(w: F.World, ls: seq<F.Label>, from: nat, last: nat, id: nat, user: nat, room: nat, live: seq<nat>)
    requires F.CanRun(w, ls) && Registered(ls, from, id, user) && from <= last <= |ls|
    requires room in F.TablesOf(F.After(w, ls, from)).rooms && IsMember(F.After(w, ls, last), room, user)
    ensures forall n :: LastSeqAfter(w, ls, last, room) < n <= LastSeqAfter(w, ls, |ls|, room) ==>
              OnItsWay(w, ls, from, last, id, user, room, n)
    ensures var s := F.Run(w, ls);
            Settled(s, |F.Log(F.After(w, ls, from))|, id) && Brought(w, s, id, room, live) ==>
              forall n :: LastSeqAfter(w, ls, last, room) < n <= LastSeqAfter(w, ls, |ls|, room) ==> n in live
  {
    var s := F.Run(w, ls);
    forall n | LastSeqAfter(w, ls, last, room) < n <= LastSeqAfter(w, ls, |ls|, room)
      ensures OnItsWay(w, ls, from, last, id, user, room, n)
    {
      NoHole(w, ls, from, last, id, user, room, n);
    }
    if Settled(s, |F.Log(F.After(w, ls, from))|, id) && Brought(w, s, id, room, live) {
      forall n: nat | LastSeqAfter(w, ls, last, room) < n <= LastSeqAfter(w, ls, |ls|, room) ensures n in live {
        var i := SettledMeansFramed(w, ls, from, last, id, user, room, n);
      }
    }
  }

  // ----- Scrolling back while everything else moves -----

  /** The k-th page of the walk back is read after `at(k)` steps. */
  ghost predicate Reads(w: F.World, ls: seq<F.Label>, at: nat -> nat, views: nat -> Tables)
    requires F.CanRun(w, ls)
  {
    forall k :: AnswerOf(w, ls, at(k), Some(views(k)))
  }

  /** A person scrolling up in any run sees exactly the messages of the first page's moment, newest first, each once. */
  method ScrollBack(views: nat -> Tables, room: nat, limit: nat, ghost w: F.World, ghost ls: seq<F.Label>, ghost at: nat -> nat)
    returns (out: seq<Pg.Row>)
    requires F.CanRun(w, ls) && Schedule(at, 0, |ls|) && Reads(w, ls, at, views)
    requires limit > 0 && room in views(0).rooms
    ensures at(0) <= |ls| && Pg.WholeHistory(F.TablesOf(F.After(w, ls, at(0))), room, out)
  {
    assert AnswerOf(w, ls, at(0), Some(views(0)));
    F.Consistent(w, ls, at(0));
    forall k ensures Pg.Appended(views(0), views(k)) {
      assert AnswerOf(w, ls, at(k), Some(views(k)));
      F.Between(w, ls, at(0), at(k));
    }
    out := Pg.WalkHistory(views, room, limit);
  }
}
