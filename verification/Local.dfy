// One process and no broker: the relay drains the outbox into LocalPublisher, which counts a message and pushes it to
// the node's sockets. Every run of this mode is a run of the clustered pipeline, so it keeps the same promises.

module Local {
  import opened Schema
  import W = Writers
  import U = Unread
  import D = Delivery
  import R = Retention
  import P = Pipeline
  import G = Guarantees
  import C = Consumer
  import M = OneMessage

  /** `republish` bounds the time from a message's first count to the last try of its row, as `Timely` says. */
  datatype Config = Config(republish: nat, inboxRetention: nat)

  /** History: `delivered` are the events handed to the sockets, in order. */
  datatype State = State(now: nat, db: W.Db, relay: P.Relay, ledger: D.Ledger, delivered: seq<Event>)

  datatype Label =
    | Tick(d: nat)
    | Writer(w: W.Label)
    | Fetch(batch: seq<P.Row>)
    | SkipJunk(noted: bool)
    | Handle(attempt: C.Attempt, noted: bool)
    | Mark
    | MarkFailed
    | Crash
    | CleanOutbox(before: nat)
    | CleanInbox(before: nat)
    | MarkRead(room: nat, user: nat)
    | Join(room: nat, user: nat)

  const EMPTY := State(0, W.EMPTY, P.Leader, D.EMPTY.ledger, [])

  predicate AtEvent(r: P.Relay) {
    P.AtRow(r) && r.batch[r.pos].payload.Readable?
  }

  function EventAt(r: P.Relay): Event
    requires AtEvent(r)
  {
    r.batch[r.pos].payload.event
  }

  ghost predicate Enabled(c: Config, s: State, l: Label) {
    match l
    case Writer(w) => W.Enabled(s.db, w)
    case Fetch(batch) => s.relay.Leader? && P.IsBatch(s.db.t.outbox, P.BATCH, batch)
    case SkipJunk(_) => P.AtRow(s.relay) && s.relay.batch[s.relay.pos].payload.Junk?
    case Handle(_, _) => AtEvent(s.relay)
    case Mark => s.relay.Draining? && (s.relay.broke || s.relay.pos == |s.relay.batch|) && s.relay.pos <= |s.relay.batch|
    case MarkFailed => s.relay.Draining? && (s.relay.broke || s.relay.pos == |s.relay.batch|)
    case CleanOutbox(before) => before <= s.now
    case CleanInbox(before) => before + c.inboxRetention <= s.now
    case _ => true
  }

  /** LocalPublisher's turn with one row: count it, and only then push it; an error can come before or after the commit. */
  function Handled(s: State, attempt: C.Attempt, noted: bool): State
    requires AtEvent(s.relay)
  {
    var e := EventAt(s.relay);
    var s' := s.(ledger := if attempt.FailsBefore? then s.ledger else D.Claim(s.ledger, e, s.now));
    if attempt.Works? then s'.(delivered := s.delivered + [e], relay := s.relay.(pos := s.relay.pos + 1))
    else s'.(relay := s.relay.(broke := true),
             db := if noted then P.Annotate(s.db, s.relay.batch[s.relay.pos].id) else s.db)
  }

  ghost function Do(c: Config, s: State, l: Label): State
    requires Enabled(c, s, l)
  {
    match l
    case Tick(d) => s.(now := s.now + d)
    case Writer(w) => s.(db := W.Do(s.db, w))
    case Fetch(batch) => s.(relay := P.Draining(batch, 0, false, false))
    case SkipJunk(noted) =>
      s.(relay := s.relay.(pos := s.relay.pos + 1),
         db := if noted then P.Annotate(s.db, s.relay.batch[s.relay.pos].id) else s.db)
    case Handle(attempt, noted) => Handled(s, attempt, noted)
    case Mark =>
      s.(relay := P.Leader,
         db := P.SetOutbox(s.db, P.Marked(s.db.t.outbox, P.Ids(s.relay.batch, s.relay.pos), s.now)))
    case MarkFailed => s.(relay := P.Leader)
    case Crash => s.(relay := P.Leader)
    case CleanOutbox(before) => s.(db := P.SetOutbox(s.db, P.Cleaned(s.db.t.outbox, before)))
    case CleanInbox(before) =>
      s.(ledger := s.ledger.(unread := s.ledger.unread.(inbox := U.Forget(s.ledger.unread.inbox, before))))
    case MarkRead(room, user) =>
      s.(ledger := s.ledger.(unread := U.MarkRead(s.ledger.unread, room, user), trace := s.ledger.trace + [U.Marked(room, user)]))
    case Join(room, user) => s.(ledger := s.ledger.(unread := U.Join(s.ledger.unread, room, user)))
  }

  ghost predicate CanRun(c: Config, ls: seq<Label>)
    decreases |ls|, 0
  {
    ls == [] || (CanRun(c, ls[..|ls| - 1]) && Enabled(c, Run(c, ls[..|ls| - 1]), ls[|ls| - 1]))
  }

  ghost function Run(c: Config, ls: seq<Label>): State
    requires CanRun(c, ls)
    decreases |ls|, 1
  {
    if ls == [] then EMPTY else Do(c, Run(c, ls[..|ls| - 1]), ls[|ls| - 1])
  }

  /** A counted message is tried again at most `republish` later. */
  predicate TimelyStep(c: Config, s: State, l: Label) {
    l.Handle? && !l.attempt.FailsBefore? && AtEvent(s.relay) && EventAt(s.relay).messageId in s.ledger.first ==>
      s.now <= s.ledger.first[EventAt(s.relay).messageId] + c.republish
  }

  ghost predicate Timely(c: Config, ls: seq<Label>)
    requires CanRun(c, ls)
    decreases |ls|
  {
    ls == [] || (Timely(c, ls[..|ls| - 1]) && TimelyStep(c, Run(c, ls[..|ls| - 1]), ls[|ls| - 1]))
  }

  /** LocalPublisher as the program has it; one call is one step of the run. */
  class LocalPublisher {
    const tables: C.UnreadTables
    var delivered: seq<Event>

    constructor (tables: C.UnreadTables)
      ensures this.tables == tables && delivered == []
    {
      this.tables, delivered := tables, [];
    }

    method Publish(e: Event, now: nat, attempt: C.Attempt, ghost s0: State, ghost noted: bool) returns (ok: bool, ghost s: State)
      requires AtEvent(s0.relay) && EventAt(s0.relay) == e && s0.now == now
      requires s0.ledger.unread == tables.View() && s0.delivered == delivered
      modifies this, tables
      ensures s == Handled(s0, attempt, noted) && s.ledger.unread == tables.View() && s.delivered == delivered
      ensures ok == attempt.Works?
      ensures ok ==> e.messageId in tables.inbox && delivered == old(delivered) + [e]
      ensures !ok ==> delivered == old(delivered)
      ensures tables.View() == if attempt.FailsBefore? then old(tables.View()) else U.Apply(old(tables.View()), e, now).0
    {
      s := Handled(s0, attempt, noted);
      C.ClaimIsApply(s0.ledger, e, now);
      if !attempt.FailsBefore? {
        var changed := tables.ApplyUnread(e, now);
      }
      if !attempt.Works? {
        return false, s;
      }
      delivered := delivered + [e];
      ok := true;
    }
  }

  // ----- The pipeline that does the same -----

  /** A broker with no duplicate window, whose only consumer handles every entry at once. */
  function Cluster(c: Config): (d: D.Config)
    ensures R.LongEnough(d) <==> c.republish <= c.inboxRetention
  {
    D.Config(0, 0, 1, 0, c.republish, c.inboxRetention)
  }

  ghost predicate Ran(c: D.Config, ls: seq<P.Label>, s: P.State, timely: bool) {
    P.CanRun(c, P.EMPTY, ls) && P.Run(c, P.EMPTY, ls) == s && (timely ==> G.Timely(c, P.EMPTY, ls))
  }

  lemma {:induction false} TimelyThen(c: D.Config, s: P.State, ls: seq<P.Label>, l: P.Label)
    requires P.CanRun(c, s, ls) && P.CanRun(c, s, ls + [l]) && G.Timely(c, s, ls)
    requires l.Take? ==> R.Timely(c, P.Run(c, s, ls).d, D.Accept(l.p.id, l.p.payload))
    ensures G.Timely(c, s, ls + [l])
    decreases |ls|
  {
    if ls == [] {
      assert ls + [l] == [l];
    } else {
      assert (ls + [l])[1..] == ls[1..] + [l];
      TimelyThen(c, P.Do(c, s, ls[0]), ls[1..], l);
    }
  }

  lemma Next(c: D.Config, ls: seq<P.Label>, s: P.State, timely: bool, l: P.Label) returns (ls': seq<P.Label>, s': P.State)
    requires Ran(c, ls, s, timely) && P.Enabled(c, s, l)
    requires timely && l.Take? ==> R.Timely(c, s.d, D.Accept(l.p.id, l.p.payload))
    ensures Ran(c, ls', s', timely) && s' == P.Do(c, s, l)
  {
    P.RunThen(c, P.EMPTY, ls, l);
    ls', s' := ls + [l], P.Do(c, s, l);
    if timely {
      TimelyThen(c, P.EMPTY, ls, l);
    }
  }

  /** Every entry of the stream was counted and acked, and nothing is being handled. */
  ghost predicate Consumed(d: D.State) {
    && d.cons.handlers == map[] && d.cons.termed == {}
    && (forall i: nat :: i in d.cons.acked <==> i < |d.stream.log|)
    && (forall i :: i in d.cons.given ==> i < |d.stream.log|)
  }

  ghost predicate Pushed(log: seq<D.Entry>, delivered: seq<Event>) {
    |log| == |delivered| && forall i :: 0 <= i < |log| ==> log[i].payload == Readable(delivered[i])
  }

  predicate AcceptedByNow(d: D.State) {
    forall id :: id in d.stream.accepted ==> d.stream.accepted[id] <= d.now
  }

  /**
   * The pipeline's state says the same. Seen for its counting, the stream has every message that was counted, with each
   * count its consumer's; seen for its pushing, it has what the sockets were given.
   */
  ghost predicate Same(s: State, p: P.State, counting: bool) {
    && p.db == s.db && P.RelayOf(p, 0) == s.relay && p.lock == Some(0) && p.d.now == s.now && AcceptedByNow(p.d)
    && (s.relay.Draining? ==> !s.relay.waiting)
    && (if counting then p.d.ledger == s.ledger && Consumed(p.d) else Pushed(p.d.stream.log, s.delivered))
  }

  /** A row goes to the broker, which takes it as its next entry. */
  lemma Takes(c: D.Config, ls: seq<P.Label>, p: P.State, timely: bool, r: P.Relay) returns (ls': seq<P.Label>, p': P.State)
    requires Ran(c, ls, p, timely) && P.RelayOf(p, 0) == r && AtEvent(r) && c.window == 0 && AcceptedByNow(p.d)
    requires timely ==> R.Timely(c, p.d, D.Accept(r.batch[r.pos].id, r.batch[r.pos].payload))
    ensures Ran(c, ls', p', timely) && P.RelayOf(p', 0) == r.(waiting := true)
    ensures r.batch[r.pos].id in p'.d.stream.accepted
    ensures p'.db == p.db && p'.lock == p.lock && AcceptedByNow(p'.d)
    ensures var e := D.Entry(r.batch[r.pos].id, r.batch[r.pos].payload, p.d.now);
            p'.d == p.d.(stream := D.Accepted(p.d.stream, e))
  {
    P.EveryRunIsConsistent(c, ls);
    assert P.BatchOk(p.db, p.d, r.batch, r.pos);
    assert r.batch[r.pos].id > 0;
    ls', p' := Next(c, ls, p, timely, P.Send(0));
    ls', p' := Next(c, ls', p', timely, P.Take(r.batch[r.pos]));
  }

  /** The consumer counts the newest entry and acks it. */
  lemma Counts(c: D.Config, ls: seq<P.Label>, p: P.State, timely: bool, stream: D.Stream)
    returns (ls': seq<P.Label>, p': P.State)
    requires Ran(c, ls, p, timely) && c.maxDeliver > 0 && Consumed(p.d.(stream := stream))
    requires var log := p.d.stream.log;
             |log| == |stream.log| + 1 && log[|stream.log|].payload.Readable? && log[|stream.log|].at == p.d.now
    ensures Ran(c, ls', p', timely) && p' == p.(d := p'.d) && Consumed(p'.d)
    ensures p'.d.stream == p.d.stream && p'.d.now == p.d.now
    ensures p'.d.ledger == D.Claim(p.d.ledger, p.d.stream.log[|stream.log|].payload.event, p.d.now)
  {
    var i := |stream.log|;
    ls', p' := Next(c, ls, p, timely, P.Broker(D.Deliver(0, i)));
    ls', p' := Next(c, ls', p', timely, P.Broker(D.Work(0, true, true)));
    ls', p' := Next(c, ls', p', timely, P.Broker(D.Ack(0, false)));
  }

  /** A row whose count was committed, or whose push came through: the stream takes it, and its consumer counts it. */
  lemma Reaches(c: Config, s: State, l: Label, ls: seq<P.Label>, p: P.State, timely: bool, counting: bool)
    returns (ls': seq<P.Label>, p': P.State)
    requires Enabled(c, s, l) && l.Handle? && (l.attempt.Works? || (counting && l.attempt.FailsAfter?))
    requires Ran(Cluster(c), ls, p, timely) && Same(s, p, counting)
    requires timely ==> counting && TimelyStep(c, s, l)
    ensures Ran(Cluster(c), ls', p', timely) && P.RelayOf(p', 0) == s.relay.(waiting := true)
    ensures s.relay.batch[s.relay.pos].id in p'.d.stream.accepted
    ensures var s' := Handled(s, l.attempt, l.noted);
            && p'.db == s.db && p'.lock == Some(0) && p'.d.now == s.now && AcceptedByNow(p'.d)
            && if counting then p'.d.ledger == s'.ledger && Consumed(p'.d) else Pushed(p'.d.stream.log, s'.delivered)
  {
    ls', p' := Takes(Cluster(c), ls, p, timely, s.relay);
    if counting {
      ls', p' := Counts(Cluster(c), ls', p', timely, p.d.stream);
    }
  }

  lemma HandleIsSame(c: Config, s: State, l: Label, ls: seq<P.Label>, p: P.State, timely: bool, counting: bool)
    returns (ls': seq<P.Label>, p': P.State)
    requires Enabled(c, s, l) && l.Handle? && Ran(Cluster(c), ls, p, timely) && Same(s, p, counting)
    requires timely ==> counting && TimelyStep(c, s, l)
    ensures Ran(Cluster(c), ls', p', timely) && Same(Do(c, s, l), p', counting)
  {
    ls', p' := ls, p;
    if l.attempt.Works? || (counting && l.attempt.FailsAfter?) {
      ls', p' := Reaches(c, s, l, ls, p, timely, counting);
    }
    ls', p' := Next(Cluster(c), ls', p', timely, if l.attempt.Works? then P.Acked(0) else P.Failed(0, l.noted));
  }

  /** The steps that are the relay's or the writers' in both modes. */
  lemma RelayIsSame(c: Config, s: State, l: Label, ls: seq<P.Label>, p: P.State, timely: bool, counting: bool)
    returns (ls': seq<P.Label>, p': P.State)
    requires Enabled(c, s, l) && (l.Writer? || l.Fetch? || l.SkipJunk? || l.Mark? || l.MarkFailed? || l.CleanOutbox?)
    requires Ran(Cluster(c), ls, p, timely) && Same(s, p, counting)
    ensures Ran(Cluster(c), ls', p', timely) && Same(Do(c, s, l), p', counting)
  {
    var pl := match l
      case Writer(w) => P.Writer(w)
      case Fetch(batch) => P.Fetch(0, batch)
      case SkipJunk(noted) => P.SkipJunk(0, noted)
      case Mark => P.Mark(0)
      case MarkFailed => P.MarkFailed(0)
      case CleanOutbox(before) => P.CleanOutbox(before);
    ls', p' := Next(Cluster(c), ls, p, timely, pl);
  }

  lemma CrashIsSame(c: Config, s: State, ls: seq<P.Label>, p: P.State, timely: bool, counting: bool)
    returns (ls': seq<P.Label>, p': P.State)
    requires Ran(Cluster(c), ls, p, timely) && Same(s, p, counting)
    ensures Ran(Cluster(c), ls', p', timely) && Same(Do(c, s, Crash), p', counting)
  {
    ls', p' := Next(Cluster(c), ls, p, timely, P.Stop(0));
    ls', p' := Next(Cluster(c), ls', p', timely, P.TryLock(0));
  }

  /** Time, reads, joins and the inbox's janitor; what is only about counting leaves the pushes alone. */
  lemma OtherIsSame(c: Config, s: State, l: Label, ls: seq<P.Label>, p: P.State, timely: bool, counting: bool)
    returns (ls': seq<P.Label>, p': P.State)
    requires Enabled(c, s, l) && (l.Tick? || l.MarkRead? || l.Join? || l.CleanInbox?)
    requires Ran(Cluster(c), ls, p, timely) && Same(s, p, counting)
    ensures Ran(Cluster(c), ls', p', timely) && Same(Do(c, s, l), p', counting)
  {
    var bl := match l
      case Tick(d) => D.Tick(d)
      case MarkRead(room, user) => D.MarkRead(room, user)
      case Join(room, user) => D.Join(room, user)
      case CleanInbox(before) => D.CleanInbox(before);
    ls', p' := Next(Cluster(c), ls, p, timely, P.Broker(bl));
  }

  lemma StepIsSame(c: Config, s: State, l: Label, ls: seq<P.Label>, p: P.State, timely: bool, counting: bool)
    returns (ls': seq<P.Label>, p': P.State)
    requires Enabled(c, s, l) && Ran(Cluster(c), ls, p, timely) && Same(s, p, counting)
    requires timely ==> counting && TimelyStep(c, s, l)
    ensures Ran(Cluster(c), ls', p', timely) && Same(Do(c, s, l), p', counting)
  {
    if l.Handle? {
      ls', p' := HandleIsSame(c, s, l, ls, p, timely, counting);
    } else if l.Crash? {
      ls', p' := CrashIsSame(c, s, ls, p, timely, counting);
    } else if l.Tick? || l.MarkRead? || l.Join? || l.CleanInbox? {
      ls', p' := OtherIsSame(c, s, l, ls, p, timely, counting);
    } else {
      ls', p' := RelayIsSame(c, s, l, ls, p, timely, counting);
    }
  }

  /** The single-node mode refines the pipeline: for each of its runs there is one with the same tables and counts, or pushes. */
  lemma {:induction false} RefinesPipeline(c: Config, ls: seq<Label>, counting: bool) returns (ps: seq<P.Label>, p: P.State)
    requires CanRun(c, ls)
    ensures Ran(Cluster(c), ps, p, counting && Timely(c, ls)) && Same(Run(c, ls), p, counting)
    decreases |ls|
  {
    if ls == [] {
      ps, p := Next(Cluster(c), [], P.EMPTY, counting, P.TryLock(0));
    } else {
      var init := ls[..|ls| - 1];
      ps, p := RefinesPipeline(c, init, counting);
      ps, p := StepIsSame(c, Run(c, init), ls[|ls| - 1], ps, p, counting && Timely(c, ls), counting);
    }
  }

  // ----- What the mode promises -----

  /** A row that does not wait any more, stamped or cleaned out since, has its message counted and pushed. */
  lemma StampedIsCounted(c: Config, ls: seq<Label>, oid: nat)
    requires CanRun(c, ls)
    requires var s := Run(c, ls); oid in s.db.journal && s.db.journal[oid].Readable? && !Pending(s.db.t.outbox, oid)
    ensures var s := Run(c, ls); s.db.journal[oid].event.messageId in s.ledger.first && s.db.journal[oid].event in s.delivered
  {
    var ps, p := RefinesPipeline(c, ls, true);
    OnLogOnce(Cluster(c), ps, oid);
    var i :| 0 <= i < |p.d.stream.log| && p.d.stream.log[i].outboxId == oid && p.d.stream.log[i].payload == p.db.journal[oid];
    assert D.Counts(p.d.stream.log, p.d.ledger.first, i) by {
      P.EveryRunIsConsistent(Cluster(c), ps);
    }
    var qs, q := RefinesPipeline(c, ls, false);
    OnLogOnce(Cluster(c), qs, oid);
  }

  lemma OnLogOnce(c: D.Config, ps: seq<P.Label>, oid: nat)
    requires P.CanRun(c, P.EMPTY, ps)
    requires var p := P.Run(c, P.EMPTY, ps); oid in p.db.journal && p.db.journal[oid].Readable? && !Pending(p.db.t.outbox, oid)
    ensures var p := P.Run(c, P.EMPTY, ps); G.OnStream(p.d.stream.log, oid, p.db.journal[oid])
  {
    P.EveryRunIsConsistent(c, ps);
    G.AcceptedIsOnStream(c, P.Run(c, P.EMPTY, ps), oid);
  }

  /** The sockets get a room's messages in seq order: before a message, every earlier one of its room was pushed. */
  lemma PushedInOrder(c: Config, ls: seq<Label>, i: nat, n: nat)
    requires CanRun(c, ls) && i < |Run(c, ls).delivered| && 1 <= n < Run(c, ls).delivered[i].seqNo
    ensures var pushed := Run(c, ls).delivered;
            exists j :: 0 <= j < i && pushed[j].room == pushed[i].room && pushed[j].seqNo == n
  {
    var pushed := Run(c, ls).delivered;
    var ps, p := RefinesPipeline(c, ls, false);
    G.InRoomOrder(Cluster(c), ps, i, pushed[i].room, pushed[i].seqNo, n);
    var j :| 0 <= j < i && j < |p.d.stream.log| && G.SeqAt(p.d.stream.log[j], pushed[i].room, n);
  }

  /**
   * In every timely run no message is counted twice, only committed messages are counted, and a badge is the number of
   * distinct messages counted since the last read, whatever crashed between a count and its stamp.
   */
  lemma BadgeIsExact(c: Config, ls: seq<Label>, room: nat, user: nat)
    requires c.republish <= c.inboxRetention && CanRun(c, ls) && Timely(c, ls)
    ensures var s := Run(c, ls); var trace := s.ledger.trace;
            && U.ClaimedOnce(trace)
            && (forall k :: 0 <= k < |trace| && trace[k].Claimed? ==> G.ClaimsCommitted(s.db.t.messages, trace[k]))
            && U.Row(s.ledger.unread.counters, room, user).count == |U.UnseenMessages(trace, room, user)|
  {
    var ps, p := RefinesPipeline(c, ls, true);
    G.BadgeIsExact(Cluster(c), ps, room, user);
  }

  ghost predicate WasPushed(s: State, id: nat, m: Message) {
    exists e :: e in s.delivered && Describes(e, id, m)
  }

  /** Once no row waits, every committed message has been counted and pushed. */
  lemma DrainedMeansCounted(c: Config, ls: seq<Label>, id: nat)
    requires CanRun(c, ls) && id in Run(c, ls).db.t.messages && forall oid :: !Pending(Run(c, ls).db.t.outbox, oid)
    ensures var s := Run(c, ls); id in s.ledger.first && WasPushed(s, id, s.db.t.messages[id])
  {
    var ps, p := RefinesPipeline(c, ls, true);
    P.EveryRunIsConsistent(Cluster(c), ps);
    assert W.Told(p.db.journal, id, p.db.t.messages[id]);
    var oid :| oid in p.db.journal && p.db.journal[oid].Readable? && Describes(p.db.journal[oid].event, id, p.db.t.messages[id]);
    StampedIsCounted(c, ls, oid);
  }

  /** A row tried again after its message was counted, its stamp lost in a crash or an error, changes no counter. */
  lemma HandledAgain(c: Config, ls: seq<Label>, l: Label)
    requires c.republish <= c.inboxRetention && CanRun(c, ls) && Timely(c, ls)
    requires var s := Run(c, ls); Enabled(c, s, l) && l.Handle? && TimelyStep(c, s, l) && EventAt(s.relay).messageId in s.ledger.first
    ensures Do(c, Run(c, ls), l).ledger == Run(c, ls).ledger
  {
    var ps, p := RefinesPipeline(c, ls, true);
    var ds := G.Projection(Cluster(c), P.EMPTY, ps);
    R.RunKeepsInv(Cluster(c), D.EMPTY, ds);
    assert R.Remembers(Cluster(c), p.d.now, p.d.ledger);
  }

  // ----- The bound is exact -----

  ghost predicate At(c: Config, ls: seq<Label>, s: State) {
    CanRun(c, ls) && Timely(c, ls) && Run(c, ls) == s
  }

  lemma Go(c: Config, ls: seq<Label>, s: State, l: Label) returns (ls': seq<Label>, s': State)
    requires At(c, ls, s) && Enabled(c, s, l) && TimelyStep(c, s, l)
    ensures At(c, ls', s') && s' == Do(c, s, l)
  {
    ls', s' := ls + [l], Do(c, s, l);
    assert ls'[..|ls'| - 1] == ls;
  }

  lemma {:induction false} Writes(c: Config, ls: seq<Label>, s: State, ws: seq<W.Label>) returns (ls': seq<Label>, s': State)
    requires At(c, ls, s) && W.CanRun(s.db, ws)
    ensures At(c, ls', s') && s' == s.(db := W.Run(s.db, ws))
    decreases |ws|
  {
    if ws == [] {
      ls', s' := ls, s;
    } else {
      ls', s' := Go(c, ls, s, Writer(ws[0]));
      ls', s' := Writes(c, ls', s', ws[1..]);
    }
  }

  /** The message is fetched, counted and pushed, and nothing else happens. */
  lemma HandlesIt(c: Config, ls: seq<Label>, s: State) returns (ls': seq<Label>, s': State)
    requires At(c, ls, s) && s.relay.Leader? && s.db == M.Committed()
    requires 1 in s.ledger.first ==> s.now <= s.ledger.first[1] + c.republish
    ensures At(c, ls', s') && s' == s.(ledger := D.Claim(s.ledger, M.EVENT, s.now), delivered := s.delivered + [M.EVENT],
                                       relay := P.Draining([M.ROW], 1, false, false))
  {
    M.IsFetched();
    ls', s' := Go(c, ls, s, Fetch([M.ROW]));
    ls', s' := Go(c, ls', s', Handle(C.Works, false));
  }

  /** The stamp fails, time passes, and the janitor forgets every claim made more than the retention ago. */
  lemma ForgetsIt(c: Config, ls: seq<Label>, s: State) returns (ls': seq<Label>, s': State)
    requires At(c, ls, s) && s.relay == P.Draining([M.ROW], 1, false, false) && s.now + c.republish >= c.inboxRetention
    ensures At(c, ls', s') && s'.relay.Leader? && s'.db == s.db && s'.now == s.now + c.republish
    ensures s'.ledger.first == s.ledger.first && s'.ledger.trace == s.ledger.trace
    ensures s'.ledger.unread.inbox == U.Forget(s.ledger.unread.inbox, s'.now - c.inboxRetention)
  {
    ls', s' := Go(c, ls, s, MarkFailed);
    ls', s' := Go(c, ls', s', Tick(c.republish));
    ls', s' := Go(c, ls', s', CleanInbox(s'.now - c.inboxRetention));
  }

  /** When the inbox forgets before the row is tried again, a message is counted twice. */
  lemma CountedTwice(c: Config) returns (ls: seq<Label>)
    requires c.republish > c.inboxRetention
    ensures CanRun(c, ls) && Timely(c, ls) && !U.ClaimedOnce(Run(c, ls).ledger.trace)
  {
    var ws := M.IsReachable();
    var s: State;
    ls, s := Writes(c, [], EMPTY, ws);
    ls, s := HandlesIt(c, ls, s);
    ls, s := ForgetsIt(c, ls, s);
    ls, s := HandlesIt(c, ls, s);
    assert s.ledger.trace[0].messageId == s.ledger.trace[1].messageId;
  }

  /** Counting once is certain in every timely run exactly when the inbox is kept for the re-try time. */
  lemma RetentionIsExact(c: Config)
    ensures c.republish <= c.inboxRetention <==>
              forall ls :: CanRun(c, ls) && Timely(c, ls) ==> U.ClaimedOnce(Run(c, ls).ledger.trace)
  {
    if c.republish <= c.inboxRetention {
      forall ls | CanRun(c, ls) && Timely(c, ls) ensures U.ClaimedOnce(Run(c, ls).ledger.trace) {
        BadgeIsExact(c, ls, 0, 0);
      }
    } else {
      var ls := CountedTwice(c);
    }
  }
}
