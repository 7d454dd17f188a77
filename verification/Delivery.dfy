// The CHAT stream and its shared durable consumer: at-least-once delivery to any number of concurrent handlers,
// lost acks, crashes, the dead-letter queue, and the janitor that forgets old inbox rows.

module Delivery {
  import opened Schema
  import U = Unread

  /**
   * Times share one clock. `handling` bounds the time from the broker's hand-out to the commit of the counters, the wait
   * for a handler included; `republish` is the bound of Retention.Timely.
   */
  datatype Config = Config(
    window: nat, maxAge: nat, maxDeliver: nat, handling: nat, republish: nat, inboxRetention: nat)

  /** One message of the stream; outboxId is 0 for a message that did not come from the relay. */
  datatype Entry = Entry(outboxId: nat, payload: Payload, at: nat)

  /** One run of handleUnread: working on the message, done with it, giving up on it, copied to the dead letters. */
  datatype Handler =
    | Working(index: nat, delivered: nat, since: nat)
    | Counted(index: nat)
    | Dying(index: nat)
    | Buried(index: nat)

  /** The stream and the broker's memory of message ids. */
  datatype Stream = Stream(log: seq<Entry>, accepted: map<nat, nat>)

  /** The durable consumer, by stream position; `dead` is the dead-letter stream. */
  datatype Consumer = Consumer(
    given: map<nat, nat>, acked: set<nat>, termed: set<nat>, dead: set<nat>, handlers: map<nat, Handler>)

  /** History variables: `first` is when each message was first counted, `trace` the claims and reads so far. */
  datatype Ledger = Ledger(unread: U.State, first: map<nat, nat>, trace: seq<U.Op>)

  datatype State = State(now: nat, stream: Stream, cons: Consumer, ledger: Ledger)

  datatype CopyResult = Stored | Refused | StoredButUnknown

  datatype Label =
    | Tick(d: nat)
    | Accept(outboxId: nat, payload: Payload)
    | AcceptForeign
    | Deliver(h: nat, index: nat)
    | Work(h: nat, committed: bool, reported: bool)
    | Ack(h: nat, lost: bool)
    | Copy(h: nat, result: CopyResult)
    | Term(h: nat, lost: bool)
    | Abandon(h: nat)
    | MarkRead(room: nat, user: nat)
    | Join(room: nat, user: nat)
    | CleanInbox(before: nat)

  predicate Fresh(c: Config, s: State, outboxId: nat) {
    outboxId !in s.stream.accepted || s.now >= s.stream.accepted[outboxId] + c.window
  }

  function Given(cons: Consumer, index: nat): nat {
    if index in cons.given then cons.given[index] else 0
  }

  predicate Enabled(c: Config, s: State, l: Label) {
    var log, cons := s.stream.log, s.cons;
    match l
    case Accept(outboxId, _) => outboxId > 0
    case Deliver(h, i) =>
      && h !in cons.handlers && i < |log| && i !in cons.acked && i !in cons.termed
      && Given(cons, i) < c.maxDeliver && s.now <= log[i].at + c.maxAge
    case Work(h, committed, reported) =>
      && h in cons.handlers && cons.handlers[h].Working? && cons.handlers[h].index < |log|
      && log[cons.handlers[h].index].payload.Readable?
      && s.now <= cons.handlers[h].since + c.handling && (reported ==> committed)
    case Ack(h, _) => h in cons.handlers && cons.handlers[h].Counted?
    case Copy(h, _) => h in cons.handlers && cons.handlers[h].Dying?
    case Term(h, _) => h in cons.handlers && cons.handlers[h].Buried?
    case Abandon(h) => h in cons.handlers
    case CleanInbox(before) => before + c.inboxRetention <= s.now
    case _ => true
  }

  function Accepted(stream: Stream, e: Entry): Stream {
    Stream(stream.log + [e], stream.accepted[e.outboxId := e.at])
  }

  /** The transaction of ApplyUnread, with its trail in the history. */
  function Claim(l: Ledger, e: Event, now: nat): Ledger {
    if e.messageId in l.unread.inbox then l
    else Ledger(U.Apply(l.unread, e, now).0,
                if e.messageId in l.first then l.first else l.first[e.messageId := now],
                l.trace + [U.ClaimOf(l.unread, e)])
  }

  function Settle(cons: Consumer, h: nat, next: Handler): Consumer {
    cons.(handlers := cons.handlers[h := next])
  }

  function Finish(cons: Consumer, h: nat): Consumer {
    cons.(handlers := cons.handlers - {h})
  }

  /** What the handler does after apply: ack next, give up on the last delivery, or nak. */
  function AfterWork(c: Config, cons: Consumer, h: nat, reported: bool): Consumer
    requires h in cons.handlers && cons.handlers[h].Working?
  {
    var w := cons.handlers[h];
    if reported then Settle(cons, h, Counted(w.index))
    else if w.delivered >= c.maxDeliver then Settle(cons, h, Dying(w.index))
    else Finish(cons, h)
  }

  function AfterCopy(cons: Consumer, h: nat, result: CopyResult): Consumer
    requires h in cons.handlers
  {
    var i := cons.handlers[h].index;
    match result
    case Stored => Settle(cons.(dead := cons.dead + {i}), h, Buried(i))
    case Refused => Finish(cons, h)
    case StoredButUnknown => Finish(cons.(dead := cons.dead + {i}), h)
  }

  function Do(c: Config, s: State, l: Label): State
    requires Enabled(c, s, l)
  {
    var log, cons := s.stream.log, s.cons;
    match l
    case Tick(d) => s.(now := s.now + d)
    case Accept(outboxId, payload) =>
      if Fresh(c, s, outboxId) then s.(stream := Accepted(s.stream, Entry(outboxId, payload, s.now))) else s
    case AcceptForeign => s.(stream := s.stream.(log := log + [Entry(0, Junk, s.now)]))
    case Deliver(h, i) =>
      var n := Given(cons, i) + 1;
      // An envelope that does not decode goes straight to the dead letters.
      s.(cons := Settle(cons.(given := cons.given[i := n]), h, if log[i].payload.Junk? then Dying(i) else Working(i, n, s.now)))
    case Work(h, committed, reported) =>
      s.(cons := AfterWork(c, cons, h, reported),
         ledger := if committed then Claim(s.ledger, log[cons.handlers[h].index].payload.event, s.now) else s.ledger)
    case Ack(h, lost) =>
      var i := cons.handlers[h].index;
      s.(cons := Finish(if lost || i in cons.termed then cons else cons.(acked := cons.acked + {i}), h))
    case Copy(h, result) => s.(cons := AfterCopy(cons, h, result))
    case Term(h, lost) =>
      var i := cons.handlers[h].index;
      s.(cons := Finish(if lost || i in cons.acked then cons else cons.(termed := cons.termed + {i}), h))
    case Abandon(h) => s.(cons := Finish(cons, h))
    case MarkRead(room, user) =>
      s.(ledger := s.ledger.(unread := U.MarkRead(s.ledger.unread, room, user), trace := s.ledger.trace + [U.Marked(room, user)]))
    case Join(room, user) => s.(ledger := s.ledger.(unread := U.Join(s.ledger.unread, room, user)))
    case CleanInbox(before) =>
      s.(ledger := s.ledger.(unread := s.ledger.unread.(inbox := U.Forget(s.ledger.unread.inbox, before))))
  }

  const EMPTY := State(0, Stream([], map[]), Consumer(map[], {}, {}, {}, map[]), Ledger(U.State(map[], map[], map[]), map[], []))

  // ----- Settlement -----

  predicate Counts(log: seq<Entry>, first: map<nat, nat>, i: nat) {
    i < |log| && log[i].payload.Readable? && log[i].payload.event.messageId in first
  }

  ghost predicate HandlerOk(log: seq<Entry>, first: map<nat, nat>, dead: set<nat>, w: Handler) {
    && w.index < |log|
    && (w.Counted? ==> Counts(log, first, w.index))
    && (w.Buried? ==> w.index in dead)
  }

  /** Acked only when counted, Term'd only when buried, and never both. */
  ghost predicate SettlementOk(log: seq<Entry>, first: map<nat, nat>, cons: Consumer) {
    && (forall i :: i in cons.acked ==> Counts(log, first, i))
    && cons.termed <= cons.dead && cons.acked !! cons.termed
    && (forall h :: h in cons.handlers ==> HandlerOk(log, first, cons.dead, cons.handlers[h]))
  }

  lemma ConsumerStep(c: Config, s: State, l: Label)
    requires SettlementOk(s.stream.log, s.ledger.first, s.cons) && Enabled(c, s, l) && !l.Work?
    ensures SettlementOk(s.stream.log, s.ledger.first, Do(c, s, l).cons)
  {
    if l.Ack? || l.Copy? || l.Term? || l.Abandon? {
      assert HandlerOk(s.stream.log, s.ledger.first, s.cons.dead, s.cons.handlers[l.h]);
    }
  }

  lemma WorkSettles(c: Config, s: State, l: Label)
    requires SettlementOk(s.stream.log, s.ledger.first, s.cons) && Enabled(c, s, l) && l.Work?
    requires s.ledger.unread.inbox.Keys <= s.ledger.first.Keys
    ensures SettlementOk(s.stream.log, Do(c, s, l).ledger.first, Do(c, s, l).cons)
  {
    var log, first' := s.stream.log, Do(c, s, l).ledger.first;
    forall h | h in s.cons.handlers ensures HandlerOk(log, first', s.cons.dead, s.cons.handlers[h]) {
      assert HandlerOk(log, s.ledger.first, s.cons.dead, s.cons.handlers[h]);
    }
    assert l.committed ==> Counts(log, first', s.cons.handlers[l.h].index);
  }

  lemma LogGrowsSettlement(log: seq<Entry>, log': seq<Entry>, first: map<nat, nat>, cons: Consumer)
    requires SettlementOk(log, first, cons) && log <= log'
    ensures SettlementOk(log', first, cons)
  {
    forall h | h in cons.handlers ensures HandlerOk(log', first, cons.dead, cons.handlers[h]) {
      assert HandlerOk(log, first, cons.dead, cons.handlers[h]);
    }
  }

  lemma SettlementKept(c: Config, s: State, l: Label)
    requires SettlementOk(s.stream.log, s.ledger.first, s.cons) && Enabled(c, s, l)
    requires s.ledger.unread.inbox.Keys <= s.ledger.first.Keys
    ensures var s' := Do(c, s, l); SettlementOk(s'.stream.log, s'.ledger.first, s'.cons)
  {
    if l.Work? {
      WorkSettles(c, s, l);
    } else {
      ConsumerStep(c, s, l);
      LogGrowsSettlement(s.stream.log, Do(c, s, l).stream.log, s.ledger.first, Do(c, s, l).cons);
    }
  }

  // ----- The stream -----

  ghost predicate OnLog(log: seq<Entry>, id: nat) {
    exists i :: 0 <= i < |log| && log[i].outboxId == id
  }

  ghost predicate WindowApart(c: Config, log: seq<Entry>) {
    forall i, j :: 0 <= i < j < |log| && log[i].outboxId == log[j].outboxId > 0 ==> log[i].at + c.window <= log[j].at
  }

  /** The duplicate memory knows the last acceptance of every row, and acceptances of one row are a window apart. */
  ghost predicate StreamOk(c: Config, now: nat, stream: Stream) {
    var log := stream.log;
    && (forall i :: 0 <= i < |log| ==> log[i].at <= now)
    && (forall i :: 0 <= i < |log| && log[i].outboxId > 0 ==>
          log[i].outboxId in stream.accepted && log[i].at <= stream.accepted[log[i].outboxId])
    && (forall id :: id in stream.accepted ==> OnLog(log, id))
    && WindowApart(c, log)
  }

  lemma OnLogGrows(log: seq<Entry>, e: Entry)
    ensures OnLog(log + [e], e.outboxId) && forall id :: OnLog(log, id) ==> OnLog(log + [e], id)
  {
    assert (log + [e])[|log|] == e;
    forall id | OnLog(log, id) ensures OnLog(log + [e], id) {
      var i :| 0 <= i < |log| && log[i].outboxId == id;
      assert (log + [e])[i].outboxId == id;
    }
  }

  lemma AcceptKeepsWindow(c: Config, s: State, e: Entry)
    requires StreamOk(c, s.now, s.stream) && e.at == s.now && e.outboxId > 0 && Fresh(c, s, e.outboxId)
    ensures WindowApart(c, s.stream.log + [e])
  {
    var log' := s.stream.log + [e];
    forall i, j | 0 <= i < j < |log'| && log'[i].outboxId == log'[j].outboxId > 0 ensures log'[i].at + c.window <= log'[j].at {
      assert log'[i] == s.stream.log[i];
    }
  }

  lemma AcceptKeepsStream(c: Config, s: State, e: Entry)
    requires StreamOk(c, s.now, s.stream) && e.at == s.now && e.outboxId > 0 && Fresh(c, s, e.outboxId)
    ensures StreamOk(c, s.now, Accepted(s.stream, e))
  {
    OnLogGrows(s.stream.log, e);
    AcceptKeepsWindow(c, s, e);
  }

  lemma ForeignKeepsStream(c: Config, now: nat, stream: Stream)
    requires StreamOk(c, now, stream)
    ensures StreamOk(c, now, stream.(log := stream.log + [Entry(0, Junk, now)]))
  {
    OnLogGrows(stream.log, Entry(0, Junk, now));
  }

  lemma StreamKept(c: Config, s: State, l: Label)
    requires StreamOk(c, s.now, s.stream) && Enabled(c, s, l)
    ensures StreamOk(c, Do(c, s, l).now, Do(c, s, l).stream)
  {
    if l.Accept? && Fresh(c, s, l.outboxId) {
      AcceptKeepsStream(c, s, Entry(l.outboxId, l.payload, s.now));
    } else if l.AcceptForeign? {
      ForeignKeepsStream(c, s.now, s.stream);
    }
  }

  // ----- The counters -----

  predicate Records(op: U.Op, e: Event) {
    op.Claimed? && op.messageId == e.messageId && op.room == e.room && op.sender == e.sender && op.seqNo == e.seqNo
  }

  ghost predicate FromLog(log: seq<Entry>, op: U.Op) {
    exists i :: 0 <= i < |log| && log[i].payload.Readable? && Records(op, log[i].payload.event)
  }

  ghost predicate InTrace(trace: seq<U.Op>, m: nat) {
    exists k :: 0 <= k < |trace| && trace[k].Claimed? && trace[k].messageId == m
  }

  /** Counters are what the history says, and the history counts only messages of the stream. */
  ghost predicate LedgerOk(log: seq<Entry>, l: Ledger) {
    && U.Explains(l.trace, l.unread.counters)
    && (forall k :: 0 <= k < |l.trace| && l.trace[k].Claimed? ==> l.trace[k].messageId in l.first && FromLog(log, l.trace[k]))
    && (forall m :: m in l.first ==> InTrace(l.trace, m))
    && l.unread.inbox.Keys <= l.first.Keys
  }

  lemma TraceGrows(trace: seq<U.Op>, op: U.Op, m: nat)
    requires InTrace(trace, m)
    ensures InTrace(trace + [op], m)
  {
    var k :| 0 <= k < |trace| && trace[k].Claimed? && trace[k].messageId == m;
    assert (trace + [op])[k] == trace[k];
  }

  lemma ClaimKeepsLedger(log: seq<Entry>, l: Ledger, i: nat, now: nat)
    requires LedgerOk(log, l) && i < |log| && log[i].payload.Readable?
    ensures LedgerOk(log, Claim(l, log[i].payload.event, now))
  {
    var e := log[i].payload.event;
    if e.messageId !in l.unread.inbox {
      var op, l' := U.ClaimOf(l.unread, e), Claim(l, e, now);
      U.ApplyExplained(l.trace, l.unread, e, now);
      assert Records(op, e) && l'.trace[|l.trace|] == op;
      forall m | m in l'.first ensures InTrace(l'.trace, m) {
        if m in l.first {
          TraceGrows(l.trace, op, m);
        }
      }
    }
  }

  lemma MarkReadKeepsLedger(log: seq<Entry>, l: Ledger, room: nat, user: nat)
    requires LedgerOk(log, l)
    ensures LedgerOk(log, l.(unread := U.MarkRead(l.unread, room, user), trace := l.trace + [U.Marked(room, user)]))
  {
    U.MarkReadExplained(l.trace, l.unread, room, user);
    forall m | m in l.first ensures InTrace(l.trace + [U.Marked(room, user)], m) {
      TraceGrows(l.trace, U.Marked(room, user), m);
    }
  }

  lemma QuietLedger(log: seq<Entry>, log': seq<Entry>, l: Ledger, l': Ledger)
    requires LedgerOk(log, l) && log <= log' && l'.first == l.first && l'.trace == l.trace
    requires l'.unread.counters == l.unread.counters && l'.unread.inbox.Keys <= l.unread.inbox.Keys
    ensures LedgerOk(log', l')
  {
    forall k | 0 <= k < |l.trace| && l.trace[k].Claimed? ensures FromLog(log', l.trace[k]) {
      var i :| 0 <= i < |log| && log[i].payload.Readable? && Records(l.trace[k], log[i].payload.event);
      assert log'[i] == log[i];
    }
  }

  lemma LedgerKept(c: Config, s: State, l: Label)
    requires LedgerOk(s.stream.log, s.ledger) && Enabled(c, s, l)
    ensures LedgerOk(Do(c, s, l).stream.log, Do(c, s, l).ledger)
  {
    if l.Work? {
      if l.committed {
        ClaimKeepsLedger(s.stream.log, s.ledger, s.cons.handlers[l.h].index, s.now);
      }
    } else if l.MarkRead? {
      MarkReadKeepsLedger(s.stream.log, s.ledger, l.room, l.user);
    } else {
      QuietLedger(s.stream.log, Do(c, s, l).stream.log, s.ledger, Do(c, s, l).ledger);
    }
  }

  ghost predicate Inv(c: Config, s: State) {
    && SettlementOk(s.stream.log, s.ledger.first, s.cons)
    && StreamOk(c, s.now, s.stream)
    && LedgerOk(s.stream.log, s.ledger)
  }

  lemma StepKeepsInv(c: Config, s: State, l: Label)
    requires Inv(c, s) && Enabled(c, s, l)
    ensures Inv(c, Do(c, s, l))
  {
    SettlementKept(c, s, l);
    StreamKept(c, s, l);
    LedgerKept(c, s, l);
  }
}
