// How long the inbox must remember: when counting once is certain, and when it is not.

module Retention {
  import opened Schema
  import opened Delivery
  import U = Unread

  /** The run's assumption: a row whose message was counted is re-accepted at most `republish` later. */
  predicate Timely(c: Config, s: State, l: Label) {
    l.Accept? && l.payload.Readable? && l.payload.event.messageId in s.ledger.first ==>
      s.now <= s.ledger.first[l.payload.event.messageId] + c.republish
  }

  /**
   * The constants in the code, in milliseconds: duplicate window, maxAge, MaxDeliver, the 15 seconds a handler gives its
   * work, and the inbox retention. `queued` is how long a message that was handed out can wait for its handler.
   */
  function Shipped(republish: nat, queued: nat): (c: Config)
    ensures LongEnough(c) <==> republish + queued <= 86_385_000
  {
    Config(300_000, 86_400_000, 5, queued + 15_000, republish, 172_800_000)
  }

  ghost predicate CanRun(c: Config, s: State, ls: seq<Label>)
    decreases |ls|
  {
    ls == [] || (Enabled(c, s, ls[0]) && Timely(c, s, ls[0]) && CanRun(c, Do(c, s, ls[0]), ls[1..]))
  }

  ghost function Run(c: Config, s: State, ls: seq<Label>): State
    requires CanRun(c, s, ls)
    decreases |ls|
  {
    if ls == [] then s else Run(c, Do(c, s, ls[0]), ls[1..])
  }

  /** The inbox outlives the last moment at which a delivery of the message can still be counted. */
  predicate LongEnough(c: Config) {
    c.republish + c.maxAge + c.handling <= c.inboxRetention
  }

  /** A counted message is in the inbox since it was counted, or its time is over. */
  ghost predicate Remembers(c: Config, now: nat, l: Ledger) {
    forall m :: m in l.first ==>
      l.first[m] <= now && ((m in l.unread.inbox && l.unread.inbox[m] == l.first[m]) || now > l.first[m] + c.inboxRetention)
  }

  ghost predicate EntriesTimely(c: Config, log: seq<Entry>, first: map<nat, nat>) {
    forall i :: 0 <= i < |log| && log[i].payload.Readable? && log[i].payload.event.messageId in first ==>
      log[i].at <= first[log[i].payload.event.messageId] + c.republish
  }

  ghost predicate WorksTimely(c: Config, log: seq<Entry>, handlers: map<nat, Handler>) {
    forall h :: h in handlers && handlers[h].Working? ==>
      handlers[h].index < |log| && handlers[h].since <= log[handlers[h].index].at + c.maxAge
  }

  ghost predicate TimesOk(c: Config, s: State) {
    && Remembers(c, s.now, s.ledger)
    && EntriesTimely(c, s.stream.log, s.ledger.first)
    && WorksTimely(c, s.stream.log, s.cons.handlers)
    && U.ClaimedOnce(s.ledger.trace)
  }

  ghost predicate Inv(c: Config, s: State) {
    Delivery.Inv(c, s) && TimesOk(c, s)
  }

  /** The heart of the argument: a message already counted is still in the inbox when any delivery of it is applied. */
  lemma StillInInbox(c: Config, s: State, l: Label)
    requires TimesOk(c, s) && LongEnough(c) && Enabled(c, s, l) && l.Work?
    requires s.stream.log[s.cons.handlers[l.h].index].payload.event.messageId in s.ledger.first
    ensures s.stream.log[s.cons.handlers[l.h].index].payload.event.messageId in s.ledger.unread.inbox
  {
  }

  lemma ClaimKeepsTimes(c: Config, now: nat, log: seq<Entry>, l: Ledger, e: Event)
    requires Remembers(c, now, l) && EntriesTimely(c, log, l.first) && U.ClaimedOnce(l.trace) && LedgerOk(log, l)
    requires forall i :: 0 <= i < |log| ==> log[i].at <= now
    requires e.messageId in l.first ==> e.messageId in l.unread.inbox
    ensures var l' := Claim(l, e, now); Remembers(c, now, l') && EntriesTimely(c, log, l'.first) && U.ClaimedOnce(l'.trace)
  {
  }

  lemma WorkKeepsWorks(c: Config, s: State, l: Label)
    requires WorksTimely(c, s.stream.log, s.cons.handlers) && Enabled(c, s, l) && l.Work?
    ensures WorksTimely(c, s.stream.log, Do(c, s, l).cons.handlers)
  {
  }

  lemma WorkKeepsTimes(c: Config, s: State, l: Label)
    requires TimesOk(c, s) && LedgerOk(s.stream.log, s.ledger) && LongEnough(c) && Enabled(c, s, l) && l.Work?
    requires forall i :: 0 <= i < |s.stream.log| ==> s.stream.log[i].at <= s.now
    ensures TimesOk(c, Do(c, s, l))
  {
    WorkKeepsWorks(c, s, l);
    if l.committed {
      var e := s.stream.log[s.cons.handlers[l.h].index].payload.event;
      if e.messageId in s.ledger.first {
        StillInInbox(c, s, l);
      }
      ClaimKeepsTimes(c, s.now, s.stream.log, s.ledger, e);
    }
  }

  lemma StreamKeepsTimes(c: Config, s: State, l: Label)
    requires TimesOk(c, s) && Enabled(c, s, l) && Timely(c, s, l) && (l.Accept? || l.AcceptForeign?)
    ensures TimesOk(c, Do(c, s, l))
  {
  }

  lemma ConsumerKeepsTimes(c: Config, s: State, l: Label)
    requires TimesOk(c, s) && Enabled(c, s, l) && (l.Deliver? || l.Ack? || l.Copy? || l.Term? || l.Abandon?)
    ensures TimesOk(c, Do(c, s, l))
  {
  }

  lemma OtherKeepsTimes(c: Config, s: State, l: Label)
    requires TimesOk(c, s) && Enabled(c, s, l) && (l.Tick? || l.MarkRead? || l.Join? || l.CleanInbox?)
    ensures TimesOk(c, Do(c, s, l))
  {
  }

  lemma StepKeepsInv(c: Config, s: State, l: Label)
    requires Inv(c, s) && LongEnough(c) && Enabled(c, s, l) && Timely(c, s, l)
    ensures Inv(c, Do(c, s, l))
  {
    Delivery.StepKeepsInv(c, s, l);
    match l
    case Work(_, _, _) => WorkKeepsTimes(c, s, l);
    case Accept(_, _) => StreamKeepsTimes(c, s, l);
    case AcceptForeign => StreamKeepsTimes(c, s, l);
    case Tick(_) => OtherKeepsTimes(c, s, l);
    case MarkRead(_, _) => OtherKeepsTimes(c, s, l);
    case Join(_, _) => OtherKeepsTimes(c, s, l);
    case CleanInbox(_) => OtherKeepsTimes(c, s, l);
    case _ => ConsumerKeepsTimes(c, s, l);
  }

  lemma {:induction false} RunKeepsInv(c: Config, s: State, ls: seq<Label>)
    requires Inv(c, s) && LongEnough(c) && CanRun(c, s, ls)
    ensures Inv(c, Run(c, s, ls))
    decreases |ls|
  {
    if ls == [] {
    } else {
      StepKeepsInv(c, s, ls[0]);
      RunKeepsInv(c, Do(c, s, ls[0]), ls[1..]);
    }
  }

  /**
   * Redelivery is harmless in every reachable state: applying a message that was counted before changes no counter,
   * whether its ack was lost, its handler crashed, or the relay published it again.
   */
  lemma RedeliveryChangesNothing(c: Config, ls: seq<Label>, l: Label)
    requires LongEnough(c) && CanRun(c, EMPTY, ls) && l.Work? && Enabled(c, Run(c, EMPTY, ls), l)
    requires var s := Run(c, EMPTY, ls); s.stream.log[s.cons.handlers[l.h].index].payload.event.messageId in s.ledger.first
    ensures Do(c, Run(c, EMPTY, ls), l).ledger == Run(c, EMPTY, ls).ledger
  {
    RunKeepsInv(c, EMPTY, ls);
    StillInInbox(c, Run(c, EMPTY, ls), l);
  }

  /**
   * In every timely run each message is counted at most once, and a counter is the number of distinct messages since the
   * last read.
   */
  lemma CountedExactlyOnce(c: Config, ls: seq<Label>, room: nat, user: nat)
    requires LongEnough(c) && CanRun(c, EMPTY, ls)
    ensures var l := Run(c, EMPTY, ls).ledger;
            U.ClaimedOnce(l.trace) && U.Row(l.unread.counters, room, user).count == |U.UnseenMessages(l.trace, room, user)|
  {
    RunKeepsInv(c, EMPTY, ls);
    U.CountIsMessages(Run(c, EMPTY, ls).ledger.trace, room, user);
  }

  // ----- The bound is exact -----

  lemma {:induction false} RunThen(c: Config, s: State, ls: seq<Label>, l: Label)
    requires CanRun(c, s, ls) && Enabled(c, Run(c, s, ls), l) && Timely(c, Run(c, s, ls), l)
    ensures CanRun(c, s, ls + [l]) && Run(c, s, ls + [l]) == Do(c, Run(c, s, ls), l)
    decreases |ls|
  {
    if ls == [] {
      assert CanRun(c, Do(c, s, l), []);
    } else {
      assert (ls + [l])[1..] == ls[1..] + [l];
      RunThen(c, Do(c, s, ls[0]), ls[1..], l);
    }
  }

  ghost predicate Ran(c: Config, s0: State, ls: seq<Label>, s: State) {
    CanRun(c, s0, ls) && Run(c, s0, ls) == s
  }

  lemma Next(c: Config, s0: State, ls: seq<Label>, s: State, l: Label) returns (ls': seq<Label>, s': State)
    requires Ran(c, s0, ls, s) && Enabled(c, s, l) && Timely(c, s, l)
    ensures Ran(c, s0, ls', s') && s' == Do(c, s, l)
  {
    RunThen(c, s0, ls, l);
    ls', s' := ls + [l], Do(c, s, l);
  }

  /** One event, accepted and counted at time `f`; the second acceptance comes `republish` later. */
  lemma CountedThenRepublished(c: Config, e: Event, f: nat) returns (ls: seq<Label>, s: State)
    requires c.maxDeliver > 0 && f <= c.maxAge && f + c.republish >= c.window
    ensures Ran(c, EMPTY, ls, s) && s.now == f + c.republish && s.cons.acked == s.cons.termed == {} && s.cons.given == map[0 := 1]
    ensures s.stream.log == [Entry(1, Readable(e), 0), Entry(1, Readable(e), f + c.republish)]
    ensures s.ledger == Claim(EMPTY.ledger, e, f) && s.cons.handlers == map[0 := Counted(0)]
  {
    ls, s := Next(c, EMPTY, [], EMPTY, Accept(1, Readable(e)));
    ls, s := Next(c, EMPTY, ls, s, Tick(f));
    ls, s := Next(c, EMPTY, ls, s, Deliver(0, 0));
    ls, s := Next(c, EMPTY, ls, s, Work(0, true, true));
    ls, s := Next(c, EMPTY, ls, s, Tick(c.republish));
    ls, s := Next(c, EMPTY, ls, s, Accept(1, Readable(e)));
  }

  /** When the inbox forgets too early, a run within all the time limits counts one message twice. */
  lemma CountedTwice(c: Config, e: Event) returns (ls: seq<Label>)
    requires !LongEnough(c) && c.maxDeliver > 0 && c.window <= c.maxAge
    ensures CanRun(c, EMPTY, ls) && !U.ClaimedOnce(Run(c, EMPTY, ls).ledger.trace)
  {
    var f := if c.republish >= c.window then 0 else c.window - c.republish;
    var s: State;
    ls, s := CountedThenRepublished(c, e, f);
    ls, s := Next(c, EMPTY, ls, s, Tick(c.maxAge));
    ls, s := Next(c, EMPTY, ls, s, Deliver(1, 1));
    ls, s := Next(c, EMPTY, ls, s, Tick(c.handling));
    ls, s := Next(c, EMPTY, ls, s, CleanInbox(s.now - c.inboxRetention));
    assert e.messageId !in s.ledger.unread.inbox;
    ls, s := Next(c, EMPTY, ls, s, Work(1, true, true));
    assert s.ledger.trace[0].messageId == s.ledger.trace[1].messageId;
  }

  /**
   * Retention arithmetic, both ways: counting once is certain in every timely run exactly when the inbox is kept at
   * least for the re-publish time plus the stream's maxAge plus one handling time.
   */
  lemma RetentionIsExact(c: Config)
    requires c.maxDeliver > 0 && c.window <= c.maxAge
    ensures LongEnough(c) <==> forall ls :: CanRun(c, EMPTY, ls) ==> U.ClaimedOnce(Run(c, EMPTY, ls).ledger.trace)
  {
    if LongEnough(c) {
      forall ls | CanRun(c, EMPTY, ls) ensures U.ClaimedOnce(Run(c, EMPTY, ls).ledger.trace) {
        RunKeepsInv(c, EMPTY, ls);
      }
    } else {
      var ls := CountedTwice(c, MessageCreated(1, 1, 1, "", 1, "", None));
    }
  }

  /**
   * With the constants in the code, counting once is certain exactly as long as marking a counted row published and
   * waiting for a handler together take no longer than a day less 15 seconds.
   */
  lemma ShippedCountsOnce(republish: nat, queued: nat)
    ensures var c := Shipped(republish, queued);
            republish + queued <= 86_385_000 <==> forall ls :: CanRun(c, EMPTY, ls) ==> U.ClaimedOnce(Run(c, EMPTY, ls).ledger.trace)
  {
    RetentionIsExact(Shipped(republish, queued));
  }
}
