// What becomes of a message whose dead-letter copy fails: it comes back only while deliveries are left.

module DeadLetters {
  import opened Schema
  import opened Delivery
  import P = Pipeline
  import R = Retention

  predicate Settled(cons: Consumer, i: nat) {
    i in cons.acked || i in cons.termed
  }

  predicate Held(cons: Consumer, i: nat) {
    exists h :: h in cons.handlers && cons.handlers[h].index == i
  }

  /** Between two deliveries: the entry waits, with nobody working on it and no verdict yet. */
  predicate Waiting(s: State, i: nat) {
    i < |s.stream.log| && !Settled(s.cons, i) && !Held(s.cons, i)
  }

  /** What the broker looks at before it hands the entry out again. */
  predicate DeliveriesLeft(c: Config, s: State, i: nat)
    requires i < |s.stream.log|
  {
    Given(s.cons, i) < c.maxDeliver && s.now <= s.stream.log[i].at + c.maxAge
  }

  lemma StepLeavesIt(c: Config, s: State, l: Label, i: nat)
    requires Waiting(s, i) && !DeliveriesLeft(c, s, i) && Enabled(c, s, l)
    ensures Waiting(Do(c, s, l), i) && !DeliveriesLeft(c, Do(c, s, l), i)
    ensures i in Do(c, s, l).cons.dead <==> i in s.cons.dead
  {
    var s' := Do(c, s, l);
    assert s.stream.log[i] == s'.stream.log[i];
    forall h | h in s'.cons.handlers ensures s'.cons.handlers[h].index != i {
      assert h in s.cons.handlers ==> s.cons.handlers[h].index != i;
      assert (l.Work? || l.Copy?) && h == l.h ==> s.cons.handlers[h].index != i;
    }
  }

  /**
   * The copy of a message that failed on its last delivery is not tried again: in every run from there, of senders,
   * relays, broker and handlers alike, the entry is never acked, never Term'd and never reaches the dead letters.
   */
  lemma {:induction false} LastNakIsFinal(c: Config, s: P.State, ls: seq<P.Label>, i: nat)
    requires P.CanRun(c, s, ls) && Waiting(s.d, i) && !DeliveriesLeft(c, s.d, i)
    ensures var d := P.Run(c, s, ls).d; Waiting(d, i) && !DeliveriesLeft(c, d, i) && (i in d.cons.dead <==> i in s.d.cons.dead)
    decreases |ls|
  {
    if ls == [] {
    } else {
      var l := ls[0];
      if l.Take? {
        StepLeavesIt(c, s.d, Accept(l.p.id, l.p.payload), i);
      } else if l.Broker? {
        StepLeavesIt(c, s.d, l.l, i);
      }
      LastNakIsFinal(c, P.Do(c, s, l), ls[1..], i);
    }
  }

  lemma {:induction false} NeverSettled(c: Config, s: State, ls: seq<Label>, i: nat)
    requires R.CanRun(c, s, ls) && Waiting(s, i) && !DeliveriesLeft(c, s, i)
    ensures !Settled(R.Run(c, s, ls).cons, i)
    decreases |ls|
  {
    if ls == [] {
    } else {
      StepLeavesIt(c, s, ls[0], i);
      NeverSettled(c, Do(c, s, ls[0]), ls[1..], i);
    }
  }

  lemma FreeHandler(handlers: map<nat, Handler>) returns (h: nat)
    ensures h !in handlers
  {
    h := 0;
    var rest := handlers.Keys;
    while rest != {}
      invariant forall k :: k in handlers ==> k in rest || k < h
      decreases rest
    {
      var k :| k in rest;
      rest := rest - {k};
      if k >= h {
        h := k + 1;
      }
    }
  }

  ghost predicate SettledBy(c: Config, s: State, ls: seq<Label>, i: nat) {
    R.CanRun(c, s, ls) && Settled(R.Run(c, s, ls).cons, i)
  }

  lemma CanSettle(c: Config, s: State, i: nat) returns (ls: seq<Label>)
    requires Waiting(s, i) && DeliveriesLeft(c, s, i)
    ensures SettledBy(c, s, ls, i)
  {
    var h := FreeHandler(s.cons.handlers);
    var s': State;
    ls, s' := R.Next(c, s, [], s, Deliver(h, i));
    if s.stream.log[i].payload.Junk? {
      ls, s' := R.Next(c, s, ls, s', Copy(h, Stored));
      ls, s' := R.Next(c, s, ls, s', Term(h, false));
    } else {
      ls, s' := R.Next(c, s, ls, s', Work(h, true, true));
      ls, s' := R.Next(c, s, ls, s', Ack(h, false));
    }
  }

  /** A waiting entry can still be settled exactly when a delivery is left and its age allows it. */
  lemma ComesBackIff(c: Config, s: State, i: nat)
    requires Waiting(s, i)
    ensures DeliveriesLeft(c, s, i) <==> exists ls :: SettledBy(c, s, ls, i)
  {
    if DeliveriesLeft(c, s, i) {
      var ls := CanSettle(c, s, i);
    } else {
      forall ls | SettledBy(c, s, ls, i) ensures false {
        NeverSettled(c, s, ls, i);
      }
    }
  }

  /** The entry was given out n times, each time in vain. */
  ghost predicate Tried(s: State, e: Event, n: nat) {
    && s == State(0, Stream([Entry(1, Readable(e), 0)], map[1 := 0]),
                  Consumer(if n == 0 then map[] else map[0 := n], {}, {}, {}, map[]), EMPTY.ledger)
  }

  lemma {:induction false} FailedDeliveries(c: Config, e: Event, n: nat) returns (ls: seq<Label>, s: State)
    requires n < c.maxDeliver
    ensures R.Ran(c, EMPTY, ls, s) && Tried(s, e, n)
    decreases n
  {
    if n == 0 {
      ls, s := R.Next(c, EMPTY, [], EMPTY, Accept(1, Readable(e)));
    } else {
      ls, s := FailedDeliveries(c, e, n - 1);
      ls, s := R.Next(c, EMPTY, ls, s, Deliver(0, 0));
      ls, s := R.Next(c, EMPTY, ls, s, Work(0, false, false));
      assert s.cons.handlers == map[];
    }
  }

  /**
   * It does happen: when the work fails on every delivery and the copy fails on the last one, the message is not
   * counted, not in the dead letters, and never handed out again.
   */
  lemma LostToTheLastNak(c: Config, e: Event) returns (ls: seq<Label>)
    requires c.maxDeliver > 0
    ensures R.CanRun(c, EMPTY, ls)
    ensures var s := R.Run(c, EMPTY, ls);
            Waiting(s, 0) && !DeliveriesLeft(c, s, 0) && s.ledger == EMPTY.ledger && 0 !in s.cons.dead && s.now <= s.stream.log[0].at
  {
    var s: State;
    ls, s := FailedDeliveries(c, e, c.maxDeliver - 1);
    ls, s := R.Next(c, EMPTY, ls, s, Deliver(0, 0));
    ls, s := R.Next(c, EMPTY, ls, s, Work(0, false, false));
    ls, s := R.Next(c, EMPTY, ls, s, Copy(0, Refused));
    assert s.cons.handlers == map[];
  }
}
