// One logical presence call: breaker first, then up to three attempts with backoff, then one outcome booked. And what
// any number of such calls do together.

module PresenceClient {
  import B = Breaker
  import Sets

  /** The gRPC status codes. */
  datatype Code =
    | OK | Canceled | Unknown | InvalidArgument | DeadlineExceeded | NotFound | AlreadyExists | PermissionDenied
    | ResourceExhausted | FailedPrecondition | Aborted | OutOfRange | Unimplemented | Internal | Unavailable | DataLoss
    | Unauthenticated

  /** The service itself produced this code. */
  predicate Answered(code: Code) {
    !(code.Unavailable? || code.DeadlineExceeded? || code.Canceled?)
  }

  predicate Retryable(code: Code) {
    code.Unavailable?
  }

  const MAX_ATTEMPTS := 3
  const INITIAL_BACKOFF := 50_000_000  // nanoseconds
  const MILLISECOND := 1_000_000

  // ----- Many calls around one breaker -----

  /** A call that got through and has not come back. */
  datatype Flight = Flight(attempts: nat, last: Code)

  /** History: `admitted` are the calls that got through, `tried` their attempts, as (call, attempt number). */
  datatype State = State(
    breaker: B.State, flying: map<nat, Flight>, seen: set<nat>, admitted: set<nat>, tried: set<(nat, nat)>)

  datatype Label =
    | Begin(id: nat, at: nat)
    | Attempt(id: nat, code: Code)
    | Finish(id: nat, at: nat, callerGone: bool)

  predicate Enabled(s: State, l: Label) {
    match l
    case Begin(id, _) => id !in s.seen
    case Attempt(id, _) =>
      id in s.flying && s.flying[id].attempts < MAX_ATTEMPTS && (s.flying[id].attempts > 0 ==> Retryable(s.flying[id].last))
    case Finish(id, _, _) => id in s.flying && s.flying[id].attempts > 0
  }

  /** An answer is a success; silence is a failure, except to a caller who gave up first. */
  function Booked(c: B.Config, b: B.State, last: Code, at: nat, callerGone: bool): B.State {
    if Answered(last) then B.Succeeded(b) else if callerGone then b else B.Failed(c, b, at)
  }

  function Do(c: B.Config, s: State, l: Label): State
    requires Enabled(s, l)
  {
    match l
    case Begin(id, at) =>
      var s' := s.(breaker := B.Asked(c, s.breaker, at), seen := s.seen + {id});
      if B.Allowed(c, s.breaker, at) then s'.(flying := s.flying[id := Flight(0, OK)], admitted := s.admitted + {id}) else s'
    case Attempt(id, code) =>
      var n := s.flying[id].attempts + 1;
      s.(flying := s.flying[id := Flight(n, code)], tried := s.tried + {(id, n)})
    case Finish(id, at, gone) =>
      s.(breaker := Booked(c, s.breaker, s.flying[id].last, at, gone), flying := s.flying - {id})
  }

  ghost predicate CanRun(c: B.Config, s: State, ls: seq<Label>)
    decreases |ls|, 0
  {
    ls == [] || (CanRun(c, s, ls[..|ls| - 1]) && Enabled(Run(c, s, ls[..|ls| - 1]), ls[|ls| - 1]))
  }

  ghost function Run(c: B.Config, s: State, ls: seq<Label>): State
    requires CanRun(c, s, ls)
    decreases |ls|, 1
  {
    if ls == [] then s else Do(c, Run(c, s, ls[..|ls| - 1]), ls[|ls| - 1])
  }

  const NEW := State(B.NEW, map[], {}, {}, {})

  /** What the breaker sees of a run. */
  ghost function Bookings(c: B.Config, s: State, ls: seq<Label>): seq<B.Label>
    requires CanRun(c, s, ls)
    decreases |ls|
  {
    if ls == [] then []
    else
      Bookings(c, s, ls[..|ls| - 1]) + Booking(Run(c, s, ls[..|ls| - 1]), ls[|ls| - 1])
  }

  /** Ids are used once: whoever flies was seen. */
  predicate FlightsOk(s: State) {
    && s.flying.Keys <= s.seen && s.admitted <= s.seen
    && (forall id :: id in s.flying ==> s.flying[id].attempts <= MAX_ATTEMPTS)
  }

  /** What the breaker sees of one step. */
  function Booking(s: State, l: Label): seq<B.Label>
    requires Enabled(s, l)
  {
    match l
    case Begin(_, at) => [B.Ask(at)]
    case Attempt(_, _) => []
    case Finish(id, at, gone) => if Answered(s.flying[id].last) then [B.Succeed(at)] else if gone then [] else [B.Fail(at)]
  }

  lemma StepBooks(c: B.Config, s: State, l: Label, b0: B.State, bs: seq<B.Label>)
    requires Enabled(s, l) && FlightsOk(s) && s.breaker == B.Run(c, b0, bs)
    ensures var s' := Do(c, s, l); var bs' := bs + Booking(s, l);
            && FlightsOk(s') && s'.breaker == B.Run(c, b0, bs')
            && |s'.admitted| - |s.admitted| == B.Admitted(c, b0, bs') - B.Admitted(c, b0, bs)
  {
    if Booking(s, l) == [] {
      assert bs + [] == bs;
    } else {
      B.RunThen(c, b0, bs, Booking(s, l)[0]);
    }
  }

  /** The breaker inside a run of calls is a run of the breaker, and every call it admits is counted there. */
  lemma {:induction false} BreakerRuns(c: B.Config, s: State, ls: seq<Label>)
    requires CanRun(c, s, ls) && FlightsOk(s)
    ensures var s' := Run(c, s, ls); var bs := Bookings(c, s, ls);
            && FlightsOk(s') && s'.breaker == B.Run(c, s.breaker, bs)
            && |s'.admitted| == |s.admitted| + B.Admitted(c, s.breaker, bs)
    decreases |ls|
  {
    if ls == [] {
    } else {
      var init := ls[..|ls| - 1];
      BreakerRuns(c, s, init);
      StepBooks(c, Run(c, s, init), ls[|ls| - 1], s.breaker, Bookings(c, s, init));
    }
  }

  lemma {:induction false} ReturnedCallsStayDone(c: B.Config, s: State, ls: seq<Label>, k: nat)
    requires CanRun(c, s, ls) && FlightsOk(s) && k < |ls| && ls[k].Finish?
    ensures ls[k].id in Run(c, s, ls).seen && ls[k].id !in Run(c, s, ls).flying
    decreases |ls|
  {
    var init, last := ls[..|ls| - 1], |ls| - 1;
    BreakerRuns(c, s, init);
    if k == last {
    } else {
      ReturnedCallsStayDone(c, s, init, k);
      StaysDone(c, Run(c, s, init), ls[last], ls[k].id);
    }
  }

  lemma StaysDone(c: B.Config, s: State, l: Label, id: nat)
    requires Enabled(s, l) && id in s.seen && id !in s.flying
    ensures id in Do(c, s, l).seen && id !in Do(c, s, l).flying
  {
  }

  /** No call comes back twice, so none books a second outcome. */
  lemma {:induction false} BooksAtMostOnce(c: B.Config, s: State, ls: seq<Label>, j: nat, k: nat)
    requires CanRun(c, s, ls) && FlightsOk(s) && j < k < |ls| && ls[j].Finish? && ls[k].Finish?
    ensures ls[j].id != ls[k].id
    decreases |ls|
  {
    var init := ls[..|ls| - 1];
    if k < |init| {
      BooksAtMostOnce(c, s, init, j, k);
    } else {
      ReturnedCallsStayDone(c, s, init, j);
    }
  }

  // ----- When the breaker is closed -----

  /** The call comes back with one of the three codes that are no answer, to a caller who is still there. */
  predicate ComesBackUnanswered(s: State, l: Label)
    requires Enabled(s, l)
  {
    && l.Finish? && !l.callerGone
    && (s.flying[l.id].last.Unavailable? || s.flying[l.id].last.DeadlineExceeded? || s.flying[l.id].last.Canceled?)
  }

  predicate ComesBackAnswered(s: State, l: Label)
    requires Enabled(s, l)
  {
    && l.Finish?
    && !s.flying[l.id].last.Unavailable? && !s.flying[l.id].last.DeadlineExceeded? && !s.flying[l.id].last.Canceled?
  }

  /** The calls that came back unanswered, to callers still there, since the last one that was answered. */
  ghost function UnansweredInARow(c: B.Config, s: State, ls: seq<Label>): nat
    requires CanRun(c, s, ls)
    decreases |ls|
  {
    if ls == [] then 0
    else
      var before, l := Run(c, s, ls[..|ls| - 1]), ls[|ls| - 1];
      if ComesBackAnswered(before, l) then 0
      else UnansweredInARow(c, s, ls[..|ls| - 1]) + if ComesBackUnanswered(before, l) then 1 else 0
  }

  lemma StepInARow(s: State, l: Label, bs: seq<B.Label>)
    requires Enabled(s, l)
    ensures B.InARow(bs + Booking(s, l))
         == if ComesBackAnswered(s, l) then 0 else B.InARow(bs) + if ComesBackUnanswered(s, l) then 1 else 0
  {
    if Booking(s, l) == [] {
      assert bs + [] == bs;
    } else {
      B.InARowThen(bs, Booking(s, l)[0]);
    }
  }

  lemma {:induction false} UnansweredIsBooked(c: B.Config, s: State, ls: seq<Label>)
    requires CanRun(c, s, ls)
    ensures B.InARow(Bookings(c, s, ls)) == UnansweredInARow(c, s, ls)
    decreases |ls|
  {
    if ls == [] {
    } else {
      var init := ls[..|ls| - 1];
      UnansweredIsBooked(c, s, init);
      StepInARow(Run(c, s, init), ls[|ls| - 1], Bookings(c, s, init));
    }
  }

  /** In every run of calls the breaker is closed exactly while fewer than `threshold` in a row came back unanswered. */
  lemma ClosedIff(c: B.Config, ls: seq<Label>)
    requires c.threshold > 0 && CanRun(c, NEW, ls)
    ensures Run(c, NEW, ls).breaker.circuit.Closed? <==> UnansweredInARow(c, NEW, ls) < c.threshold
  {
    BreakerRuns(c, NEW, ls);
    UnansweredIsBooked(c, NEW, ls);
    B.ClosedWhileFewFailures(c, Bookings(c, NEW, ls));
  }

  /** Every call that comes back in the run was answered, with whatever code, or its caller had given up. */
  ghost predicate AllAnsweredOrGivenUp(c: B.Config, s: State, ls: seq<Label>)
    requires CanRun(c, s, ls)
  {
    forall k :: 0 <= k < |ls| ==> CanRun(c, s, ls[..k]) && Enabled(Run(c, s, ls[..k]), ls[k])
                                  && !ComesBackUnanswered(Run(c, s, ls[..k]), ls[k])
  }

  lemma {:induction false} NoneUnanswered(c: B.Config, s: State, ls: seq<Label>)
    requires CanRun(c, s, ls) && AllAnsweredOrGivenUp(c, s, ls)
    ensures UnansweredInARow(c, s, ls) == 0
    decreases |ls|
  {
    if ls == [] {
    } else {
      var init := ls[..|ls| - 1];
      forall k | 0 <= k < |init| ensures CanRun(c, s, init[..k]) && Enabled(Run(c, s, init[..k]), init[k])
                                         && !ComesBackUnanswered(Run(c, s, init[..k]), init[k])
      {
        assert init[..k] == ls[..k] && init[k] == ls[k];
      }
      NoneUnanswered(c, s, init);
    }
  }

  /** Errors that the service answered never open the breaker, however many there are. */
  lemma AnsweredCallsKeepItClosed(c: B.Config, ls: seq<Label>)
    requires c.threshold > 0 && CanRun(c, NEW, ls) && AllAnsweredOrGivenUp(c, NEW, ls)
    ensures Run(c, NEW, ls).breaker.circuit.Closed?
  {
    NoneUnanswered(c, NEW, ls);
    ClosedIff(c, ls);
  }

  // ----- The load on a service that is down -----

  /** The calls that the breaker let through since `s0`. */
  ghost function AdmittedSince(s0: State, s: State): set<nat> {
    s.admitted - s0.admitted
  }

  /** The attempts since `s0`, apart from those of calls that were under way then. */
  ghost function TriesSince(s0: State, s: State): set<(nat, nat)> {
    set p | p in s.tried && p !in s0.tried && p.0 !in s0.flying
  }

  /** Since `s0`, attempts are made by calls admitted since, up to three each, and by calls that were under way. */
  ghost predicate TriesOk(s0: State, s: State) {
    && s0.seen <= s.seen && s0.admitted <= s.admitted
    && (forall id :: id in s.flying ==> id in AdmittedSince(s0, s) || id in s0.flying)
    && (forall p :: p in s.tried && p !in s0.tried ==>
          (p.0 in AdmittedSince(s0, s) || p.0 in s0.flying) && 1 <= p.1 <= MAX_ATTEMPTS)
  }

  lemma StepKeepsTries(c: B.Config, s0: State, s: State, l: Label)
    requires FlightsOk(s0) && TriesOk(s0, s) && Enabled(s, l)
    ensures TriesOk(s0, Do(c, s, l))
  {
  }

  lemma {:induction false} TriesOfRun(c: B.Config, s: State, ls: seq<Label>)
    requires CanRun(c, s, ls) && FlightsOk(s)
    ensures TriesOk(s, Run(c, s, ls))
    decreases |ls|
  {
    if ls == [] {
    } else {
      TriesOfRun(c, s, ls[..|ls| - 1]);
      StepKeepsTries(c, s, Run(c, s, ls[..|ls| - 1]), ls[|ls| - 1]);
    }
  }

  function Slots(ids: set<nat>): set<(nat, nat)> {
    set id, n: nat | id in ids && 1 <= n <= MAX_ATTEMPTS :: (id, n)
  }

  lemma {:induction false} SlotsSize(ids: set<nat>)
    ensures |Slots(ids)| == 3 * |ids|
    decreases ids
  {
    if ids == {} {
      assert Slots(ids) == {};
    } else {
      var id :| id in ids;
      SlotsSize(ids - {id});
      assert Slots(ids) == Slots(ids - {id}) + {(id, 1), (id, 2), (id, 3)};
    }
  }

  lemma LoadSince(c: B.Config, s: State, ls: seq<Label>, length: nat)
    requires s.breaker.circuit.Open? && B.Consistent(s.breaker) && c.openFor > 0 && FlightsOk(s) && CanRun(c, s, ls)
    requires B.Clocked(Bookings(c, s, ls), s.breaker.openedAt, s.breaker.openedAt + length) && B.NoSuccess(Bookings(c, s, ls))
    ensures |TriesSince(s, Run(c, s, ls))| <= 3 * (length / c.openFor)
  {
    var s' := Run(c, s, ls);
    BreakerRuns(c, s, ls);
    B.OutageBound(c, s.breaker, Bookings(c, s, ls), length);
    TriesOfRun(c, s, ls);
    SlotsSize(AdmittedSince(s, s'));
    Sets.SubsetSize(TriesSince(s, s'), Slots(AdmittedSince(s, s')));
    assert |AdmittedSince(s, s')| == |s'.admitted| - |s.admitted|;
  }

  lemma ReachableOk(c: B.Config, past: seq<Label>)
    requires CanRun(c, NEW, past)
    ensures FlightsOk(Run(c, NEW, past)) && B.Consistent(Run(c, NEW, past).breaker)
  {
    BreakerRuns(c, NEW, past);
    B.RunIsConsistent(c, B.NEW, Bookings(c, NEW, past));
  }

  /** Every call that comes back in the run brings Unavailable, DeadlineExceeded or Canceled. */
  ghost predicate NothingAnswered(c: B.Config, s: State, ls: seq<Label>)
    requires CanRun(c, s, ls)
  {
    forall k :: 0 <= k < |ls| ==> CanRun(c, s, ls[..k]) && Enabled(Run(c, s, ls[..k]), ls[k])
                                  && !ComesBackAnswered(Run(c, s, ls[..k]), ls[k])
  }

  lemma {:induction false} NoSuccessBooked(c: B.Config, s: State, ls: seq<Label>)
    requires CanRun(c, s, ls) && NothingAnswered(c, s, ls)
    ensures B.NoSuccess(Bookings(c, s, ls))
    decreases |ls|
  {
    if ls == [] {
    } else {
      var init := ls[..|ls| - 1];
      forall k | 0 <= k < |init| ensures CanRun(c, s, init[..k]) && Enabled(Run(c, s, init[..k]), init[k])
                                         && !ComesBackAnswered(Run(c, s, init[..k]), init[k])
      {
        assert init[..k] == ls[..k] && init[k] == ls[k];
      }
      NoSuccessBooked(c, s, init);
      assert ls[..|init|] == init && !ComesBackAnswered(Run(c, s, init), ls[|init|]);
    }
  }

  /** Calls begin and come back between `start` and `end`, on a clock that does not go back. */
  predicate Timed(ls: seq<Label>, start: nat, end: nat) {
    && (forall i :: 0 <= i < |ls| && !ls[i].Attempt? ==> start <= ls[i].at <= end)
    && (forall i, j :: 0 <= i < j < |ls| && !ls[i].Attempt? && !ls[j].Attempt? ==> ls[i].at <= ls[j].at)
  }

  /** The time of the last label that has one. */
  function Latest(ls: seq<Label>, start: nat): nat
    decreases |ls|
  {
    if ls == [] then start else if ls[|ls| - 1].Attempt? then Latest(ls[..|ls| - 1], start) else ls[|ls| - 1].at
  }

  lemma {:induction false} LatestIsOne(ls: seq<Label>, start: nat, end: nat)
    requires Timed(ls, start, end) && start <= end
    ensures start <= Latest(ls, start) <= end
    ensures Latest(ls, start) == start || exists i :: 0 <= i < |ls| && !ls[i].Attempt? && ls[i].at == Latest(ls, start)
    decreases |ls|
  {
    if ls == [] {
    } else {
      LatestIsOne(ls[..|ls| - 1], start, end);
    }
  }

  lemma LatestGrows(ls: seq<Label>, start: nat, end: nat)
    requires Timed(ls, start, end) && start <= end && ls != []
    ensures Latest(ls[..|ls| - 1], start) <= Latest(ls, start)
    ensures !ls[|ls| - 1].Attempt? ==> ls[|ls| - 1].at == Latest(ls, start)
  {
    LatestIsOne(ls[..|ls| - 1], start, end);
  }

  lemma ClockedThen(bs: seq<B.Label>, more: seq<B.Label>, start: nat, mid: nat, at: nat)
    requires B.Clocked(bs, start, mid) && start <= mid <= at && |more| <= 1 && (more != [] ==> more[0].at == at)
    ensures B.Clocked(bs + more, start, at)
  {
  }

  lemma {:induction false} BookingsAreClocked(c: B.Config, s: State, ls: seq<Label>, start: nat, end: nat)
    requires CanRun(c, s, ls) && Timed(ls, start, end) && start <= end
    ensures B.Clocked(Bookings(c, s, ls), start, Latest(ls, start))
    decreases |ls|
  {
    if ls == [] {
    } else {
      var init := ls[..|ls| - 1];
      BookingsAreClocked(c, s, init, start, end);
      LatestIsOne(init, start, end);
      LatestGrows(ls, start, end);
      ClockedThen(Bookings(c, s, init), Booking(Run(c, s, init), ls[|init|]), start, Latest(init, start), Latest(ls, start));
    }
  }

  /**
   * In any run of a client, the call that comes back at time t opens the circuit. Until t + T, as long as every call
   * that comes back brings Unavailable, DeadlineExceeded or Canceled, the calls admitted since reach the service at most
   * 3 * floor(T / openFor) times, whatever becomes of those that were under way.
   */
  lemma LoadDuringOutage(c: B.Config, past: seq<Label>, id: nat, t: nat, gone: bool, ls: seq<Label>, length: nat)
    requires c.openFor > 0 && CanRun(c, NEW, past) && Enabled(Run(c, NEW, past), Finish(id, t, gone))
    requires !Run(c, NEW, past).breaker.circuit.Open?
    requires var s := Do(c, Run(c, NEW, past), Finish(id, t, gone));
             s.breaker.circuit.Open? && CanRun(c, s, ls) && Timed(ls, t, t + length) && NothingAnswered(c, s, ls)
    ensures var s := Do(c, Run(c, NEW, past), Finish(id, t, gone)); |TriesSince(s, Run(c, s, ls))| <= 3 * (length / c.openFor)
  {
    var s := Do(c, Run(c, NEW, past), Finish(id, t, gone));
    RunThen(c, NEW, past, Finish(id, t, gone));
    ReachableOk(c, past + [Finish(id, t, gone)]);
    NoSuccessBooked(c, s, ls);
    BookingsAreClocked(c, s, ls, t, t + length);
    LatestIsOne(ls, t, t + length);
    LoadSince(c, s, ls, length);
  }

  // ----- The probe nobody books -----

  ghost predicate Stuck(s: State) {
    s.breaker.circuit.HalfOpen? && s.breaker.probing && s.flying == map[]
  }

  lemma {:induction false} StuckForever(c: B.Config, s: State, ls: seq<Label>)
    requires CanRun(c, s, ls) && Stuck(s)
    ensures Stuck(Run(c, s, ls)) && Run(c, s, ls).admitted == s.admitted
    decreases |ls|
  {
    if ls == [] {
    } else {
      StuckForever(c, s, ls[..|ls| - 1]);
    }
  }

  ghost predicate Admits(c: B.Config, s: State, ls: seq<Label>) {
    CanRun(c, s, ls) && Run(c, s, ls).admitted != s.admitted
  }

  lemma RunThen(c: B.Config, s: State, ls: seq<Label>, l: Label)
    requires CanRun(c, s, ls) && Enabled(Run(c, s, ls), l)
    ensures CanRun(c, s, ls + [l]) && Run(c, s, ls + [l]) == Do(c, Run(c, s, ls), l)
  {
    assert (ls + [l])[..|ls|] == ls;
  }

  ghost predicate Ran(c: B.Config, s0: State, ls: seq<Label>, s: State) {
    CanRun(c, s0, ls) && Run(c, s0, ls) == s
  }

  lemma Next(c: B.Config, s0: State, ls: seq<Label>, s: State, l: Label) returns (ls': seq<Label>, s': State)
    requires Ran(c, s0, ls, s) && Enabled(s, l)
    ensures Ran(c, s0, ls', s') && s' == Do(c, s, l)
  {
    RunThen(c, s0, ls, l);
    ls', s' := ls + [l], Do(c, s, l);
  }

  /** A call under way can always still come back with an answer. */
  lemma AnswersLater(c: B.Config, s: State, id: nat, next: nat) returns (ls: seq<Label>)
    requires FlightsOk(s) && id in s.flying && next !in s.seen
    ensures Admits(c, s, ls)
  {
    var s': State;
    if s.flying[id].attempts == 0 {
      ls, s' := Next(c, s, [], s, Attempt(id, OK));
    } else {
      ls, s' := [], s;
    }
    ls, s' := Next(c, s, ls, s', Finish(id, 0, false));
    ls, s' := Next(c, s, ls, s', Begin(next, s'.breaker.openedAt + c.openFor));
    assert next in s'.admitted && next !in s.admitted;
  }

  /**
   * A call comes back while a probe is out. Some later call can get through exactly when this one was answered, or its
   * caller was still there, or another call is under way; otherwise every later call is refused, for good.
   */
  lemma RecoversIff(c: B.Config, s: State, id: nat, at: nat, callerGone: bool, next: nat)
    requires s.breaker.circuit.HalfOpen? && s.breaker.probing && FlightsOk(s)
    requires Enabled(s, Finish(id, at, callerGone)) && next !in s.seen
    ensures var s' := Do(c, s, Finish(id, at, callerGone));
            (exists ls :: Admits(c, s', ls)) <==>
              !callerGone || s.flying.Keys != {id}
              || !(s.flying[id].last.Unavailable? || s.flying[id].last.DeadlineExceeded? || s.flying[id].last.Canceled?)
  {
    var s' := Do(c, s, Finish(id, at, callerGone));
    if Answered(s.flying[id].last) || !callerGone {
      var ls, s'' := Next(c, s', [], s', Begin(next, at + c.openFor));
      assert Admits(c, s', ls);
    } else if s.flying.Keys != {id} {
      var other :| other in s.flying && other != id;
      var ls := AnswersLater(c, s', other, next);
    } else {
      assert s'.flying == map[];
      forall ls | Admits(c, s', ls) ensures false {
        StuckForever(c, s', ls);
      }
    }
  }

  lemma {:induction false} FailuresInARow(c: B.Config, n: nat) returns (ls: seq<Label>, s: State)
    requires 0 < n <= c.threshold
    ensures Ran(c, NEW, ls, s) && s.flying == map[] && (forall id :: id in s.seen ==> id < n)
    ensures s.breaker == B.State(if n < c.threshold then B.Closed else B.Open, n, 0, false)
    decreases n
  {
    if n == 1 {
      ls, s := [], NEW;
    } else {
      ls, s := FailuresInARow(c, n - 1);
    }
    ls, s := Next(c, NEW, ls, s, Begin(n - 1, 0));
    ls, s := Next(c, NEW, ls, s, Attempt(n - 1, DeadlineExceeded));
    ls, s := Next(c, NEW, ls, s, Finish(n - 1, 0, false));
    assert s.flying == map[];
  }

  /** It does happen: after an outage, a probe whose caller closes the tab before any answer cuts presence off for good. */
  lemma CutOffForGood(c: B.Config) returns (ls: seq<Label>)
    requires c.threshold > 0
    ensures CanRun(c, NEW, ls) && Stuck(Run(c, NEW, ls))
  {
    var s: State;
    var n := c.threshold;
    ls, s := FailuresInARow(c, n);
    ls, s := Next(c, NEW, ls, s, Begin(n, c.openFor));
    ls, s := Next(c, NEW, ls, s, Attempt(n, Canceled));
    ls, s := Next(c, NEW, ls, s, Finish(n, c.openFor, true));
    assert s.flying == map[];
  }

  // ----- The call itself -----

  /**
   * What the surroundings do to one call: `draw` is the random number drawn after attempt n, `remaining` the time to the
   * deadline then, and `interrupted` says that the wait is cut off.
   */
  datatype World = World(
    codes: nat -> Code, draw: nat -> nat, remaining: nat -> int, interrupted: nat -> bool, callerGone: bool)

  datatype Result = CircuitOpen | Replied(code: Code)

  /** Full jitter: the wait after the first attempt is below 50 ms, the one after the second below 100 ms. */
  function WaitAfter(w: World, n: nat): nat {
    w.draw(n) % if n == 1 then 50 * MILLISECOND else 100 * MILLISECOND
  }

  /** There is a point in another attempt, and time for the wait before it. */
  predicate Waits(w: World, n: nat) {
    w.codes(n).Unavailable? && n < 3 && w.remaining(n) > WaitAfter(w, n)
  }

  /** A call goes on after attempt n exactly if it waits and the wait is not cut off. */
  predicate GoesOn(w: World, n: nat) {
    Waits(w, n) && !w.interrupted(n)
  }

  predicate AllGoOn(w: World, n: int) {
    forall k :: 1 <= k <= n ==> GoesOn(w, k)
  }

  /** The waits after the first n attempts. */
  function Slept(w: World, n: nat): nat {
    if n == 0 then 0 else Slept(w, n - 1) + WaitAfter(w, n)
  }

  /** The call `id` is under way in the run, after n attempts. */
  ghost predicate UnderWay(c: B.Config, s0: State, ls: seq<Label>, s: State, b: B.State, id: nat, n: nat, last: Code) {
    Ran(c, s0, ls, s) && s.breaker == b && id in s.flying && s.flying[id] == Flight(n, last)
  }

  lemma Starts(c: B.Config, s0: State, id: nat, now: nat) returns (ls: seq<Label>, s: State)
    requires id !in s0.seen
    ensures Ran(c, s0, ls, s) && s.breaker == B.Asked(c, s0.breaker, now)
    ensures B.Allowed(c, s0.breaker, now) ==> UnderWay(c, s0, ls, s, B.Asked(c, s0.breaker, now), id, 0, OK)
  {
    ls, s := Next(c, s0, [], s0, Begin(id, now));
  }

  lemma {:induction false} Tries(c: B.Config, s0: State, ls0: seq<Label>, s1: State, b: B.State, id: nat, w: World, n: nat)
    returns (ls: seq<Label>, s: State)
    requires UnderWay(c, s0, ls0, s1, b, id, 0, OK) && n <= MAX_ATTEMPTS && AllGoOn(w, n - 1)
    ensures UnderWay(c, s0, ls, s, b, id, n, if n == 0 then OK else w.codes(n))
    decreases n
  {
    if n == 0 {
      ls, s := ls0, s1;
    } else {
      assert n > 1 ==> GoesOn(w, n - 1);
      ls, s := Tries(c, s0, ls0, s1, b, id, w, n - 1);
      ls, s := Next(c, s0, ls, s, Attempt(id, w.codes(n)));
    }
  }

  lemma ComesBack(c: B.Config, s0: State, ls: seq<Label>, s: State, b: B.State, id: nat, n: nat, last: Code, end: nat, gone: bool)
    returns (ls': seq<Label>, s': State)
    requires UnderWay(c, s0, ls, s, b, id, n, last) && n > 0
    ensures Ran(c, s0, ls', s') && s'.breaker == Booked(c, b, last, end, gone)
  {
    ls', s' := Next(c, s0, ls, s, Finish(id, end, gone));
  }

  class Client {
    const breaker: B.Breaker
    var calls: nat
    var failures: nat
    var retries: nat
    var shortCircuited: nat

    constructor (breaker: B.Breaker)
      ensures this.breaker == breaker && calls == failures == retries == shortCircuited == 0
    {
      this.breaker := breaker;
      calls, failures, retries, shortCircuited := 0, 0, 0, 0;
    }

    /** Books a call that nobody answered, unless its caller gave up first. */
    method Record(callerGone: bool, now: nat)
      modifies this`failures, breaker
      ensures breaker.View() == if callerGone then old(breaker.View()) else B.Failed(breaker.Settings(), old(breaker.View()), now)
      ensures failures == old(failures) + if callerGone then 0 else 1
    {
      if callerGone {
        return;
      }
      breaker.Failure(now);
      failures := failures + 1;
    }

    /** The loop of call: attempts and waits, until an answer or until going on makes no sense. */
    method TryAndWait(w: World) returns (code: Code, attempts: nat, slept: nat)
      modifies this`retries
      ensures 1 <= attempts <= 3 && code == w.codes(attempts) && slept < 150 * MILLISECOND
      ensures AllGoOn(w, attempts - 1) && !GoesOn(w, attempts)
      ensures slept == Slept(w, if Waits(w, attempts) then attempts else attempts - 1)
      ensures retries == old(retries) + attempts - 1
    {
      var backoff := INITIAL_BACKOFF;
      attempts, slept := 0, 0;
      while true
        invariant attempts < MAX_ATTEMPTS && AllGoOn(w, attempts) && retries == old(retries) + attempts
        invariant attempts == 0 ==> backoff == 50 * MILLISECOND
        invariant attempts == 1 ==> backoff == 100 * MILLISECOND
        invariant slept == Slept(w, attempts) && slept <= attempts * 100 * MILLISECOND
        invariant attempts > 0 ==> slept < (2 * attempts - 1) * 50 * MILLISECOND
        decreases MAX_ATTEMPTS - attempts
      {
        attempts := attempts + 1;
        code := w.codes(attempts);
        if Answered(code) || !Retryable(code) || attempts >= MAX_ATTEMPTS {
          return;
        }
        var wait := w.draw(attempts) % backoff;
        backoff := 2 * backoff;
        if w.remaining(attempts) <= wait {
          return;
        }
        slept := slept + wait;
        if w.interrupted(attempts) {
          return;
        }
        retries := retries + 1;
      }
    }

    /**
     * One logical call, from `now` to `end`: refused by the breaker at no cost, or one to three attempts that sleep
     * less than 150 ms between them and book one outcome. The whole of it is a run of the machine above.
     */
    method Call(w: World, now: nat, end: nat, ghost s0: State, ghost id: nat)
      returns (r: Result, attempts: nat, slept: nat, ghost ls: seq<Label>, ghost s: State)
      requires s0.breaker == breaker.View() && id !in s0.seen
      modifies this, breaker
      ensures Ran(breaker.Settings(), s0, ls, s) && s.breaker == breaker.View()
      ensures r.CircuitOpen? <==> !B.Allowed(breaker.Settings(), s0.breaker, now)
      ensures r.CircuitOpen? ==> attempts == 0 && slept == 0 && shortCircuited == old(shortCircuited) + 1 && calls == old(calls)
      ensures r.Replied? ==>
                && 1 <= attempts <= 3 && r.code == w.codes(attempts) && slept < 150 * MILLISECOND
                && AllGoOn(w, attempts - 1) && !GoesOn(w, attempts)
                && slept == Slept(w, if Waits(w, attempts) then attempts else attempts - 1)
                && calls == old(calls) + 1 && retries == old(retries) + attempts - 1 && shortCircuited == old(shortCircuited)
      ensures r.Replied? ==>
                var settings := breaker.Settings();
                var asked := B.Do(settings, s0.breaker, B.Ask(now));
                if r.code.Unavailable? || r.code.DeadlineExceeded? || r.code.Canceled? then
                  if w.callerGone then breaker.View() == asked && failures == old(failures)
                  else breaker.View() == B.Do(settings, asked, B.Fail(end)) && failures == old(failures) + 1
                else breaker.View() == B.Do(settings, asked, B.Succeed(end)) && failures == old(failures)
    {
      ghost var c, b := breaker.Settings(), B.Asked(breaker.Settings(), s0.breaker, now);
      ls, s := Starts(c, s0, id, now);
      var ok := breaker.Allow(now);
      if !ok {
        shortCircuited := shortCircuited + 1;
        return CircuitOpen, 0, 0, ls, s;
      }
      calls := calls + 1;
      var code;
      code, attempts, slept := TryAndWait(w);
      ls, s := Tries(c, s0, ls, s, b, id, w, attempts);
      ls, s := ComesBack(c, s0, ls, s, b, id, attempts, code, end, w.callerGone);
      if Answered(code) {
        breaker.Success();
      } else {
        Record(w.callerGone, end);
      }
      r := Replied(code);
    }
  }
}
