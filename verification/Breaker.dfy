// The circuit breaker in front of the presence service, as a timed state machine.

module Breaker {

  datatype Circuit = Closed | Open | HalfOpen

  datatype State = State(circuit: Circuit, failures: nat, openedAt: nat, probing: bool)

  /** The constants of newBreaker; times are in milliseconds of one clock. */
  datatype Config = Config(threshold: nat, openFor: nat)

  const NEW := State(Closed, 0, 0, false)

  function Allowed(c: Config, b: State, now: int): bool {
    b.circuit.Closed? || (b.circuit.Open? && now - b.openedAt >= c.openFor) || (b.circuit.HalfOpen? && !b.probing)
  }

  function Asked(c: Config, b: State, now: int): State {
    if b.circuit.Closed? || !Allowed(c, b, now) then b else b.(circuit := HalfOpen, probing := true)
  }

  function Succeeded(b: State): State {
    b.(failures := 0, probing := false, circuit := Closed)
  }

  function Failed(c: Config, b: State, now: nat): State {
    if b.circuit.HalfOpen? then State(Open, b.failures, now, false)
    else if b.failures + 1 >= c.threshold then State(Open, b.failures + 1, now, false)
    else State(b.circuit, b.failures + 1, b.openedAt, false)
  }

  class Breaker {
    const threshold: nat
    const openFor: nat
    var circuit: Circuit
    var failures: nat
    var openedAt: nat
    var probing: bool

    function View(): State
      reads this
    {
      State(circuit, failures, openedAt, probing)
    }

    function Settings(): Config {
      Config(threshold, openFor)
    }

    constructor (threshold: nat, openFor: nat)
      ensures View() == NEW && Settings() == Config(threshold, openFor)
    {
      this.threshold, this.openFor := threshold, openFor;
      circuit, failures, openedAt, probing := Closed, 0, 0, false;
    }

    /** A closed circuit lets everyone through, an open one nobody before openFor is over, and then one probe at a time. */
    method Allow(now: nat) returns (ok: bool)
      modifies this
      ensures ok == Allowed(Settings(), old(View()), now) && View() == Asked(Settings(), old(View()), now)
      ensures old(circuit).Closed? ==> ok
      ensures old(circuit).Open? ==> (ok <==> now >= old(openedAt) + openFor)
      ensures old(circuit).HalfOpen? ==> (ok <==> !old(probing))
      ensures !ok || old(circuit).Closed? ==> View() == old(View())
      ensures ok && !old(circuit).Closed? ==> circuit.HalfOpen? && probing && failures == old(failures)
    {
      match circuit
      case Closed => ok := true;
      case Open =>
        if now - openedAt < openFor {
          return false;
        }
        circuit := HalfOpen;
        probing := true;
        ok := true;
      case HalfOpen =>
        if probing {
          return false;
        }
        probing := true;
        ok := true;
    }

    method Success()
      modifies this
      ensures View() == Succeeded(old(View()))
      ensures circuit.Closed? && failures == 0 && !probing
    {
      failures := 0;
      probing := false;
      circuit := Closed;
    }

    /** A failed probe opens the circuit again from now on, and so does the failure that reaches the threshold. */
    method Failure(now: nat)
      modifies this
      ensures View() == Failed(Settings(), old(View()), now)
      ensures circuit.Open? <==> !old(circuit).Closed? || old(failures) + 1 >= threshold
      ensures !probing && (old(circuit).HalfOpen? || old(failures) + 1 >= threshold ==> circuit.Open? && openedAt == now)
      ensures failures == old(failures) + if old(circuit).HalfOpen? then 0 else 1
    {
      probing := false;
      if circuit.HalfOpen? {
        circuit := Open;
        openedAt := now;
        return;
      }
      failures := failures + 1;
      if failures >= threshold {
        circuit := Open;
        openedAt := now;
      }
    }

    /** The state as an observer sees it, which says Open only while callers are being refused. */
    method Report(now: nat) returns (r: Circuit)
      ensures (r.Closed? <==> circuit.Closed?) && (circuit.HalfOpen? ==> r.HalfOpen?)
      ensures r.Open? ==> !Allowed(Settings(), View(), now)
      ensures r.HalfOpen? && probing == circuit.HalfOpen? ==> (Allowed(Settings(), View(), now) <==> circuit.Open?)
    {
      if circuit.Open? && now - openedAt >= openFor {
        return HalfOpen;
      }
      r := circuit;
    }
  }

  // ----- Runs: any number of callers, whose outcomes come back in any order -----

  datatype Label = Ask(at: nat) | Succeed(at: nat) | Fail(at: nat)

  function Do(c: Config, b: State, l: Label): State {
    match l
    case Ask(at) => Asked(c, b, at)
    case Succeed(_) => Succeeded(b)
    case Fail(at) => Failed(c, b, at)
  }

  function Run(c: Config, b: State, ls: seq<Label>): State
    decreases |ls|
  {
    if ls == [] then b else Do(c, Run(c, b, ls[..|ls| - 1]), ls[|ls| - 1])
  }

  /** How many of the callers got through. */
  function Admitted(c: Config, b: State, ls: seq<Label>): nat
    decreases |ls|
  {
    if ls == [] then 0
    else
      var init, l := ls[..|ls| - 1], ls[|ls| - 1];
      Admitted(c, b, init) + if l.Ask? && Allowed(c, Run(c, b, init), l.at) then 1 else 0
  }

  /** The clock never goes back, starts no earlier than `start` and ends no later than `end`. */
  predicate Clocked(ls: seq<Label>, start: nat, end: nat) {
    && (forall i :: 0 <= i < |ls| ==> start <= ls[i].at <= end)
    && (forall i, j :: 0 <= i < j < |ls| ==> ls[i].at <= ls[j].at)
  }

  predicate NoSuccess(ls: seq<Label>) {
    forall i :: 0 <= i < |ls| ==> !ls[i].Succeed?
  }

  /** The circuit is half-open exactly while a probe is out. */
  predicate Consistent(b: State) {
    b.probing <==> b.circuit.HalfOpen?
  }

  lemma {:induction false} RunIsConsistent(c: Config, b: State, ls: seq<Label>)
    requires Consistent(b)
    ensures Consistent(Run(c, b, ls))
    decreases |ls|
  {
    if ls == [] {
    } else {
      RunIsConsistent(c, b, ls[..|ls| - 1]);
    }
  }

  // ----- When it opens -----

  /** The failures booked since the last success. */
  function InARow(ls: seq<Label>): nat
    decreases |ls|
  {
    if ls == [] then 0
    else
      var l := ls[|ls| - 1];
      if l.Succeed? then 0 else InARow(ls[..|ls| - 1]) + if l.Fail? then 1 else 0
  }

  /** Calls go out freely exactly while fewer than `threshold` failures were booked in a row. */
  lemma {:induction false} ClosedWhileFewFailures(c: Config, ls: seq<Label>)
    requires c.threshold > 0
    ensures Run(c, NEW, ls).circuit.Closed? <==> InARow(ls) < c.threshold
    ensures InARow(ls) < c.threshold ==> Run(c, NEW, ls).failures == InARow(ls)
    ensures InARow(ls) >= c.threshold ==> Run(c, NEW, ls).failures >= c.threshold
    ensures InARow(ls) < c.threshold ==> forall now :: Allowed(c, Run(c, NEW, ls), now)
    decreases |ls|
  {
    if ls == [] {
    } else {
      ClosedWhileFewFailures(c, ls[..|ls| - 1]);
    }
  }

  lemma InARowThen(ls: seq<Label>, l: Label)
    ensures InARow(ls + [l]) == if l.Succeed? then 0 else InARow(ls) + if l.Fail? then 1 else 0
  {
    assert (ls + [l])[..|ls|] == ls;
  }

  // ----- The outage bound -----

  function Times(n: nat, d: nat): nat {
    if n == 0 then 0 else Times(n - 1, d) + d
  }

  lemma {:induction false} TimesIsProduct(n: nat, d: nat)
    ensures Times(n, d) == n * d
  {
    if n == 0 {
    } else {
      TimesIsProduct(n - 1, d);
    }
  }

  /** After n admissions the circuit last opened, or let its probe go, at least n * openFor after it first opened. */
  lemma {:induction false} AdmissionsAreApart(c: Config, b: State, ls: seq<Label>, start: nat, end: nat)
    requires b.circuit.Open? && Consistent(b) && start <= b.openedAt && Clocked(ls, start, end) && NoSuccess(ls) && start <= end
    ensures var b' := Run(c, b, ls); var last := if ls == [] then start else ls[|ls| - 1].at;
            var n := Admitted(c, b, ls);
            && !b'.circuit.Closed? && Consistent(b')
            && (b'.circuit.Open? ==> start + Times(n, c.openFor) <= b'.openedAt)
            && (n > 0 ==> start + Times(n, c.openFor) <= last)
    decreases |ls|
  {
    if ls == [] {
    } else {
      AdmissionsAreApart(c, b, ls[..|ls| - 1], start, end);
      assert |ls| > 1 ==> ls[|ls| - 2].at <= ls[|ls| - 1].at;
    }
  }

  /**
   * The outage bound: once the circuit opened at t0, and as long as no success is booked, it lets at most
   * floor(T / openFor) calls through until t0 + T, however late failures of earlier calls come in.
   */
  lemma OutageBound(c: Config, b: State, ls: seq<Label>, length: nat)
    requires b.circuit.Open? && Consistent(b) && c.openFor > 0
    requires Clocked(ls, b.openedAt, b.openedAt + length) && NoSuccess(ls)
    ensures Admitted(c, b, ls) <= length / c.openFor
  {
    var n := Admitted(c, b, ls);
    AdmissionsAreApart(c, b, ls, b.openedAt, b.openedAt + length);
    AtMostQuotient(n, c.openFor, length);
  }

  lemma {:induction false} TimesGrows(m: nat, n: nat, d: nat)
    requires m <= n
    ensures Times(m, d) <= Times(n, d)
  {
    if m >= n {
    } else {
      TimesGrows(m, n - 1, d);
    }
  }

  lemma AtMostQuotient(n: nat, d: nat, length: nat)
    requires d > 0 && (n > 0 ==> Times(n, d) <= length)
    ensures n <= length / d
  {
    TimesIsProduct(length / d, d);
    if n > length / d {
      TimesGrows(length / d + 1, n, d);
    }
  }

  lemma QuotientFits(length: nat, d: nat)
    requires d > 0
    ensures Times(length / d, d) <= length
  {
    TimesIsProduct(length / d, d);
  }

  /** A probe at every multiple of openFor, failing at once. */
  function Probes(start: nat, openFor: nat, n: nat): seq<Label> {
    if n == 0 then [] else Probes(start, openFor, n - 1) + [Ask(start + Times(n, openFor)), Fail(start + Times(n, openFor))]
  }

  /** One more step of a run. */
  lemma RunThen(c: Config, b: State, ls: seq<Label>, l: Label)
    ensures Run(c, b, ls + [l]) == Do(c, Run(c, b, ls), l)
    ensures Admitted(c, b, ls + [l]) == Admitted(c, b, ls) + if l.Ask? && Allowed(c, Run(c, b, ls), l.at) then 1 else 0
  {
    assert (ls + [l])[..|ls|] == ls;
  }

  lemma ClockedThen(ls: seq<Label>, start: nat, mid: nat, at: nat)
    requires Clocked(ls, start, mid) && NoSuccess(ls) && start <= mid <= at
    ensures Clocked(ls + [Ask(at), Fail(at)], start, at) && NoSuccess(ls + [Ask(at), Fail(at)])
  {
  }

  lemma {:induction false} ProbesAreClocked(start: nat, openFor: nat, n: nat)
    ensures var ls := Probes(start, openFor, n); NoSuccess(ls) && Clocked(ls, start, start + Times(n, openFor))
  {
    if n == 0 {
    } else {
      ProbesAreClocked(start, openFor, n - 1);
      ClockedThen(Probes(start, openFor, n - 1), start, start + Times(n - 1, openFor), start + Times(n, openFor));
    }
  }

  lemma ProbeThen(c: Config, b: State, ls: seq<Label>, at: nat)
    requires Run(c, b, ls).circuit.Open? && at >= Run(c, b, ls).openedAt + c.openFor && !Run(c, b, ls).probing
    ensures Admitted(c, b, ls + [Ask(at), Fail(at)]) == Admitted(c, b, ls) + 1
    ensures Run(c, b, ls + [Ask(at), Fail(at)]) == Run(c, b, ls).(openedAt := at)
  {
    RunThen(c, b, ls, Ask(at));
    RunThen(c, b, ls + [Ask(at)], Fail(at));
    assert ls + [Ask(at)] + [Fail(at)] == ls + [Ask(at), Fail(at)];
  }

  lemma {:induction false} ProbesAreAdmitted(c: Config, b: State, n: nat)
    requires b.circuit.Open? && Consistent(b)
    ensures var ls := Probes(b.openedAt, c.openFor, n);
            Admitted(c, b, ls) == n && Run(c, b, ls) == b.(openedAt := b.openedAt + Times(n, c.openFor))
  {
    if n == 0 {
    } else {
      ProbesAreAdmitted(c, b, n - 1);
      var init, at := Probes(b.openedAt, c.openFor, n - 1), b.openedAt + Times(n, c.openFor);
      ProbeThen(c, b, init, at);
    }
  }

  /** The bound is reached: floor(T / openFor) calls do get through when each probe fails at once. */
  lemma OutageBoundIsTight(c: Config, b: State, length: nat)
    requires b.circuit.Open? && Consistent(b) && c.openFor > 0
    ensures var ls := Probes(b.openedAt, c.openFor, length / c.openFor);
            Clocked(ls, b.openedAt, b.openedAt + length) && NoSuccess(ls) && Admitted(c, b, ls) == length / c.openFor
  {
    var n := length / c.openFor;
    ProbesAreAdmitted(c, b, n);
    ProbesAreClocked(b.openedAt, c.openFor, n);
    QuotientFits(length, c.openFor);
  }

  // ----- From the failure that opened it -----

  /** In every run, a failure booked at t that leaves the circuit not closed keeps everyone out until t + openFor, and no longer. */
  lemma FailureShutsOut(c: Config, past: seq<Label>, t: nat)
    ensures var b := Run(c, NEW, past + [Fail(t)]);
            b.circuit.Closed? || (b.circuit.Open? && forall now :: Allowed(c, b, now) <==> now >= t + c.openFor)
  {
    RunThen(c, NEW, past, Fail(t));
    RunIsConsistent(c, NEW, past);
    if c.threshold > 0 {
      ClosedWhileFewFailures(c, past);
    }
  }

  lemma OpenedThen(c: Config, past: seq<Label>, t: nat)
    requires !Run(c, NEW, past + [Fail(t)]).circuit.Closed?
    ensures var b := Run(c, NEW, past + [Fail(t)]); b.circuit.Open? && Consistent(b) && b.openedAt == t
  {
    FailureShutsOut(c, past, t);
    RunIsConsistent(c, NEW, past + [Fail(t)]);
    var b := Run(c, NEW, past + [Fail(t)]);
    assert Allowed(c, b, b.openedAt + c.openFor) && Allowed(c, b, t + c.openFor);
  }

  /**
   * In every run, from the failure at time t that opened the circuit, or kept it open: until t + T and as long as no
   * success is booked, at most floor(T / openFor) calls get through.
   */
  lemma OutageFrom(c: Config, past: seq<Label>, t: nat, ls: seq<Label>, length: nat)
    requires c.openFor > 0 && !Run(c, NEW, past + [Fail(t)]).circuit.Closed?
    requires Clocked(ls, t, t + length) && NoSuccess(ls)
    ensures Admitted(c, Run(c, NEW, past + [Fail(t)]), ls) <= length / c.openFor
  {
    OpenedThen(c, past, t);
    OutageBound(c, Run(c, NEW, past + [Fail(t)]), ls, length);
  }

  /** And there is always a run in which that many do. */
  lemma OutageFromIsTight(c: Config, past: seq<Label>, t: nat, length: nat) returns (ls: seq<Label>)
    requires c.openFor > 0 && !Run(c, NEW, past + [Fail(t)]).circuit.Closed?
    ensures Clocked(ls, t, t + length) && NoSuccess(ls)
    ensures Admitted(c, Run(c, NEW, past + [Fail(t)]), ls) == length / c.openFor
  {
    OpenedThen(c, past, t);
    ls := Probes(t, c.openFor, length / c.openFor);
    OutageBoundIsTight(c, Run(c, NEW, past + [Fail(t)]), length);
  }

  // ----- A probe whose outcome nobody books -----

  predicate OnlyAsks(ls: seq<Label>) {
    forall i :: 0 <= i < |ls| ==> ls[i].Ask?
  }

  lemma {:induction false} NothingBooked(c: Config, b: State, ls: seq<Label>)
    requires b.circuit.HalfOpen? && b.probing && OnlyAsks(ls)
    ensures Run(c, b, ls) == b && Admitted(c, b, ls) == 0
    decreases |ls|
  {
    if ls == [] {
    } else {
      NothingBooked(c, b, ls[..|ls| - 1]);
    }
  }

  /** The two ways out of a probe: a booked success closes the circuit, a booked failure opens it for openFor more. */
  lemma ProbeOutcome(c: Config, b: State, l: Label)
    requires b.circuit.HalfOpen? && b.probing
    ensures Do(c, b, l) != b <==> !l.Ask?
    ensures l.Succeed? ==> forall now :: Allowed(c, Do(c, b, l), now)
    ensures l.Fail? ==> forall now :: Allowed(c, Do(c, b, l), now) <==> now >= l.at + c.openFor
  {
  }
}
