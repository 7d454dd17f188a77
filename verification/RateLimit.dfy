// The token-bucket limiter: lazy refill, an inline sweep of full buckets, and the wait a refused caller is told.
// Times are seconds on one clock that never goes back; token counts are exact reals.

module RateLimit {
  import opened Schema

  datatype Config = Config(rate: real, burst: real)

  datatype Bucket = Bucket(tokens: real, last: real)

  datatype State = State(buckets: map<string, Bucket>, lastSweep: Option<real>)

  datatype Answer = Granted | Refused(wait: real)

  const SWEEP_EVERY := 60.0
  const EMPTY := State(map[], None)

  predicate Positive(c: Config) {
    c.rate > 0.0 && c.burst > 0.0
  }

  function Min(a: real, b: real): real {
    if a <= b then a else b
  }

  /** Tokens gained in `elapsed` seconds. */
  function Gain(c: Config, elapsed: real): real {
    c.rate * elapsed
  }

  function Refilled(c: Config, b: Bucket, now: real): real {
    Min(c.burst, b.tokens + Gain(c, now - b.last))
  }

  /** What a caller has at `now`: a caller without a bucket has a full one. */
  function Level(c: Config, buckets: map<string, Bucket>, key: string, now: real): real {
    if key in buckets then Refilled(c, buckets[key], now) else c.burst
  }

  /** The time until an empty-handed caller with t tokens has a whole one. */
  function WaitFor(c: Config, t: real): real
    requires Positive(c)
  {
    (1.0 - t) / c.rate
  }

  predicate FullAgain(c: Config, b: Bucket, now: real) {
    b.tokens + Gain(c, now - b.last) >= c.burst
  }

  predicate SweepDue(s: State, now: real) {
    s.lastSweep.Some? ==> now - s.lastSweep.value >= SWEEP_EVERY
  }

  function Swept(c: Config, buckets: map<string, Bucket>, now: real): map<string, Bucket> {
    map k | k in buckets && !FullAgain(c, buckets[k], now) :: buckets[k]
  }

  function Take(c: Config, s: State, key: string, now: real): (State, Answer)
    requires Positive(c)
  {
    var t := Level(c, s.buckets, key, now);
    if t < 1.0 then (s.(buckets := s.buckets[key := Bucket(t, now)]), Refused(WaitFor(c, t)))
    else (s.(buckets := s.buckets[key := Bucket(t - 1.0, now)]), Granted)
  }

  /** One request; `sweeping` is whether this limiter ever forgets a bucket. */
  function Allow(c: Config, s: State, key: string, now: real, sweeping: bool): (State, Answer)
    requires Positive(c)
  {
    Take(c, if sweeping && SweepDue(s, now) then State(Swept(c, s.buckets, now), Some(now)) else s, key, now)
  }

  /** What a caller holds at `now`: what it had left and what came since, up to the burst; a new caller has a full bucket. */
  function Holding(c: Config, buckets: map<string, Bucket>, key: string, now: real): real {
    if key !in buckets then c.burst
    else
      var t := buckets[key].tokens + c.rate * (now - buckets[key].last);
      if t > c.burst then c.burst else t
  }

  /**
   * One request: granted for a whole token, or told how long a whole one takes. Nobody else's bucket changes, and only
   * full ones go.
   */
  ghost predicate Served(c: Config, s: State, key: string, now: real, s': State, answer: Answer) {
    var t := Holding(c, s.buckets, key, now);
    && (answer.Granted? <==> t >= 1.0) && (answer.Refused? ==> answer.wait * c.rate == 1.0 - t)
    && key in s'.buckets && s'.buckets[key] == Bucket(if t >= 1.0 then t - 1.0 else t, now)
    && (forall k :: k in s'.buckets && k != key ==> k in s.buckets && s'.buckets[k] == s.buckets[k])
    && (forall k :: k in s.buckets && k !in s'.buckets ==> Holding(c, s.buckets, k, now) == c.burst)
  }

  lemma HoldingIsLevel(c: Config, buckets: map<string, Bucket>, key: string, now: real)
    ensures Level(c, buckets, key, now) == Holding(c, buckets, key, now)
  {
    if key in buckets {
      GainIs(c, now - buckets[key].last);
    }
  }

  lemma WaitCovers(c: Config, t: real)
    requires Positive(c)
    ensures WaitFor(c, t) * c.rate == 1.0 - t
  {
  }

  lemma TakeServes(c: Config, s: State, key: string, now: real)
    requires Positive(c)
    ensures Served(c, s, key, now, Take(c, s, key, now).0, Take(c, s, key, now).1)
  {
    HoldingIsLevel(c, s.buckets, key, now);
    WaitCovers(c, Level(c, s.buckets, key, now));
  }

  lemma SweepHolds(c: Config, buckets: map<string, Bucket>, now: real)
    ensures forall k :: Holding(c, Swept(c, buckets, now), k, now) == Holding(c, buckets, k, now)
    ensures forall k :: k in buckets && k !in Swept(c, buckets, now) ==> Holding(c, buckets, k, now) == c.burst
  {
    forall k ensures Holding(c, Swept(c, buckets, now), k, now) == Holding(c, buckets, k, now)
                     && (k in buckets && k !in Swept(c, buckets, now) ==> Holding(c, buckets, k, now) == c.burst)
    {
      if k in buckets {
        GainIs(c, now - buckets[k].last);
      }
    }
  }

  lemma AllowServes(c: Config, s: State, key: string, now: real)
    requires Positive(c)
    ensures Served(c, s, key, now, Allow(c, s, key, now, true).0, Allow(c, s, key, now, true).1)
  {
    var swept := if SweepDue(s, now) then State(Swept(c, s.buckets, now), Some(now)) else s;
    TakeServes(c, swept, key, now);
    SweepHolds(c, s.buckets, now);
  }

  class RateLimiter {
    const rate: real
    const burst: real
    var buckets: map<string, Bucket>
    var lastSweep: Option<real>

    function View(): State
      reads this
    {
      State(buckets, lastSweep)
    }

    function Settings(): Config {
      Config(rate, burst)
    }

    constructor (rate: real, burst: real)
      ensures View() == EMPTY && Settings() == Config(rate, burst)
    {
      this.rate, this.burst, buckets, lastSweep := rate, burst, map[], None;
    }

    /** A bucket is worth keeping only below its burst; the others go when SWEEP_EVERY has passed since the last sweep. */
    method Sweep(now: real)
      modifies this
      ensures View() == if SweepDue(old(View()), now) then State(Swept(Settings(), old(buckets), now), Some(now)) else old(View())
      ensures old(lastSweep).Some? && now - old(lastSweep).value < 60.0 ==> View() == old(View())
      ensures old(lastSweep).None? || now - old(lastSweep).value >= 60.0 ==>
                && lastSweep == Some(now) && (forall k :: k in buckets ==> k in old(buckets) && buckets[k] == old(buckets)[k])
                && (forall k :: k in old(buckets) ==>
                      (k in buckets <==> old(buckets)[k].tokens + rate * (now - old(buckets)[k].last) < burst))
    {
      if lastSweep.Some? && now - lastSweep.value < SWEEP_EVERY {
        return;
      }
      lastSweep := Some(now);
      var rest := buckets.Keys;
      while rest != {}
        invariant rest <= buckets.Keys <= old(buckets.Keys) && lastSweep == Some(now)
        invariant forall k :: k in buckets ==> buckets[k] == old(buckets)[k]
        invariant forall k :: k in old(buckets) && k !in rest ==> (k in buckets <==> !FullAgain(Settings(), old(buckets)[k], now))
        decreases rest
      {
        var key :| key in rest;
        rest := rest - {key};
        var b := buckets[key];
        if b.tokens + Gain(Settings(), now - b.last) >= burst {
          buckets := buckets - {key};
        }
      }
      assert buckets == Swept(Settings(), old(buckets), now);
      forall k | k in old(buckets) ensures Gain(Settings(), now - old(buckets)[k].last) == rate * (now - old(buckets)[k].last) {
        GainIs(Settings(), now - old(buckets)[k].last);
      }
    }

    /** Takes a token for `key`, or says how long to wait for the next one. */
    method Ask(key: string, now: real) returns (answer: Answer)
      requires Positive(Settings())
      modifies this
      ensures (View(), answer) == Allow(Settings(), old(View()), key, now, true)
      ensures Served(Settings(), old(View()), key, now, View(), answer)
    {
      AllowServes(Settings(), View(), key, now);
      Sweep(now);
      ghost var swept := buckets;
      if key !in buckets {
        buckets := buckets[key := Bucket(burst, now)];
      }
      var b := buckets[key];
      var tokens := Min(burst, b.tokens + Gain(Settings(), now - b.last));
      assert tokens == Level(Settings(), swept, key, now) by {
        GainAdds(Settings(), 0.0, 0.0);
      }
      if tokens < 1.0 {
        buckets := buckets[key := Bucket(tokens, now)];
        assert buckets == swept[key := Bucket(tokens, now)];
        return Refused(WaitFor(Settings(), tokens));
      }
      buckets := buckets[key := Bucket(tokens - 1.0, now)];
      assert buckets == swept[key := Bucket(tokens - 1.0, now)];
      answer := Granted;
    }
  }

  // ----- Runs -----

  datatype Request = Request(key: string, at: real)

  predicate Clocked(rs: seq<Request>, start: real, end: real) {
    && (forall i :: 0 <= i < |rs| ==> start <= rs[i].at <= end)
    && (forall i, j :: 0 <= i < j < |rs| ==> rs[i].at <= rs[j].at)
  }

  function After(c: Config, s: State, rs: seq<Request>, sweeping: bool): State
    requires Positive(c)
    decreases |rs|
  {
    if rs == [] then s
    else Allow(c, After(c, s, rs[..|rs| - 1], sweeping), rs[|rs| - 1].key, rs[|rs| - 1].at, sweeping).0
  }

  function Answers(c: Config, s: State, rs: seq<Request>, sweeping: bool): seq<Answer>
    requires Positive(c)
    decreases |rs|
  {
    if rs == [] then []
    else
      var init, r := rs[..|rs| - 1], rs[|rs| - 1];
      Answers(c, s, init, sweeping) + [Allow(c, After(c, s, init, sweeping), r.key, r.at, sweeping).1]
  }

  /** How often `key` got through. */
  function Grants(c: Config, s: State, rs: seq<Request>, key: string): nat
    requires Positive(c)
    decreases |rs|
  {
    if rs == [] then 0
    else
      var init, r := rs[..|rs| - 1], rs[|rs| - 1];
      Grants(c, s, init, key) + if r.key == key && Allow(c, After(c, s, init, true), r.key, r.at, true).1.Granted? then 1 else 0
  }

  ghost predicate BucketOk(c: Config, b: Bucket, now: real) {
    0.0 <= b.tokens <= c.burst && b.last <= now
  }

  ghost predicate BucketsOk(c: Config, buckets: map<string, Bucket>, now: real) {
    forall k :: k in buckets ==> BucketOk(c, buckets[k], now)
  }

  lemma GainAdds(c: Config, a: real, b: real)
    ensures Gain(c, a + b) == Gain(c, a) + Gain(c, b) && Gain(c, 0.0) == 0.0
  {
  }

  lemma GainIs(c: Config, elapsed: real)
    ensures Gain(c, elapsed) == c.rate * elapsed
  {
  }

  lemma GainGrows(c: Config, a: real, b: real)
    requires Positive(c) && a <= b
    ensures Gain(c, a) <= Gain(c, b)
  {
    assert (b - a) * c.rate >= 0.0;
  }

  lemma Refills(c: Config, b: Bucket, now: real, later: real)
    requires Positive(c) && BucketOk(c, b, now) && now <= later
    ensures Refilled(c, b, later) == Min(c.burst, Refilled(c, b, now) + Gain(c, later - now))
    ensures 0.0 <= Refilled(c, b, now)
  {
    GainAdds(c, later - now, now - b.last);
    assert later - now + (now - b.last) == later - b.last;
    GainGrows(c, 0.0, later - now);
    GainGrows(c, 0.0, now - b.last);
    GainAdds(c, 0.0, 0.0);
  }

  /** What a caller will have depends only on what it has now. */
  lemma LevelLater(c: Config, buckets: map<string, Bucket>, key: string, now: real, later: real)
    requires Positive(c) && BucketsOk(c, buckets, now) && now <= later
    ensures Level(c, buckets, key, later) == Min(c.burst, Level(c, buckets, key, now) + Gain(c, later - now))
    ensures 0.0 <= Level(c, buckets, key, now) <= c.burst
  {
    if key in buckets {
      Refills(c, buckets[key], now, later);
    } else {
      GainGrows(c, 0.0, later - now);
      GainAdds(c, 0.0, 0.0);
    }
  }

  lemma OkLater(c: Config, buckets: map<string, Bucket>, now: real, later: real)
    requires BucketsOk(c, buckets, now) && now <= later
    ensures BucketsOk(c, buckets, later)
  {
  }

  // ----- The sweep is unobservable -----

  lemma SweepKeepsLevel(c: Config, buckets: map<string, Bucket>, key: string, now: real)
    ensures Level(c, Swept(c, buckets, now), key, now) == Level(c, buckets, key, now)
  {
  }

  lemma Pays(c: Config, s: State, key: string, now: real, sweeping: bool, other: string)
    requires Positive(c) && BucketsOk(c, s.buckets, now)
    ensures var (s', answer) := Allow(c, s, key, now, sweeping); var t := Level(c, s.buckets, key, now);
            && BucketsOk(c, s'.buckets, now)
            && answer == (if t < 1.0 then Refused(WaitFor(c, t)) else Granted)
            && Level(c, s'.buckets, key, now) == (if t < 1.0 then t else t - 1.0)
            && (other != key ==> Level(c, s'.buckets, other, now) == Level(c, s.buckets, other, now))
  {
    LevelLater(c, s.buckets, key, now, now);
    SweepKeepsLevel(c, s.buckets, key, now);
    SweepKeepsLevel(c, s.buckets, other, now);
    GainAdds(c, 0.0, 0.0);
  }

  /** One request, seen through the levels: its own key pays if it can, every other key keeps what it had. */
  lemma AllowLevels(c: Config, s: State, key: string, now: real, sweeping: bool, other: string)
    requires Positive(c) && BucketsOk(c, s.buckets, now)
    ensures var (s', answer) := Allow(c, s, key, now, sweeping); var t := Level(c, s.buckets, key, now);
            && BucketsOk(c, s'.buckets, now)
            && (answer.Granted? <==> t >= 1.0) && (answer.Refused? ==> answer.wait * c.rate == 1.0 - t)
            && Level(c, s'.buckets, key, now) == (if t < 1.0 then t else t - 1.0)
            && (other != key ==> Level(c, s'.buckets, other, now) == Level(c, s.buckets, other, now))
  {
    Pays(c, s, key, now, sweeping, other);
    WaitCovers(c, Level(c, s.buckets, key, now));
  }

  ghost predicate SameLevels(c: Config, a: map<string, Bucket>, b: map<string, Bucket>, now: real) {
    forall key :: Level(c, a, key, now) == Level(c, b, key, now)
  }

  lemma SameLevelsLater(c: Config, a: map<string, Bucket>, b: map<string, Bucket>, now: real, later: real)
    requires Positive(c) && BucketsOk(c, a, now) && BucketsOk(c, b, now) && SameLevels(c, a, b, now) && now <= later
    ensures SameLevels(c, a, b, later) && BucketsOk(c, a, later) && BucketsOk(c, b, later)
  {
    forall key ensures Level(c, a, key, later) == Level(c, b, key, later) {
      assert Level(c, a, key, now) == Level(c, b, key, now);
      LevelLater(c, a, key, now, later);
      LevelLater(c, b, key, now, later);
    }
  }

  lemma SameAnswer(c: Config, a: State, b: State, key: string, now: real)
    requires Positive(c) && BucketsOk(c, a.buckets, now) && BucketsOk(c, b.buckets, now) && SameLevels(c, a.buckets, b.buckets, now)
    ensures var (a', x) := Allow(c, a, key, now, true); var (b', y) := Allow(c, b, key, now, false);
            x == y && SameLevels(c, a'.buckets, b'.buckets, now) && BucketsOk(c, a'.buckets, now) && BucketsOk(c, b'.buckets, now)
  {
    var (a', x) := Allow(c, a, key, now, true);
    var (b', y) := Allow(c, b, key, now, false);
    assert Level(c, a.buckets, key, now) == Level(c, b.buckets, key, now);
    Pays(c, a, key, now, true, key);
    Pays(c, b, key, now, false, key);
    forall other ensures Level(c, a'.buckets, other, now) == Level(c, b'.buckets, other, now) {
      assert Level(c, a.buckets, other, now) == Level(c, b.buckets, other, now);
      Pays(c, a, key, now, true, other);
      Pays(c, b, key, now, false, other);
    }
  }

  function Last(rs: seq<Request>, start: real): real {
    if rs == [] then start else rs[|rs| - 1].at
  }

  lemma {:induction false} Simulates(c: Config, rs: seq<Request>, start: real, end: real)
    requires Positive(c) && Clocked(rs, start, end)
    ensures var a := After(c, EMPTY, rs, true).buckets; var b := After(c, EMPTY, rs, false).buckets;
            SameLevels(c, a, b, Last(rs, start)) && BucketsOk(c, a, Last(rs, start)) && BucketsOk(c, b, Last(rs, start))
    ensures Answers(c, EMPTY, rs, true) == Answers(c, EMPTY, rs, false)
    decreases |rs|
  {
    if rs == [] {
    } else {
      var init, r := rs[..|rs| - 1], rs[|rs| - 1];
      Simulates(c, init, start, end);
      var a, b := After(c, EMPTY, init, true), After(c, EMPTY, init, false);
      SameLevelsLater(c, a.buckets, b.buckets, Last(init, start), r.at);
      SameAnswer(c, a, b, r.key, r.at);
    }
  }

  /** A limiter that forgets full buckets gives every caller the same answers and the same waits as one that never does. */
  lemma SweepIsUnobservable(c: Config, rs: seq<Request>, start: real, end: real)
    requires Positive(c) && Clocked(rs, start, end)
    ensures Answers(c, EMPTY, rs, true) == Answers(c, EMPTY, rs, false)
  {
    Simulates(c, rs, start, end);
  }

  // ----- The rate bound -----

  lemma {:induction false} Spent(c: Config, s: State, rs: seq<Request>, key: string, start: real, end: real)
    requires Positive(c) && BucketsOk(c, s.buckets, start) && Clocked(rs, start, end)
    ensures var s' := After(c, s, rs, true); var now := Last(rs, start);
            && BucketsOk(c, s'.buckets, now)
            && Grants(c, s, rs, key) as real + Level(c, s'.buckets, key, now) <= c.burst + Gain(c, now - start)
    decreases |rs|
  {
    if rs == [] {
      LevelLater(c, s.buckets, key, start, start);
      GainAdds(c, 0.0, 0.0);
    } else {
      var init, r := rs[..|rs| - 1], rs[|rs| - 1];
      Spent(c, s, init, key, start, end);
      var m, before := After(c, s, init, true), Last(init, start);
      OkLater(c, m.buckets, before, r.at);
      LevelLater(c, m.buckets, key, before, r.at);
      Pays(c, m, r.key, r.at, true, key);
      GainAdds(c, r.at - before, before - start);
      assert r.at - before + (before - start) == r.at - start;
    }
  }

  lemma GrantsBound(c: Config, past: seq<Request>, window: seq<Request>, key: string, start: real, s: real, t: real)
    requires Positive(c) && start <= s && Clocked(past, start, s) && Clocked(window, s, t) && s <= t
    ensures Grants(c, After(c, EMPTY, past, true), window, key) as real <= c.burst + Gain(c, t - s)
  {
    Spent(c, EMPTY, past, key, start, s);
    var m := After(c, EMPTY, past, true);
    OkLater(c, m.buckets, Last(past, start), s);
    Spent(c, m, window, key, s, t);
    var s' := After(c, m, window, true);
    LevelLater(c, s'.buckets, key, Last(window, s), Last(window, s));
    assert Last(window, s) <= t;
    GainGrows(c, Last(window, s) - s, t - s);
  }

  /** At most the burst, and what comes in over the length of the window. */
  predicate WithinRate(c: Config, n: nat, length: real) {
    n as real <= c.burst + c.rate * length
  }

  lemma GainBounds(c: Config, n: nat, length: real)
    requires n as real <= c.burst + Gain(c, length)
    ensures WithinRate(c, n, length)
  {
  }

  /** In every window of every run, a caller gets at most burst + rate * length requests through. */
  lemma RateBound(c: Config, past: seq<Request>, window: seq<Request>, key: string, start: real, s: real, t: real)
    requires Positive(c) && start <= s && Clocked(past, start, s) && Clocked(window, s, t) && s <= t
    ensures WithinRate(c, Grants(c, After(c, EMPTY, past, true), window, key), t - s)
  {
    GrantsBound(c, past, window, key, start, s, t);
    GainBounds(c, Grants(c, After(c, EMPTY, past, true), window, key), t - s);
  }

  // ----- The wait -----

  predicate Without(rs: seq<Request>, key: string) {
    forall i :: 0 <= i < |rs| ==> rs[i].key != key
  }

  lemma {:induction false} LevelOfOthers(c: Config, s: State, rs: seq<Request>, key: string, start: real, end: real)
    requires Positive(c) && BucketsOk(c, s.buckets, start) && Clocked(rs, start, end) && Without(rs, key)
    ensures var s' := After(c, s, rs, true); var now := Last(rs, start);
            && BucketsOk(c, s'.buckets, now)
            && Level(c, s'.buckets, key, now) == Min(c.burst, Level(c, s.buckets, key, start) + Gain(c, now - start))
    decreases |rs|
  {
    if rs == [] {
      LevelLater(c, s.buckets, key, start, start);
      GainAdds(c, 0.0, 0.0);
    } else {
      var init, r := rs[..|rs| - 1], rs[|rs| - 1];
      LevelOfOthers(c, s, init, key, start, end);
      var m, before := After(c, s, init, true), Last(init, start);
      OkLater(c, m.buckets, before, r.at);
      LevelLater(c, m.buckets, key, before, r.at);
      LevelLater(c, s.buckets, key, start, start);
      Pays(c, m, r.key, r.at, true, key);
      GainAdds(c, r.at - before, before - start);
      GainGrows(c, 0.0, r.at - before);
      GainAdds(c, 0.0, 0.0);
      assert r.at - before + (before - start) == r.at - start;
    }
  }

  /** From `before` tokens to `after` in this time, with nothing spent. */
  predicate FilledUp(c: Config, before: real, elapsed: real, after: real) {
    after == if before + c.rate * elapsed <= c.burst then before + c.rate * elapsed else c.burst
  }

  lemma GainFills(c: Config, before: real, elapsed: real)
    ensures FilledUp(c, before, elapsed, Min(c.burst, before + Gain(c, elapsed)))
  {
  }

  /** Requests of others do not touch a caller's level. */
  lemma OthersDoNotMatter(c: Config, s: State, rs: seq<Request>, key: string, start: real, end: real)
    requires Positive(c) && BucketsOk(c, s.buckets, start) && Clocked(rs, start, end) && Without(rs, key)
    ensures var s' := After(c, s, rs, true); var now := Last(rs, start);
            && BucketsOk(c, s'.buckets, now)
            && FilledUp(c, Level(c, s.buckets, key, start), now - start, Level(c, s'.buckets, key, now))
  {
    LevelOfOthers(c, s, rs, key, start, end);
    GainFills(c, Level(c, s.buckets, key, start), Last(rs, start) - start);
  }

  lemma GainOfWait(c: Config, t: real, elapsed: real)
    requires Positive(c)
    ensures Gain(c, elapsed) >= 1.0 - t <==> elapsed >= WaitFor(c, t)
  {
    var wait := WaitFor(c, t);
    assert wait * c.rate == 1.0 - t;
    if elapsed >= wait {
      GainGrows(c, wait, elapsed);
    } else {
      assert (wait - elapsed) * c.rate > 0.0;
    }
  }

  lemma AdmittedAfterWait(c: Config, s: State, key: string, now: real, others: seq<Request>, later: real)
    requires Positive(c) && BucketsOk(c, s.buckets, now) && Allow(c, s, key, now, true).1.Refused?
    requires Clocked(others, now, later) && Without(others, key) && now <= later
    ensures var (s1, first) := Allow(c, s, key, now, true);
            Allow(c, After(c, s1, others, true), key, later, true).1.Granted? <==> c.burst >= 1.0 && later >= now + first.wait
  {
    var (s1, first) := Allow(c, s, key, now, true);
    var s2, last := After(c, s1, others, true), Last(others, now);
    Pays(c, s, key, now, true, key);
    LevelOfOthers(c, s1, others, key, now, later);
    var t := Level(c, s1.buckets, key, now);
    OkLater(c, s2.buckets, last, later);
    LevelLater(c, s2.buckets, key, last, later);
    Pays(c, s2, key, later, true, key);
    GainAdds(c, later - last, last - now);
    assert later - last + (last - now) == later - now;
    GainGrows(c, 0.0, later - last);
    GainAdds(c, 0.0, 0.0);
    GainOfWait(c, t, later - now);
  }

  /**
   * The wait is exact. A caller refused at `now` that asks again later, with only others asking in between, is admitted
   * exactly when it waited at least as long as it was told and the limiter's burst is at least one token.
   */
  lemma WaitIsExact(c: Config, s: State, key: string, now: real, others: seq<Request>, later: real)
    requires Positive(c) && BucketsOk(c, s.buckets, now) && Allow(c, s, key, now, true).1.Refused?
    requires Clocked(others, now, later) && Without(others, key) && now <= later
    ensures var (s1, first) := Allow(c, s, key, now, true);
            && first.wait * c.rate == 1.0 - Holding(c, s.buckets, key, now)
            && (Allow(c, After(c, s1, others, true), key, later, true).1.Granted? <==> c.burst >= 1.0 && later >= now + first.wait)
  {
    AdmittedAfterWait(c, s, key, now, others, later);
    AllowServes(c, s, key, now);
  }

  /** The first request of a caller is admitted, whatever others did before it, exactly when the burst is a whole token. */
  lemma FirstRequestIff(c: Config, past: seq<Request>, key: string, start: real, now: real)
    requires Positive(c) && Clocked(past, start, now) && Without(past, key) && start <= now
    ensures Allow(c, After(c, EMPTY, past, true), key, now, true).1.Granted? <==> c.burst >= 1.0
  {
    var s, last := After(c, EMPTY, past, true), Last(past, start);
    LevelOfOthers(c, EMPTY, past, key, start, now);
    GainGrows(c, 0.0, last - start);
    GainGrows(c, 0.0, now - last);
    GainAdds(c, 0.0, 0.0);
    LevelLater(c, s.buckets, key, last, now);
    OkLater(c, s.buckets, last, now);
    Pays(c, s, key, now, true, key);
  }

  /** With a burst below one token nobody is ever admitted, whatever the rate and however long they wait. */
  lemma {:induction false} SmallBurstRefusesAll(c: Config, rs: seq<Request>, start: real, end: real)
    requires Positive(c) && c.burst < 1.0 && Clocked(rs, start, end)
    ensures forall a :: a in Answers(c, EMPTY, rs, true) ==> a.Refused?
    decreases |rs|
  {
    if rs == [] {
    } else {
      var init, r := rs[..|rs| - 1], rs[|rs| - 1];
      SmallBurstRefusesAll(c, init, start, end);
      Simulates(c, init, start, end);
      var m := After(c, EMPTY, init, true);
      OkLater(c, m.buckets, Last(init, start), r.at);
      Pays(c, m, r.key, r.at, true, r.key);
      LevelLater(c, m.buckets, r.key, r.at, r.at);
    }
  }

  /** The Retry-After header: the least whole number of seconds that covers the wait, and never zero. */
  function RetryAfter(wait: real): (seconds: int)
    ensures seconds >= 1 && seconds as real >= wait
    ensures seconds == 1 || (seconds - 1) as real < wait
  {
    var ceil := if wait.Floor as real == wait then wait.Floor else wait.Floor + 1;
    if ceil < 1 then 1 else ceil
  }
}
