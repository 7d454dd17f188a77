// Who is online: a sorted set of "userID:nodeID" scored by the second of the last heartbeat, trimmed on every beat.

module PresenceStore {
  import opened Schema

  const UINT64 := 0x1_0000_0000_0000_0000

  type Id = x: nat | x < UINT64

  // ----- Members -----

  predicate IsDigit(c: char) {
    '0' <= c <= '9'
  }

  function DigitOf(n: nat): char
    requires n < 10
  {
    '0' + n as char
  }

  function ValueOf(c: char): nat
    requires IsDigit(c)
  {
    c as int - '0' as int
  }

  /** A number in decimal. */
  function Printed(n: nat): (s: string)
    ensures |s| > 0 && forall i :: 0 <= i < |s| ==> IsDigit(s[i])
  {
    if n < 10 then [DigitOf(n)] else Printed(n / 10) + [DigitOf(n % 10)]
  }

  function Value(s: string): nat
    requires forall i :: 0 <= i < |s| ==> IsDigit(s[i])
    decreases |s|
  {
    if s == "" then 0 else 10 * Value(s[..|s| - 1]) + ValueOf(s[|s| - 1])
  }

  /** Decimal, 64 bits: nothing but digits, at least one of them, and no overflow. */
  function ParseUint(s: string): Option<Id> {
    if s == "" || (exists i :: 0 <= i < |s| && !IsDigit(s[i])) then None
    else if Value(s) >= UINT64 then None else Some(Value(s))
  }

  /** The position of the first colon, or the length if there is none. */
  function FirstColon(m: string): (i: nat)
    ensures i <= |m| && (i < |m| ==> m[i] == ':') && forall j :: 0 <= j < i ==> m[j] != ':'
  {
    if m == "" || m[0] == ':' then 0 else 1 + FirstColon(m[1..])
  }

  function Member(id: Id, node: string): string {
    Printed(id) + ":" + node
  }

  function ParseMember(m: string): Option<Id> {
    if FirstColon(m) == |m| then None else ParseUint(m[..FirstColon(m)])
  }

  lemma {:induction false} ValueOfPrinted(n: nat)
    ensures Value(Printed(n)) == n
  {
    if n < 10 {
    } else {
      ValueOfPrinted(n / 10);
      assert Printed(n)[..|Printed(n)| - 1] == Printed(n / 10);
    }
  }

  lemma ColonOfMember(id: Id, node: string)
    ensures FirstColon(Member(id, node)) == |Printed(id)| && Member(id, node)[..|Printed(id)|] == Printed(id)
    ensures Member(id, node)[|Printed(id)| + 1..] == node
  {
    var m, n := Member(id, node), |Printed(id)|;
    assert m[n] == ':' && forall j :: 0 <= j < n ==> m[j] == Printed(id)[j] != ':';
  }

  /** The round trip, for every id of 64 bits and every node name, with colons or without. */
  lemma RoundTrip(id: Id, node: string)
    ensures ParseMember(Member(id, node)) == Some(id)
  {
    ColonOfMember(id, node);
    ValueOfPrinted(id);
  }

  ghost predicate Splits(m: string, digits: string, node: string, id: nat) {
    m == digits + ":" + node && digits != "" && (forall i :: 0 <= i < |digits| ==> '0' <= digits[i] <= '9') && Value(digits) == id
  }

  lemma SplitsAtFirstColon(m: string, digits: string, node: string, id: nat)
    requires Splits(m, digits, node, id)
    ensures FirstColon(m) == |digits| < |m| && m[..FirstColon(m)] == digits
  {
    assert m[|digits|] == ':' && forall j :: 0 <= j < |digits| ==> m[j] == digits[j];
  }

  /** What parses: digits before the first colon, at least one, naming a number of 64 bits; a member without a colon does not. */
  lemma ParsesIff(m: string, id: Id)
    ensures ParseMember(m) == Some(id) <==> exists digits, node :: Splits(m, digits, node, id)
  {
    if ParseMember(m) == Some(id) {
      var n := FirstColon(m);
      assert m == m[..n] + ":" + m[n + 1..];
      assert Splits(m, m[..n], m[n + 1..], id);
    }
    if exists digits, node :: Splits(m, digits, node, id) {
      var digits, node :| Splits(m, digits, node, id);
      SplitsAtFirstColon(m, digits, node, id);
    }
  }

  /** Two users, or one user on two nodes, never share an entry. */
  lemma MembersAreDistinct(a: Id, n: string, b: Id, k: string)
    ensures Member(a, n) == Member(b, k) <==> a == b && n == k
  {
    if Member(a, n) == Member(b, k) {
      RoundTrip(a, n);
      RoundTrip(b, k);
      ColonOfMember(a, n);
      ColonOfMember(b, k);
    }
  }

  // ----- The sorted set -----

  const TTL := 30

  /** Times are milliseconds; a score is the whole second. */
  function Unix(now: nat): nat {
    now / 1000
  }

  datatype Command = Add(id: Id, node: string, at: nat) | Trim(at: nat)

  function Execute(scores: map<string, nat>, c: Command): map<string, nat> {
    match c
    case Add(id, node, at) => scores[Member(id, node) := Unix(at)]
    case Trim(at) => map m | m in scores && scores[m] >= Unix(at) - TTL :: scores[m]
  }

  function ExecuteAll(scores: map<string, nat>, cs: seq<Command>): map<string, nat>
    decreases |cs|
  {
    if cs == [] then scores else Execute(ExecuteAll(scores, cs[..|cs| - 1]), cs[|cs| - 1])
  }

  /** The pipeline of one heartbeat: an add for each user, then the trim. */
  function Beat(node: string, ids: seq<Id>, now: nat): seq<Command> {
    seq(|ids|, i requires 0 <= i < |ids| => Add(ids[i], node, now)) + [Trim(now)]
  }

  predicate Shows(scores: map<string, nat>, m: string, id: Id, now: nat) {
    m in scores && scores[m] > Unix(now) - TTL && ParseMember(m) == Some(id)
  }

  /** The set says that the user is online. */
  ghost predicate OnlineIn(scores: map<string, nat>, id: Id, now: nat) {
    exists m :: Shows(scores, m, id, now)
  }

  /** `at` are the positions in `ids` of the users that are online, in rising order, and `online` the users at them. */
  ghost predicate Filters(scores: map<string, nat>, ids: seq<Id>, now: nat, online: seq<Id>, at: seq<nat>) {
    && |at| == |online| && (forall j, k :: 0 <= j < k < |at| ==> at[j] < at[k])
    && (forall k :: 0 <= k < |at| ==> at[k] < |ids| && online[k] == ids[at[k]])
    && (forall i :: 0 <= i < |ids| ==> (i in at <==> OnlineIn(scores, ids[i], now)))
  }

  lemma FiltersMore(scores: map<string, nat>, ids: seq<Id>, id: Id, now: nat, online: seq<Id>, at: seq<nat>)
    requires Filters(scores, ids, now, online, at)
    ensures if OnlineIn(scores, id, now) then Filters(scores, ids + [id], now, online + [id], at + [|ids|])
            else Filters(scores, ids + [id], now, online, at)
  {
    forall i | 0 <= i < |ids + [id]| && i in at ensures i < |ids| {
      var k :| 0 <= k < |at| && at[k] == i;
    }
  }

  /** The node's entry for one of these users. */
  ghost predicate Beats(node: string, ids: seq<Id>, m: string) {
    exists i :: 0 <= i < |ids| && m == Member(ids[i], node)
  }

  /** Entry by entry: the users' entries are of this second, and of the others none goes but by the trim. */
  ghost predicate Beaten(before: map<string, nat>, after: map<string, nat>, node: string, ids: seq<Id>, now: nat, trimmed: bool) {
    && (forall m :: m in after <==> Beats(node, ids, m) || (m in before && (trimmed ==> before[m] >= now / 1000 - 30)))
    && (forall m :: m in after ==> after[m] == if Beats(node, ids, m) then now / 1000 else before[m])
  }

  lemma BeatsMore(node: string, ids: seq<Id>, id: Id, m: string)
    ensures Beats(node, ids + [id], m) <==> Beats(node, ids, m) || m == Member(id, node)
  {
    if Beats(node, ids, m) {
      var i :| 0 <= i < |ids| && m == Member(ids[i], node);
      assert (ids + [id])[i] == ids[i];
    }
    assert (ids + [id])[|ids|] == id;
  }

  /** The first k adds of a heartbeat. */
  lemma {:induction false} AddsBeat(scores: map<string, nat>, node: string, ids: seq<Id>, now: nat, k: nat)
    requires k <= |ids|
    ensures Beaten(scores, ExecuteAll(scores, Beat(node, ids, now)[..k]), node, ids[..k], now, false)
    decreases k
  {
    if k == 0 {
    } else {
      AddsBeat(scores, node, ids, now, k - 1);
      assert Beat(node, ids, now)[..k][..k - 1] == Beat(node, ids, now)[..k - 1];
      assert ids[..k] == ids[..k - 1] + [ids[k - 1]];
      forall m ensures Beats(node, ids[..k], m) <==> Beats(node, ids[..k - 1], m) || m == Member(ids[k - 1], node) {
        BeatsMore(node, ids[..k - 1], ids[k - 1], m);
      }
    }
  }

  lemma WholeBeat(scores: map<string, nat>, node: string, ids: seq<Id>, now: nat)
    ensures Beaten(scores, ExecuteAll(scores, Beat(node, ids, now)), node, ids, now, true)
  {
    AddsBeat(scores, node, ids, now, |ids|);
    assert ids[..|ids|] == ids && Beat(node, ids, now)[..|ids|] + [Trim(now)] == Beat(node, ids, now);
  }

  /** After a whole heartbeat its users are online at that moment. */
  lemma BeatShows(before: map<string, nat>, after: map<string, nat>, node: string, ids: seq<Id>, now: nat)
    requires Beaten(before, after, node, ids, now, true)
    ensures forall id :: id in ids ==> OnlineIn(after, id, now)
  {
    forall id | id in ids ensures OnlineIn(after, id, now) {
      var i :| 0 <= i < |ids| && ids[i] == id;
      RoundTrip(id, node);
      assert Beats(node, ids, Member(id, node));
      assert Shows(after, Member(id, node), id, now);
    }
  }

  class Store {
    var scores: map<string, nat>
    var failures: nat

    constructor ()
      ensures scores == map[] && failures == 0
    {
      scores, failures := map[], 0;
    }

    /**
     * One round trip. When the connection breaks, Redis has run the first `executed` commands and no more; it can also
     * break after all of them, so that only the reply is lost.
     */
    method Heartbeat(node: string, ids: seq<Id>, now: nat, executed: nat, replied: bool) returns (ok: bool)
      requires executed <= |ids| + 1
      modifies this
      ensures ok == (executed == |ids| + 1 && replied) && failures == old(failures) + if ok then 0 else 1
      ensures scores == ExecuteAll(old(scores), Beat(node, ids, now)[..executed])
      ensures executed <= |ids| ==> Beaten(old(scores), scores, node, ids[..executed], now, false)
      ensures executed == |ids| + 1 ==>
                Beaten(old(scores), scores, node, ids, now, true) && forall id :: id in ids ==> OnlineIn(scores, id, now)
    {
      var pipe := [];
      for i := 0 to |ids|
        invariant pipe == Beat(node, ids, now)[..i]
      {
        pipe := pipe + [Add(ids[i], node, now)];
      }
      pipe := pipe + [Trim(now)];
      for k := 0 to executed
        invariant scores == ExecuteAll(old(scores), pipe[..k]) && failures == old(failures)
      {
        assert pipe[..k + 1][..k] == pipe[..k];
        scores := Execute(scores, pipe[k]);
      }
      assert pipe == Beat(node, ids, now) && pipe[..|pipe|] == pipe;
      if executed <= |ids| {
        AddsBeat(old(scores), node, ids, now, executed);
      } else {
        WholeBeat(old(scores), node, ids, now);
        BeatShows(old(scores), scores, node, ids, now);
      }
      ok := executed == |pipe| && replied;
      if !ok {
        failures := failures + 1;
      }
    }

    /**
     * The whole window is read once, and the users asked about are looked up in it: the answer is those online, each as
     * often as it was asked about and in that order. A read that fails answers nothing, and nobody asked costs no read.
     */
    method Online(ids: seq<Id>, now: nat, fails: bool) returns (r: Option<seq<Id>>, ghost at: seq<nat>)
      modifies this`failures
      ensures r.None? <==> fails && ids != []
      ensures failures == old(failures) + if r.None? then 1 else 0
      ensures r.Some? ==> Filters(scores, ids, now, r.value, at)
      ensures r.Some? ==> forall id :: id in r.value <==> id in ids && OnlineIn(scores, id, now)
    {
      if ids == [] {
        return Some([]), [];
      }
      if fails {
        failures := failures + 1;
        return None, [];
      }
      var all: set<Id> := {};
      var rest := set m | m in scores && scores[m] > Unix(now) - TTL;
      while rest != {}
        invariant failures == old(failures) && forall m :: m in rest ==> m in scores && scores[m] > Unix(now) - TTL
        invariant forall id :: id in all ==> OnlineIn(scores, id, now)
        invariant forall m, id :: Shows(scores, m, id, now) ==> m in rest || id in all
        decreases rest
      {
        var m :| m in rest;
        rest := rest - {m};
        var id := ParseMember(m);
        if id.Some? {
          assert Shows(scores, m, id.value, now);
          all := all + {id.value};
        }
      }
      var online := [];
      at := [];
      for k := 0 to |ids|
        invariant failures == old(failures) && Filters(scores, ids[..k], now, online, at)
      {
        assert ids[..k + 1] == ids[..k] + [ids[k]];
        FiltersMore(scores, ids[..k], ids[k], now, online, at);
        if ids[k] in all {
          online, at := online + [ids[k]], at + [k];
        }
      }
      assert ids[..|ids|] == ids;
      FiltersExactly(scores, ids, now, online, at);
      r := Some(online);
    }
  }

  lemma FiltersExactly(scores: map<string, nat>, ids: seq<Id>, now: nat, online: seq<Id>, at: seq<nat>)
    requires Filters(scores, ids, now, online, at)
    ensures forall id :: id in online <==> id in ids && OnlineIn(scores, id, now)
  {
    forall id | id in ids && OnlineIn(scores, id, now) ensures id in online {
      var i :| 0 <= i < |ids| && ids[i] == id;
      var k :| 0 <= k < |at| && at[k] == i;
      assert online[k] == id;
    }
    forall k | 0 <= k < |online| ensures online[k] in ids && OnlineIn(scores, online[k], now) {
      assert at[k] in at;
    }
  }

  // ----- The trim -----

  /** No trim is more than `lead` seconds ahead of the reader, whose clock was read before the set was. */
  ghost predicate TrimsWithin(cs: seq<Command>, now: nat, lead: nat) {
    forall i :: 0 <= i < |cs| && cs[i].Trim? ==> Unix(cs[i].at) <= Unix(now) + lead
  }

  function NoTrims(cs: seq<Command>): seq<Command>
    decreases |cs|
  {
    if cs == [] then [] else NoTrims(cs[..|cs| - 1]) + if cs[|cs| - 1].Add? then [cs[|cs| - 1]] else []
  }

  /** `scores` is `full` without some entries that a reader at `now` would not count. */
  ghost predicate SameWindow(scores: map<string, nat>, full: map<string, nat>, now: nat) {
    && (forall m :: m in scores ==> m in full && full[m] == scores[m])
    && (forall m :: m in full && m !in scores ==> full[m] <= Unix(now) - TTL)
  }

  lemma ExecuteThen(cs: seq<Command>, c: Command)
    ensures ExecuteAll(map[], cs + [c]) == Execute(ExecuteAll(map[], cs), c)
  {
    assert (cs + [c])[..|cs|] == cs;
  }

  lemma {:induction false} TrimsOnlyOld(cs: seq<Command>, now: nat)
    requires TrimsWithin(cs, now, 1)
    ensures SameWindow(ExecuteAll(map[], cs), ExecuteAll(map[], NoTrims(cs)), now)
    decreases |cs|
  {
    if cs == [] {
    } else {
      var init, c := cs[..|cs| - 1], cs[|cs| - 1];
      TrimsOnlyOld(init, now);
      if c.Add? {
        ExecuteThen(NoTrims(init), c);
      } else {
        assert NoTrims(cs) == NoTrims(init);
      }
    }
  }

  ghost predicate TrimsUnseen(cs: seq<Command>, id: Id, now: nat) {
    OnlineIn(ExecuteAll(map[], cs), id, now) <==> OnlineIn(ExecuteAll(map[], NoTrims(cs)), id, now)
  }

  /**
   * Trimming is about memory and not correctness: for beats of any nodes, in any order, whole or cut short, a reader gets
   * the same answer as without any trim, also when a trim from one second ahead overtakes it.
   */
  lemma TrimIsUnobservable(cs: seq<Command>, id: Id, now: nat)
    requires TrimsWithin(cs, now, 1)
    ensures TrimsUnseen(cs, id, now)
  {
    var scores, full := ExecuteAll(map[], cs), ExecuteAll(map[], NoTrims(cs));
    TrimsOnlyOld(cs, now);
    forall m ensures Shows(scores, m, id, now) <==> Shows(full, m, id, now) {
    }
  }

  /** The whole answer of Online is the same as on the untrimmed set, after any commands. */
  lemma AnswerIgnoresTrims(cs: seq<Command>, ids: seq<Id>, now: nat, online: seq<Id>, at: seq<nat>)
    requires TrimsWithin(cs, now, 1)
    ensures Filters(ExecuteAll(map[], cs), ids, now, online, at) <==> Filters(ExecuteAll(map[], NoTrims(cs)), ids, now, online, at)
  {
    forall i | 0 <= i < |ids| ensures TrimsUnseen(cs, ids[i], now) {
      TrimIsUnobservable(cs, ids[i], now);
    }
  }

  /** And there is only one such answer. */
  lemma OneAnswer(scores: map<string, nat>, ids: seq<Id>, now: nat, a: seq<Id>, at: seq<nat>, b: seq<Id>, bt: seq<nat>)
    requires Filters(scores, ids, now, a, at) && Filters(scores, ids, now, b, bt)
    ensures at == bt && a == b
  {
    SameRising(at, bt);
  }

  lemma HasElement(s: seq<nat>)
    ensures s != [] ==> exists i: nat :: i in s
  {
    if s != [] {
      assert s[0] in s;
    }
  }

  lemma {:induction false} SameRising(at: seq<nat>, bt: seq<nat>)
    requires (forall j, k :: 0 <= j < k < |at| ==> at[j] < at[k]) && (forall j, k :: 0 <= j < k < |bt| ==> bt[j] < bt[k])
    requires forall i: nat :: i in at <==> i in bt
    ensures at == bt
    decreases |at|
  {
    if at == [] {
      HasElement(bt);
    } else {
      assert at[|at| - 1] in bt && bt != [] && bt[|bt| - 1] in at;
      var x := at[|at| - 1];
      var init, jnit := at[..|at| - 1], bt[..|bt| - 1];
      forall i: nat ensures i in init <==> i in jnit {
        assert i in init <==> i in at && i != x;
        assert i in jnit <==> i in bt && i != x;
      }
      SameRising(init, jnit);
      assert at == init + [x] && bt == jnit + [x];
    }
  }

  lemma OneBeat(id: Id, node: string, at: nat)
    ensures ExecuteAll(map[], [Add(id, node, at)]) == map[Member(id, node) := Unix(at)]
    ensures NoTrims([Add(id, node, at)]) == [Add(id, node, at)]
  {
    assert [Add(id, node, at)][..0] == [];
  }

  lemma BeatThenTrim(id: Id, node: string, at: nat, trim: nat)
    ensures ExecuteAll(map[], [Add(id, node, at), Trim(trim)]) == Execute(map[Member(id, node) := Unix(at)], Trim(trim))
    ensures NoTrims([Add(id, node, at), Trim(trim)]) == [Add(id, node, at)]
  {
    OneBeat(id, node, at);
    assert [Add(id, node, at), Trim(trim)][..1] == [Add(id, node, at)];
  }

  /** A trim two seconds ahead takes away a user the reader would still count. */
  lemma TrimFromAheadHides(id: Id, node: string, at: nat) returns (now: nat, cs: seq<Command>)
    ensures now == at + 29_000 && TrimsWithin(cs, now, 2) && !TrimsUnseen(cs, id, now)
  {
    now, cs := at + 29_000, [Add(id, node, at), Trim(at + 31_000)];
    BeatThenTrim(id, node, at, at + 31_000);
    OneBeat(id, node, at);
    RoundTrip(id, node);
    assert Shows(ExecuteAll(map[], [Add(id, node, at)]), Member(id, node), id, now);
  }

  /** Whatever was written, no reader sees a trim, exactly as long as trims are at most one second ahead of readers. */
  lemma TrimLeadIsExact(now: nat, lead: nat)
    requires now >= 29_000
    ensures lead <= 1 <==> forall cs: seq<Command>, id: Id :: TrimsWithin(cs, now, lead) ==> TrimsUnseen(cs, id, now)
  {
    if lead <= 1 {
      forall cs: seq<Command>, id: Id | TrimsWithin(cs, now, lead) ensures TrimsUnseen(cs, id, now) {
        TrimIsUnobservable(cs, id, now);
      }
    } else {
      var t, cs := TrimFromAheadHides(0, "", now - 29_000);
      assert TrimsWithin(cs, now, lead);
    }
  }

  // ----- The set against the log of beats -----

  /** No later command overwrites this beat. */
  ghost predicate LastOfEntry(cs: seq<Command>, i: nat) {
    i < |cs| && cs[i].Add? && forall j :: i < j < |cs| && cs[j].Add? ==> Member(cs[j].id, cs[j].node) != Member(cs[i].id, cs[i].node)
  }

  predicate BeatOf(cs: seq<Command>, i: nat, id: Id, second: nat) {
    i < |cs| && cs[i].Add? && cs[i].id == id && Unix(cs[i].at) >= second
  }

  /** The beat counts for a reader at `now`. */
  predicate InWindow(cs: seq<Command>, i: nat, id: Id, now: nat) {
    i < |cs| && cs[i].Add? && cs[i].id == id && Unix(cs[i].at) > Unix(now) - TTL
  }

  /** Everything that was ever written down, without overwriting and without trimming. */
  ghost predicate OnlineByLog(cs: seq<Command>, id: Id, now: nat) {
    exists i: nat :: InWindow(cs, i, id, now)
  }

  /** What is left of that after overwriting. */
  ghost predicate OnlineByLast(cs: seq<Command>, id: Id, now: nat) {
    exists i: nat :: InWindow(cs, i, id, now) && LastOfEntry(cs, i)
  }

  ghost predicate Stems(cs: seq<Command>, m: string, score: nat) {
    exists i: nat :: LastOfEntry(cs, i) && m == Member(cs[i].id, cs[i].node) && score == Unix(cs[i].at)
  }

  ghost predicate Holds(full: map<string, nat>, c: Command) {
    c.Add? && Member(c.id, c.node) in full && full[Member(c.id, c.node)] == Unix(c.at)
  }

  ghost predicate HoldsLastBeats(cs: seq<Command>, full: map<string, nat>) {
    && (forall m :: m in full ==> Stems(cs, m, full[m]))
    && (forall i: nat :: LastOfEntry(cs, i) ==> Holds(full, cs[i]))
  }

  lemma LastOfMore(cs: seq<Command>, c: Command, i: nat)
    ensures i < |cs| ==> (LastOfEntry(cs + [c], i) <==>
                            LastOfEntry(cs, i) && !(c.Add? && Member(c.id, c.node) == Member(cs[i].id, cs[i].node)))
    ensures i == |cs| ==> (LastOfEntry(cs + [c], i) <==> c.Add?)
  {
    var cs' := cs + [c];
    assert forall j :: 0 <= j < |cs| ==> cs'[j] == cs[j];
    if i < |cs| && LastOfEntry(cs', i) {
      assert cs'[|cs|] == c;
      forall j | i < j < |cs| && cs[j].Add? ensures Member(cs[j].id, cs[j].node) != Member(cs[i].id, cs[i].node) {
        assert cs'[j] == cs[j];
      }
    }
  }

  /** Without trims the set holds the last beat of every entry, and nothing else. */
  lemma {:induction false} FullSetIsLastBeats(cs: seq<Command>)
    ensures HoldsLastBeats(cs, ExecuteAll(map[], NoTrims(cs)))
    decreases |cs|
  {
    if cs == [] {
    } else {
      var init, c := cs[..|cs| - 1], cs[|cs| - 1];
      FullSetIsLastBeats(init);
      assert cs == init + [c];
      var before, full := ExecuteAll(map[], NoTrims(init)), ExecuteAll(map[], NoTrims(cs));
      if c.Add? {
        ExecuteThen(NoTrims(init), c);
      } else {
        assert NoTrims(cs) == NoTrims(init);
      }
      forall i: nat | LastOfEntry(cs, i) ensures Holds(full, cs[i]) {
        LastOfMore(init, c, i);
      }
      forall m | m in full ensures Stems(cs, m, full[m]) {
        StemsMore(init, c, before, full, m);
      }
    }
  }

  lemma StemsMore(init: seq<Command>, c: Command, before: map<string, nat>, full: map<string, nat>, m: string)
    requires (m in before ==> Stems(init, m, before[m])) && m in full
    requires full == if c.Add? then before[Member(c.id, c.node) := Unix(c.at)] else before
    ensures Stems(init + [c], m, full[m])
  {
    if c.Add? && m == Member(c.id, c.node) {
      LastOfMore(init, c, |init|);
      assert (init + [c])[|init|] == c;
    } else {
      var i: nat :| LastOfEntry(init, i) && m == Member(init[i].id, init[i].node) && before[m] == Unix(init[i].at);
      LastOfMore(init, c, i);
      assert (init + [c])[i] == init[i];
    }
  }

  lemma SetShowsLastBeats(cs: seq<Command>, id: Id, now: nat)
    requires TrimsWithin(cs, now, 1)
    ensures OnlineIn(ExecuteAll(map[], cs), id, now) <==> OnlineByLast(cs, id, now)
  {
    var full := ExecuteAll(map[], NoTrims(cs));
    TrimIsUnobservable(cs, id, now);
    FullSetIsLastBeats(cs);
    if OnlineIn(full, id, now) {
      var m :| Shows(full, m, id, now);
      assert m in full && Stems(cs, m, full[m]);
      var i: nat :| LastOfEntry(cs, i) && m == Member(cs[i].id, cs[i].node) && full[m] == Unix(cs[i].at);
      RoundTrip(cs[i].id, cs[i].node);
      assert InWindow(cs, i, id, now);
    }
    if OnlineByLast(cs, id, now) {
      var i: nat :| InWindow(cs, i, id, now) && LastOfEntry(cs, i);
      assert Holds(full, cs[i]);
      RoundTrip(id, cs[i].node);
      assert Shows(full, Member(id, cs[i].node), id, now);
    }
  }

  ghost predicate AgreesAt(cs: seq<Command>, id: Id, now: nat) {
    OnlineIn(ExecuteAll(map[], cs), id, now) <==> OnlineByLog(cs, id, now)
  }

  ghost predicate AgreesFrom(cs: seq<Command>, id: Id, t0: nat) {
    forall now: nat :: now >= t0 ==> AgreesAt(cs, id, now)
  }

  ghost predicate CoveredBeat(cs: seq<Command>, id: Id, second: nat) {
    exists j: nat :: BeatOf(cs, j, id, second) && LastOfEntry(cs, j)
  }

  /** Every beat of the user that still counts at t0 has one at least as new, in seconds, that was not overwritten. */
  ghost predicate Covered(cs: seq<Command>, id: Id, t0: nat) {
    forall i: nat :: InWindow(cs, i, id, t0) ==> CoveredBeat(cs, id, Unix(cs[i].at))
  }

  /**
   * When the set and the full log of beats agree: from t0 on, with no more trims coming, they agree about a user at all
   * times if and only if no beat of the user that counts at t0 was lost to an older one written over it.
   */
  lemma AgreesIff(cs: seq<Command>, id: Id, t0: nat)
    requires TrimsWithin(cs, t0, 1)
    ensures AgreesFrom(cs, id, t0) <==> Covered(cs, id, t0)
  {
    if Covered(cs, id, t0) {
      forall now: nat | now >= t0 ensures AgreesAt(cs, id, now) {
        CoveredAgrees(cs, id, t0, now);
      }
    }
    if AgreesFrom(cs, id, t0) {
      forall i: nat | InWindow(cs, i, id, t0) ensures CoveredBeat(cs, id, Unix(cs[i].at)) {
        // The last second in which the beat counts.
        var now := 1000 * (Unix(cs[i].at) + TTL - 1) + 999;
        assert Unix(now) == Unix(cs[i].at) + TTL - 1;
        SetShowsLastBeats(cs, id, now);
        assert AgreesAt(cs, id, now) && InWindow(cs, i, id, now);
        var j: nat :| InWindow(cs, j, id, now) && LastOfEntry(cs, j);
        assert BeatOf(cs, j, id, Unix(cs[i].at));
      }
    }
  }

  lemma CoveredAgrees(cs: seq<Command>, id: Id, t0: nat, now: nat)
    requires TrimsWithin(cs, t0, 1) && Covered(cs, id, t0) && now >= t0
    ensures AgreesAt(cs, id, now)
  {
    SetShowsLastBeats(cs, id, now);
    if OnlineByLog(cs, id, now) {
      var i: nat :| InWindow(cs, i, id, now);
      assert InWindow(cs, i, id, t0) && CoveredBeat(cs, id, Unix(cs[i].at));
      var j: nat :| BeatOf(cs, j, id, Unix(cs[i].at)) && LastOfEntry(cs, j);
      assert InWindow(cs, j, id, now);
    }
  }

  /** The beats of one entry, one user on one node, are written in the order of their seconds. */
  ghost predicate InOrderPerMember(cs: seq<Command>) {
    forall i, j :: 0 <= i < j < |cs| && cs[i].Add? && cs[j].Add? && Member(cs[i].id, cs[i].node) == Member(cs[j].id, cs[j].node) ==>
      Unix(cs[i].at) <= Unix(cs[j].at)
  }

  lemma {:induction false} LastExists(cs: seq<Command>, i: nat) returns (j: nat)
    requires i < |cs| && cs[i].Add?
    ensures i <= j < |cs| && LastOfEntry(cs, j) && Member(cs[j].id, cs[j].node) == Member(cs[i].id, cs[i].node)
    decreases |cs| - i
  {
    if LastOfEntry(cs, i) {
      j := i;
    } else {
      var k :| i < k < |cs| && cs[k].Add? && Member(cs[k].id, cs[k].node) == Member(cs[i].id, cs[i].node);
      j := LastExists(cs, k);
    }
  }

  /** With the beats of each entry in order, which one node with one clock provides, set and log always agree. */
  lemma InOrderAgrees(cs: seq<Command>, id: Id, t0: nat)
    requires InOrderPerMember(cs) && TrimsWithin(cs, t0, 1)
    ensures AgreesFrom(cs, id, t0)
  {
    forall i: nat | InWindow(cs, i, id, t0) ensures CoveredBeat(cs, id, Unix(cs[i].at)) {
      var j := LastExists(cs, i);
      MembersAreDistinct(cs[i].id, cs[i].node, cs[j].id, cs[j].node);
      assert BeatOf(cs, j, id, Unix(cs[i].at));
    }
    AgreesIff(cs, id, t0);
  }

  /** A newer beat executed before an older one of the same entry is lost: the user goes offline early. */
  lemma OverwrittenBeatIsLost(id: Id, node: string, late: nat, early: nat)
    requires Unix(early) < Unix(late)
    ensures !AgreesFrom([Add(id, node, late), Add(id, node, early)], id, late)
  {
    var cs := [Add(id, node, late), Add(id, node, early)];
    assert InWindow(cs, 0, id, late) && !LastOfEntry(cs, 0) by {
      assert cs[1].Add?;
    }
    assert !CoveredBeat(cs, id, Unix(late));
    AgreesIff(cs, id, late);
  }

  /** After a trim nothing older than the window is stored, whoever wrote it. */
  lemma TrimLeavesOnlyTheWindow(cs: seq<Command>, at: nat, m: string)
    requires m in ExecuteAll(map[], cs + [Trim(at)])
    ensures ExecuteAll(map[], cs + [Trim(at)])[m] >= Unix(at) - TTL
  {
    assert (cs + [Trim(at)])[..|cs|] == cs;
  }

  // ----- How long a beat lasts -----

  const HEARTBEAT := 10_000

  /** One beat keeps its user online for at least 29 seconds and for less than 30. */
  lemma BeatLasts(id: Id, node: string, at: nat, now: nat)
    requires at <= now
    ensures now - at <= 29_000 ==> OnlineIn(ExecuteAll(map[], [Add(id, node, at)]), id, now)
    ensures now - at >= 30_000 ==> !OnlineIn(ExecuteAll(map[], [Add(id, node, at)]), id, now)
  {
    var cs := [Add(id, node, at)];
    InOrderAgrees(cs, id, now);
    assert AgreesAt(cs, id, now);
    assert now - at <= 29_000 ==> InWindow(cs, 0, id, now);
  }

  predicate BeatCounts(at: nat, now: nat) {
    Unix(at) > Unix(now) - TTL
  }

  /** One missed beat never shows: the next but one comes well before the entry runs out. */
  lemma OneMissedBeatIsHidden(at: nat, now: nat)
    requires at <= now <= at + 2 * HEARTBEAT
    ensures BeatCounts(at, now)
  {
  }

  /** Two missed beats in a row do show, just before the third is due, unless beats fall on whole seconds. */
  lemma TwoMissedBeatsShowIff(at: nat)
    ensures (exists now :: at <= now < at + 3 * HEARTBEAT && !BeatCounts(at, now)) <==> at % 1000 != 0
  {
    if at % 1000 != 0 {
      var now := at + 3 * HEARTBEAT - 1;
      assert !BeatCounts(at, now);
    }
  }
}
