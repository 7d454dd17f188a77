// The WebSocket hub: one goroutine owns the map of sockets and their bounded send queues, and a reader that falls
// behind is dropped, never skipped.

module Hub {

  const SEND_BUFFER := 16

  /** One fan-out for one user. */
  datatype Offer = Offer(user: nat, payload: string)

  datatype Envelope = Envelope(users: seq<nat>, payload: string)

  /**
   * A socket's send channel: what waits in it and how often it was closed. History: `written` is what its writer
   * took, `since` and `until` are the hub's position when the socket came and went, `slow` that it was dropped.
   */
  datatype Socket = Socket(
    user: nat, queue: seq<string>, closed: nat, written: seq<string>, since: nat, until: nat, slow: bool)

  /** `offers` is a history variable: every fan-out the hub took from its queue, user by user. */
  datatype State = State(
    clients: map<nat, set<nat>>, sockets: map<nat, Socket>, open: int, sent: nat, dropped: nat, offers: seq<Offer>)

  /** Everything ever queued on the socket. */
  function Frames(k: Socket): seq<string> {
    k.written + k.queue
  }

  function SocketsOf(clients: map<nat, set<nat>>, user: nat): set<nat> {
    if user in clients then clients[user] else {}
  }

  predicate Live(s: State, id: nat) {
    id in s.sockets && id in SocketsOf(s.clients, s.sockets[id].user)
  }

  /** A user without sockets has no entry. */
  function Without(clients: map<nat, set<nat>>, user: nat, ids: set<nat>): map<nat, set<nat>> {
    if user !in clients then clients
    else if clients[user] - ids == {} then clients - {user} else clients[user := clients[user] - ids]
  }

  function Pushed(k: Socket, payload: string): Socket {
    k.(queue := k.queue + [payload])
  }

  function Gone(k: Socket, at: nat, slow: bool): Socket {
    k.(closed := k.closed + 1, until := at, slow := slow)
  }

  predicate Full(k: Socket) {
    |k.queue| >= SEND_BUFFER
  }

  function Add(s: State, id: nat, user: nat): State {
    s.(clients := s.clients[user := SocketsOf(s.clients, user) + {id}],
       sockets := s.sockets[id := Socket(user, [], 0, [], |s.offers|, 0, false)], open := s.open + 1)
  }

  function Remove(s: State, id: nat, slow: bool): State {
    if !Live(s, id) then s
    else s.(clients := Without(s.clients, s.sockets[id].user, {id}),
            sockets := s.sockets[id := Gone(s.sockets[id], |s.offers|, slow)], open := s.open - 1)
  }

  function FullOf(sockets: map<nat, Socket>, ids: set<nat>): set<nat> {
    set id | id in ids && id in sockets && Full(sockets[id])
  }

  function AfterOffer(k: Socket, at: nat, payload: string): Socket {
    if Full(k) then Gone(k, at, true) else Pushed(k, payload)
  }

  /** The sockets `ids` of one user get the payload, all at once: queued where there is room, dropped where not. */
  function OfferTo(s: State, user: nat, payload: string, ids: set<nat>): State {
    var full := FullOf(s.sockets, ids);
    s.(clients := Without(s.clients, user, full),
       sockets := map id | id in s.sockets :: if id in ids then AfterOffer(s.sockets[id], |s.offers|, payload) else s.sockets[id],
       open := s.open - |full|, sent := s.sent + |ids - full|, dropped := s.dropped + |full|)
  }

  function OfferUser(s: State, user: nat, payload: string): State {
    OfferTo(s, user, payload, SocketsOf(s.clients, user)).(offers := s.offers + [Offer(user, payload)])
  }

  function Deliver(s: State, users: seq<nat>, payload: string): State
    decreases |users|
  {
    if users == [] then s
    else OfferUser(Deliver(s, users[..|users| - 1], payload), users[|users| - 1], payload)
  }

  function AllLive(s: State): set<nat> {
    set id | id in s.sockets && Live(s, id)
  }

  function CloseThese(s: State, ids: set<nat>): map<nat, Socket> {
    map id | id in s.sockets :: if id in ids then Gone(s.sockets[id], |s.offers|, false) else s.sockets[id]
  }

  function CloseAll(s: State): State {
    s.(clients := map[], sockets := CloseThese(s, AllLive(s)), open := s.open - |AllLive(s)|)
  }

  /** The socket's writer takes the oldest frame; a closed channel still hands out what waits in it. */
  function Pump(s: State, id: nat): State {
    if id in s.sockets && s.sockets[id].queue != []
    then var k := s.sockets[id]; s.(sockets := s.sockets[id := k.(queue := k.queue[1..], written := k.written + [k.queue[0]])])
    else s
  }

  datatype Label =
    | Register(id: nat, user: nat)
    | Unregister(id: nat)
    | Broadcast(e: Envelope)
    | Shutdown
    | Write(id: nat)

  /** A connection is registered once. */
  predicate Enabled(s: State, l: Label) {
    l.Register? ==> l.id !in s.sockets
  }

  function Do(s: State, l: Label): State {
    match l
    case Register(id, user) => Add(s, id, user)
    case Unregister(id) => Remove(s, id, false)
    case Broadcast(e) => Deliver(s, e.users, e.payload)
    case Shutdown => CloseAll(s)
    case Write(id) => Pump(s, id)
  }

  const EMPTY := State(map[], map[], 0, 0, 0, [])

  // ----- What every run keeps -----

  /** The payloads for one user among offers[lo..hi], in order. */
  function ForUser(offers: seq<Offer>, lo: nat, hi: nat, user: nat): seq<string>
    requires hi <= |offers|
    decreases hi
  {
    if hi <= lo then []
    else
      ForUser(offers, lo, hi - 1, user) + if offers[hi - 1].user == user then [offers[hi - 1].payload] else []
  }

  lemma {:induction false} ForUserStable(offers: seq<Offer>, o: Offer, lo: nat, hi: nat, user: nat)
    requires hi <= |offers|
    ensures ForUser(offers + [o], lo, hi, user) == ForUser(offers, lo, hi, user)
    decreases hi
  {
    if hi <= lo {
    } else {
      ForUserStable(offers, o, lo, hi - 1, user);
    }
  }

  /** A live socket has had every fan-out for its user since it came; one that left, every one until then. */
  ghost predicate SocketOk(offers: seq<Offer>, live: bool, k: Socket) {
    var end := if live then |offers| else k.until;
    && k.since <= end <= |offers| && |k.queue| <= SEND_BUFFER && k.closed == (if live then 0 else 1)
    && Frames(k) == ForUser(offers, k.since, end, k.user)
    && (k.slow ==> !live && end < |offers| && offers[end].user == k.user)
  }

  ghost predicate SocketsOk(s: State) {
    forall id :: id in s.sockets ==> SocketOk(s.offers, Live(s, id), s.sockets[id])
  }

  /** The map holds registered sockets only, under their own user, and no user without sockets. */
  ghost predicate MapOk(clients: map<nat, set<nat>>, sockets: map<nat, Socket>) {
    forall u :: u in clients ==> clients[u] != {} && forall id :: id in clients[u] ==> id in sockets && sockets[id].user == u
  }

  /** The sockets that were dropped for being slow. */
  ghost function Slow(sockets: map<nat, Socket>): set<nat> {
    set id | id in sockets && sockets[id].slow
  }

  ghost predicate DroppedOk(s: State) {
    s.dropped == |Slow(s.sockets)|
  }

  ghost predicate Inv(s: State) {
    MapOk(s.clients, s.sockets) && s.open == |AllLive(s)| && DroppedOk(s) && SocketsOk(s)
  }

  lemma OtherSocketGrows(offers: seq<Offer>, o: Offer, live: bool, k: Socket)
    requires SocketOk(offers, live, k) && (live ==> o.user != k.user)
    ensures SocketOk(offers + [o], live, k)
  {
    ForUserStable(offers, o, k.since, if live then |offers| else k.until, k.user);
  }

  lemma OfferedSocketOk(offers: seq<Offer>, payload: string, k: Socket)
    requires SocketOk(offers, true, k)
    ensures SocketOk(offers + [Offer(k.user, payload)], !Full(k), AfterOffer(k, |offers|, payload))
  {
    ForUserStable(offers, Offer(k.user, payload), k.since, |offers|, k.user);
    assert k.written + (k.queue + [payload]) == Frames(k) + [payload];
  }

  lemma OfferLiveness(s: State, user: nat, payload: string, id: nat)
    requires MapOk(s.clients, s.sockets) && id in s.sockets
    ensures Live(OfferUser(s, user, payload), id) <==>
              Live(s, id) && !(id in SocketsOf(s.clients, user) && Full(s.sockets[id]))
  {
  }

  lemma OfferKeepsMap(s: State, user: nat, payload: string)
    requires MapOk(s.clients, s.sockets)
    ensures MapOk(OfferUser(s, user, payload).clients, OfferUser(s, user, payload).sockets)
  {
    var s' := OfferUser(s, user, payload);
    forall u, id | u in s'.clients && id in s'.clients[u] ensures id in s'.sockets && s'.sockets[id].user == u {
      assert id in s.clients[u];
    }
  }

  /** The number of live sockets, when exactly `gone` of them left. */
  lemma FewerLive(s: State, s': State, gone: set<nat>)
    requires gone <= AllLive(s) && forall id :: Live(s', id) <==> Live(s, id) && id !in gone
    ensures |AllLive(s')| == |AllLive(s)| - |gone|
  {
    assert AllLive(s') == AllLive(s) - gone;
  }

  lemma OfferKeepsOpen(s: State, user: nat, payload: string)
    requires MapOk(s.clients, s.sockets) && s.open == |AllLive(s)|
    ensures OfferUser(s, user, payload).open == |AllLive(OfferUser(s, user, payload))|
  {
    var s' := OfferUser(s, user, payload);
    var full := FullOf(s.sockets, SocketsOf(s.clients, user));
    forall id ensures Live(s', id) <==> Live(s, id) && id !in full {
      if id in s.sockets {
        OfferLiveness(s, user, payload, id);
      }
    }
    assert forall id :: id in full ==> s.sockets[id].user == user;
    FewerLive(s, s', full);
  }

  lemma NoneSlow(s: State, ids: set<nat>)
    requires SocketsOk(s) && forall id :: id in ids ==> Live(s, id)
    ensures forall id :: id in ids ==> id in s.sockets && !s.sockets[id].slow
  {
    forall id | id in ids ensures !s.sockets[id].slow {
      assert SocketOk(s.offers, Live(s, id), s.sockets[id]);
    }
  }

  lemma OfferKeepsDropped(s: State, user: nat, payload: string)
    requires DroppedOk(s) && forall id :: id in SocketsOf(s.clients, user) ==> id in s.sockets && !s.sockets[id].slow
    ensures DroppedOk(OfferUser(s, user, payload))
  {
    var full := FullOf(s.sockets, SocketsOf(s.clients, user));
    assert Slow(OfferUser(s, user, payload).sockets) == Slow(s.sockets) + full;
  }

  /** A step that drops nobody. */
  lemma NoneDropped(s: State, s': State)
    requires DroppedOk(s) && s'.dropped == s.dropped
    requires forall id :: id in s'.sockets && s'.sockets[id].slow <==> id in s.sockets && s.sockets[id].slow
    ensures DroppedOk(s')
  {
    assert Slow(s'.sockets) == Slow(s.sockets);
  }

  lemma RemoveKeepsDropped(s: State, id: nat)
    requires DroppedOk(s) && (Live(s, id) ==> !s.sockets[id].slow)
    ensures DroppedOk(Remove(s, id, false))
  {
    NoneDropped(s, Remove(s, id, false));
  }

  lemma PumpKeepsDropped(s: State, id: nat)
    requires DroppedOk(s)
    ensures DroppedOk(Pump(s, id))
  {
    NoneDropped(s, Pump(s, id));
  }

  lemma AddKeepsDropped(s: State, id: nat, user: nat)
    requires DroppedOk(s) && id !in s.sockets
    ensures DroppedOk(Add(s, id, user))
  {
    NoneDropped(s, Add(s, id, user));
  }

  lemma CloseAllKeepsDropped(s: State)
    requires DroppedOk(s) && forall id :: id in AllLive(s) ==> id in s.sockets && !s.sockets[id].slow
    ensures DroppedOk(CloseAll(s))
  {
    NoneDropped(s, CloseAll(s));
  }

  lemma OfferKeepsInv(s: State, user: nat, payload: string)
    requires Inv(s)
    ensures Inv(OfferUser(s, user, payload))
  {
    var s' := OfferUser(s, user, payload);
    OfferKeepsMap(s, user, payload);
    OfferKeepsOpen(s, user, payload);
    NoneSlow(s, SocketsOf(s.clients, user));
    OfferKeepsDropped(s, user, payload);
    forall id | id in s'.sockets ensures SocketOk(s'.offers, Live(s', id), s'.sockets[id]) {
      OfferLiveness(s, user, payload, id);
      if id in SocketsOf(s.clients, user) {
        OfferedSocketOk(s.offers, payload, s.sockets[id]);
      } else {
        OtherSocketGrows(s.offers, Offer(user, payload), Live(s, id), s.sockets[id]);
      }
    }
  }

  lemma {:induction false} DeliverKeepsInv(s: State, users: seq<nat>, payload: string)
    requires Inv(s)
    ensures Inv(Deliver(s, users, payload))
    decreases |users|
  {
    if users == [] {
    } else {
      DeliverKeepsInv(s, users[..|users| - 1], payload);
      OfferKeepsInv(Deliver(s, users[..|users| - 1], payload), users[|users| - 1], payload);
    }
  }

  lemma AddLiveness(s: State, id: nat, user: nat, x: nat)
    requires MapOk(s.clients, s.sockets) && id !in s.sockets
    ensures Live(Add(s, id, user), x) <==> x == id || Live(s, x)
  {
  }

  lemma AddKeepsInv(s: State, id: nat, user: nat)
    requires Inv(s) && id !in s.sockets
    ensures Inv(Add(s, id, user))
  {
    var s' := Add(s, id, user);
    forall x ensures Live(s', x) <==> x == id || Live(s, x) {
      AddLiveness(s, id, user, x);
    }
    FewerLive(s', s, {id});
    AddKeepsDropped(s, id, user);
    forall x | x in s'.sockets ensures SocketOk(s'.offers, Live(s', x), s'.sockets[x]) {
      assert x != id ==> SocketOk(s.offers, Live(s, x), s.sockets[x]);
    }
    AddKeepsMap(s, id, user);
  }

  lemma AddKeepsMap(s: State, id: nat, user: nat)
    requires MapOk(s.clients, s.sockets) && id !in s.sockets
    ensures MapOk(Add(s, id, user).clients, Add(s, id, user).sockets)
  {
    var s' := Add(s, id, user);
    forall u, x | u in s'.clients && x in s'.clients[u] ensures x in s'.sockets && s'.sockets[x].user == u {
      assert x == id || x in s.clients[u];
    }
  }

  lemma RemoveLiveness(s: State, id: nat, x: nat)
    requires MapOk(s.clients, s.sockets) && Live(s, id)
    ensures Live(Remove(s, id, false), x) <==> x != id && Live(s, x)
  {
  }

  lemma RemoveKeepsMap(s: State, id: nat)
    requires MapOk(s.clients, s.sockets)
    ensures MapOk(Remove(s, id, false).clients, Remove(s, id, false).sockets)
  {
    var s' := Remove(s, id, false);
    forall u, x | u in s'.clients && x in s'.clients[u] ensures x in s'.sockets && s'.sockets[x].user == u {
      assert x in s.clients[u];
    }
  }

  lemma RemoveKeepsInv(s: State, id: nat)
    requires Inv(s)
    ensures Inv(Remove(s, id, false))
  {
    var s' := Remove(s, id, false);
    RemoveKeepsMap(s, id);
    if Live(s, id) {
      forall x ensures Live(s', x) <==> x != id && Live(s, x) {
        RemoveLiveness(s, id, x);
      }
      FewerLive(s, s', {id});
      NoneSlow(s, {id});
      RemoveKeepsDropped(s, id);
      forall x | x in s'.sockets ensures SocketOk(s'.offers, Live(s', x), s'.sockets[x]) {
        assert SocketOk(s.offers, Live(s, x), s.sockets[x]);
      }
    }
  }

  lemma CloseAllKeepsInv(s: State)
    requires Inv(s)
    ensures Inv(CloseAll(s))
  {
    var s' := CloseAll(s);
    assert AllLive(s') == {};
    NoneSlow(s, AllLive(s));
    CloseAllKeepsDropped(s);
    forall x | x in s'.sockets ensures SocketOk(s'.offers, Live(s', x), s'.sockets[x]) {
      assert SocketOk(s.offers, Live(s, x), s.sockets[x]);
    }
  }

  lemma PumpedSocketOk(offers: seq<Offer>, live: bool, k: Socket)
    requires SocketOk(offers, live, k) && k.queue != []
    ensures SocketOk(offers, live, k.(queue := k.queue[1..], written := k.written + [k.queue[0]]))
  {
    assert k.written + [k.queue[0]] + k.queue[1..] == Frames(k);
  }

  lemma PumpLiveness(s: State, id: nat, x: nat)
    ensures Live(Pump(s, id), x) <==> Live(s, x)
  {
  }

  lemma PumpKeepsInv(s: State, id: nat)
    requires Inv(s)
    ensures Inv(Pump(s, id))
  {
    var s' := Pump(s, id);
    forall x ensures Live(s', x) <==> Live(s, x) {
      PumpLiveness(s, id, x);
    }
    FewerLive(s, s', {});
    PumpKeepsDropped(s, id);
    PumpKeepsSockets(s, id);
  }

  lemma PumpKeepsSockets(s: State, id: nat)
    requires SocketsOk(s)
    ensures SocketsOk(Pump(s, id))
  {
    var s' := Pump(s, id);
    forall x | x in s'.sockets ensures SocketOk(s'.offers, Live(s', x), s'.sockets[x]) {
      PumpLiveness(s, id, x);
      assert SocketOk(s.offers, Live(s, x), s.sockets[x]);
      if x == id && s.sockets[x].queue != [] {
        PumpedSocketOk(s.offers, Live(s, x), s.sockets[x]);
      }
    }
  }

  ghost predicate CanRun(s: State, ls: seq<Label>)
    decreases |ls|
  {
    ls == [] || (Enabled(s, ls[0]) && CanRun(Do(s, ls[0]), ls[1..]))
  }

  ghost function Run(s: State, ls: seq<Label>): State
    decreases |ls|
  {
    if ls == [] then s else Run(Do(s, ls[0]), ls[1..])
  }

  lemma StepKeepsInv(s: State, l: Label)
    requires Inv(s) && Enabled(s, l)
    ensures Inv(Do(s, l))
  {
    match l
    case Register(id, user) => AddKeepsInv(s, id, user);
    case Unregister(id) => RemoveKeepsInv(s, id);
    case Broadcast(e) => DeliverKeepsInv(s, e.users, e.payload);
    case Shutdown => CloseAllKeepsInv(s);
    case Write(id) => PumpKeepsInv(s, id);
  }

  lemma StartIsConsistent()
    ensures Inv(EMPTY)
  {
  }

  lemma {:induction false} RunKeepsInv(s: State, ls: seq<Label>)
    requires Inv(s) && CanRun(s, ls)
    ensures Inv(Run(s, ls))
    decreases |ls|
  {
    if ls == [] {
    } else {
      StepKeepsInv(s, ls[0]);
      RunKeepsInv(Do(s, ls[0]), ls[1..]);
    }
  }

  ghost predicate Reachable(s: State) {
    exists ls :: CanRun(EMPTY, ls) && Run(EMPTY, ls) == s
  }

  lemma {:induction false} RunThen(s: State, ls: seq<Label>, l: Label)
    requires CanRun(s, ls) && Enabled(Run(s, ls), l)
    ensures CanRun(s, ls + [l]) && Run(s, ls + [l]) == Do(Run(s, ls), l)
    decreases |ls|
  {
    if ls == [] {
      assert CanRun(Do(s, l), []);
    } else {
      assert (ls + [l])[1..] == ls[1..] + [l];
      RunThen(Do(s, ls[0]), ls[1..], l);
    }
  }

  lemma ReachableThen(s: State, l: Label)
    requires Reachable(s) && Enabled(s, l)
    ensures Reachable(Do(s, l))
  {
    var ls :| CanRun(EMPTY, ls) && Run(EMPTY, ls) == s;
    RunThen(EMPTY, ls, l);
  }

  lemma ReachableIsConsistent(s: State)
    requires Reachable(s)
    ensures Inv(s)
  {
    var ls :| CanRun(EMPTY, ls) && Run(EMPTY, ls) == s;
    RunKeepsInv(EMPTY, ls);
  }

  /**
   * Drop, never skip: in every run, the frames ever queued on a socket are exactly the fan-outs for its user, in the
   * order the hub took them, from the moment it was added to now or to its removal; a socket dropped for being slow
   * misses first the fan-out that overflowed it.
   */
  lemma DropNeverSkip(ls: seq<Label>, id: nat)
    requires CanRun(EMPTY, ls) && id in Run(EMPTY, ls).sockets
    ensures var s := Run(EMPTY, ls); var k := s.sockets[id]; var end := if Live(s, id) then |s.offers| else k.until;
            && k.since <= end <= |s.offers| && Frames(k) == ForUser(s.offers, k.since, end, k.user)
            && (k.slow ==> !Live(s, id) && end < |s.offers| && s.offers[end].user == k.user)
  {
    RunKeepsInv(EMPTY, ls);
  }

  /**
   * Each send channel is closed at most once, exactly when its socket leaves the map; `open` counts the map and
   * `dropped` the sockets that were too slow.
   */
  lemma ClosedOnce(ls: seq<Label>, id: nat)
    requires CanRun(EMPTY, ls) && id in Run(EMPTY, ls).sockets
    ensures var s := Run(EMPTY, ls);
            && s.sockets[id].closed == (if Live(s, id) then 0 else 1) && |s.sockets[id].queue| <= SEND_BUFFER
            && s.open == |AllLive(s)| && s.dropped == |Slow(s.sockets)|
  {
    RunKeepsInv(EMPTY, ls);
  }

  // ----- Who is dropped -----

  /** How often the list names the user. */
  function Mentions(users: seq<nat>, user: nat): nat {
    multiset(users)[user]
  }

  function Copies(payload: string, n: nat): seq<string> {
    seq(n, i requires 0 <= i < n => payload)
  }

  /** One fan-out for one user: nothing for the others, one more frame where there is room, the end where 16 wait. */
  lemma OfferOutcome(s: State, user: nat, payload: string, id: nat)
    requires Inv(s) && Live(s, id)
    ensures var s' := OfferUser(s, user, payload); var k := s.sockets[id];
            && id in s'.sockets
            && (Live(s', id) <==> k.user != user || |k.queue| < 16)
            && (k.user != user ==> s'.sockets[id] == k)
            && (k.user == user && |k.queue| < 16 ==> s'.sockets[id] == k.(queue := k.queue + [payload]))
            && (k.user == user && |k.queue| >= 16 ==> s'.sockets[id] == k.(closed := k.closed + 1, until := |s.offers|, slow := true))
  {
    OfferLiveness(s, user, payload, id);
  }

  lemma GoneStaysGone(s: State, user: nat, payload: string, id: nat)
    requires Inv(s) && id in s.sockets && !Live(s, id)
    ensures var s' := OfferUser(s, user, payload); id in s'.sockets && !Live(s', id) && s'.sockets[id] == s.sockets[id]
  {
    OfferLiveness(s, user, payload, id);
  }

  /** What becomes of a live socket that is mentioned n times: `k'` is its record afterwards. */
  predicate Outcome(k: Socket, n: nat, payload: string, live: bool, k': Socket) {
    && k'.user == k.user && k'.written == k.written
    && (live <==> |k.queue| + n <= 16)
    && (live ==> k'.queue == k.queue + Copies(payload, n) && k'.closed == k.closed && !k'.slow)
    && (!live ==> |k.queue| <= 16 && k'.queue == k.queue + Copies(payload, 16 - |k.queue|) && k'.closed == k.closed + 1 && k'.slow)
  }

  lemma CopiesMore(queue: seq<string>, payload: string, n: nat)
    ensures queue + Copies(payload, n) + [payload] == queue + Copies(payload, n + 1)
  {
  }

  lemma Mentioned(users: seq<nat>, user: nat)
    requires users != []
    ensures Mentions(users, user) == Mentions(users[..|users| - 1], user) + if users[|users| - 1] == user then 1 else 0
  {
    assert users == users[..|users| - 1] + [users[|users| - 1]];
  }

  /** One more fan-out for a socket that is still live. */
  lemma OutcomeMore(k: Socket, n: nat, payload: string, k1: Socket, mentioned: bool, at: nat, live: bool, k2: Socket)
    requires Outcome(k, n, payload, true, k1) && (live <==> !mentioned || |k1.queue| < 16)
    requires if !mentioned then k2 == k1
             else if |k1.queue| < 16 then k2 == k1.(queue := k1.queue + [payload])
             else k2 == k1.(closed := k1.closed + 1, until := at, slow := true)
    ensures Outcome(k, n + if mentioned then 1 else 0, payload, live, k2)
  {
    CopiesMore(k.queue, payload, n);
  }

  lemma OutcomeOfNone(s: State, payload: string, id: nat)
    requires Inv(s) && Live(s, id)
    ensures Outcome(s.sockets[id], 0, payload, true, s.sockets[id])
  {
    NoneSlow(s, {id});
    assert SocketOk(s.offers, true, s.sockets[id]);
    assert s.sockets[id].queue + Copies(payload, 0) == s.sockets[id].queue;
  }

  /** A socket already gone: the mentions to come do not matter. */
  lemma OutcomeStays(k: Socket, n: nat, more: nat, payload: string, k1: Socket)
    requires Outcome(k, n, payload, false, k1)
    ensures Outcome(k, n + more, payload, false, k1)
  {
  }

  lemma {:induction false} DeliverOutcome(s: State, users: seq<nat>, payload: string, id: nat)
    requires Inv(s) && Live(s, id)
    ensures var s' := Deliver(s, users, payload);
            id in s'.sockets && Outcome(s.sockets[id], Mentions(users, s.sockets[id].user), payload, Live(s', id), s'.sockets[id])
    decreases |users|
  {
    if users == [] {
      OutcomeOfNone(s, payload, id);
    } else {
      var k, init, user := s.sockets[id], users[..|users| - 1], users[|users| - 1];
      var t := Deliver(s, init, payload);
      DeliverOutcome(s, init, payload, id);
      DeliverKeepsInv(s, init, payload);
      Mentioned(users, k.user);
      if Live(t, id) {
        OfferOutcome(t, user, payload, id);
        var s' := OfferUser(t, user, payload);
        OutcomeMore(k, Mentions(init, k.user), payload, t.sockets[id], user == k.user, |t.offers|, Live(s', id), s'.sockets[id]);
      } else {
        GoneStaysGone(t, user, payload, id);
        OutcomeStays(k, Mentions(init, k.user), if user == k.user then 1 else 0, payload, t.sockets[id]);
      }
    }
  }

  /**
   * From every reachable state, a fan-out leaves a live socket of a mentioned user live, with one frame more for each
   * mention, exactly when they all fit into the 16 places of its channel; otherwise the socket is closed and leaves the
   * map, with 16 frames still waiting. A user who is not mentioned notices nothing.
   */
  lemma DroppedIffFull(s: State, e: Envelope, id: nat)
    requires Reachable(s) && Live(s, id)
    ensures var s' := Do(s, Label.Broadcast(e)); var k := s.sockets[id]; var n := Mentions(e.users, k.user);
            && id in s'.sockets && (Live(s', id) <==> |k.queue| + n <= 16)
            && (Live(s', id) ==> s'.sockets[id].queue == k.queue + seq(n, i requires 0 <= i < n => e.payload))
            && (!Live(s', id) ==> s'.sockets[id].slow && |s'.sockets[id].queue| == 16 && k.queue <= s'.sockets[id].queue)
  {
    ReachableIsConsistent(s);
    DeliverOutcome(s, e.users, e.payload, id);
  }

  lemma {:induction false} LastStep(s: State, ls: seq<Label>)
    requires CanRun(s, ls) && ls != []
    ensures var init, l := ls[..|ls| - 1], ls[|ls| - 1];
            CanRun(s, init) && Enabled(Run(s, init), l) && Run(s, ls) == Do(Run(s, init), l)
    decreases |ls|
  {
    if |ls| == 1 {
      assert CanRun(Do(s, ls[0]), []) && ls[..0] == [];
    } else {
      var rest := ls[1..];
      LastStep(Do(s, ls[0]), rest);
      assert ls[..|ls| - 1] == [ls[0]] + rest[..|rest| - 1];
    }
  }

  lemma SlowOnlyByOffer(s: State, l: Label, id: nat)
    requires Inv(s) && Enabled(s, l) && id in Do(s, l).sockets && Do(s, l).sockets[id].slow
    requires id in s.sockets ==> !s.sockets[id].slow
    ensures l.Broadcast? && Live(s, id) && !Live(Do(s, l), id) && |Do(s, l).sockets[id].queue| == 16
  {
    assert id in s.sockets && !Live(s, id) ==> SocketOk(s.offers, false, s.sockets[id]);
    if l.Broadcast? {
      DeliverKeepsSockets(s, l.e.users, l.e.payload, id);
      if Live(s, id) {
        DeliverOutcome(s, l.e.users, l.e.payload, id);
      }
    }
  }

  lemma {:induction false} DeliverKeepsSockets(s: State, users: seq<nat>, payload: string, id: nat)
    requires Inv(s)
    ensures id in Deliver(s, users, payload).sockets <==> id in s.sockets
    ensures id in s.sockets && !Live(s, id) ==>
              !Live(Deliver(s, users, payload), id) && Deliver(s, users, payload).sockets[id] == s.sockets[id]
    decreases |users|
  {
    if users == [] {
    } else {
      DeliverKeepsSockets(s, users[..|users| - 1], payload, id);
      DeliverKeepsInv(s, users[..|users| - 1], payload);
      if id in s.sockets && !Live(s, id) {
        GoneStaysGone(Deliver(s, users[..|users| - 1], payload), users[|users| - 1], payload, id);
      }
    }
  }

  /** The fan-out of step k drops the socket, with all 16 places of its channel taken. */
  ghost predicate DropsFull(ls: seq<Label>, k: nat, id: nat)
    requires CanRun(EMPTY, ls)
  {
    && k < |ls| && ls[k].Broadcast? && CanRun(EMPTY, ls[..k]) && CanRun(EMPTY, ls[..k + 1])
    && Live(Run(EMPTY, ls[..k]), id) && !Live(Run(EMPTY, ls[..k + 1]), id)
    && id in Run(EMPTY, ls[..k + 1]).sockets && |Run(EMPTY, ls[..k + 1]).sockets[id].queue| == 16
  }

  lemma DropsNow(ls: seq<Label>, id: nat)
    requires CanRun(EMPTY, ls) && ls != [] && CanRun(EMPTY, ls[..|ls| - 1])
    requires var l, s, s' := ls[|ls| - 1], Run(EMPTY, ls[..|ls| - 1]), Run(EMPTY, ls);
             l.Broadcast? && Live(s, id) && !Live(s', id) && id in s'.sockets && |s'.sockets[id].queue| == 16
    ensures DropsFull(ls, |ls| - 1, id)
  {
    assert ls[..|ls|] == ls;
  }

  lemma SlowNow(ls: seq<Label>, id: nat)
    requires CanRun(EMPTY, ls) && ls != [] && id in Run(EMPTY, ls).sockets && Run(EMPTY, ls).sockets[id].slow
    requires CanRun(EMPTY, ls[..|ls| - 1])
    requires var s := Run(EMPTY, ls[..|ls| - 1]); id in s.sockets ==> !s.sockets[id].slow
    ensures DropsFull(ls, |ls| - 1, id)
  {
    LastStep(EMPTY, ls);
    RunKeepsInv(EMPTY, ls[..|ls| - 1]);
    SlowOnlyByOffer(Run(EMPTY, ls[..|ls| - 1]), ls[|ls| - 1], id);
    DropsNow(ls, id);
  }

  lemma DroppedBefore(ls: seq<Label>, k: nat, id: nat)
    requires CanRun(EMPTY, ls) && ls != [] && CanRun(EMPTY, ls[..|ls| - 1]) && DropsFull(ls[..|ls| - 1], k, id)
    ensures DropsFull(ls, k, id)
  {
    assert ls[..|ls| - 1][..k] == ls[..k] && ls[..|ls| - 1][..k + 1] == ls[..k + 1];
  }

  /** In every run a socket counted as slow was dropped by a fan-out, and 16 frames were waiting on it at that moment. */
  lemma {:induction false} SlowMeansFull(ls: seq<Label>, id: nat) returns (k: nat)
    requires CanRun(EMPTY, ls) && id in Run(EMPTY, ls).sockets && Run(EMPTY, ls).sockets[id].slow
    ensures DropsFull(ls, k, id)
    decreases |ls|
  {
    var init, last := ls[..|ls| - 1], |ls| - 1;
    LastStep(EMPTY, ls);
    if id in Run(EMPTY, init).sockets && Run(EMPTY, init).sockets[id].slow {
      k := SlowMeansFull(init, id);
      DroppedBefore(ls, k, id);
    } else {
      k := last;
      SlowNow(ls, id);
    }
  }

  // ----- The hub's own methods -----

  ghost predicate Own(clients: map<nat, set<nat>>, sockets: map<nat, Socket>, user: nat) {
    && (user in clients ==> |clients[user]| > 0)
    && (forall id :: id in SocketsOf(clients, user) ==> id in sockets && sockets[id].user == user)
  }

  /** The hub can serve any user, in the middle of any fan-out. */
  lemma OwnSockets(s: State, users: seq<nat>, payload: string, user: nat)
    requires Reachable(s)
    ensures var s' := Deliver(s, users, payload);
            Own(s'.clients, s'.sockets, user)
  {
    ReachableIsConsistent(s);
    DeliverKeepsInv(s, users, payload);
  }

  function ServedSocket(s: State, id: nat, payload: string): State
    requires id in s.sockets
  {
    if Full(s.sockets[id]) then Remove(s, id, true).(dropped := s.dropped + 1)
    else s.(sockets := s.sockets[id := Pushed(s.sockets[id], payload)], sent := s.sent + 1)
  }

  ghost predicate Disjoint(a: set<nat>, b: set<nat>) {
    forall id :: id in b ==> id !in a
  }

  ghost predicate Covers(a: set<nat>, b: set<nat>, all: set<nat>) {
    forall id :: id in a || id in b <==> id in all
  }

  lemma OneLess(ids: set<nat>, rest: set<nat>, id: nat)
    requires id in rest && rest <= ids
    ensures ids - (rest - {id}) == ids - rest + {id}
  {
  }

  lemma OfferNone(s: State, user: nat, payload: string)
    requires Own(s.clients, s.sockets, user)
    ensures OfferTo(s, user, payload, {}) == s
  {
    assert user in s.clients ==> s.clients[user] - {} == s.clients[user];
    assert FullOf(s.sockets, {}) == {};
  }

  /** One more socket of the user is served. */
  lemma OfferOneMore(s: State, user: nat, payload: string, served: set<nat>, id: nat)
    requires Own(s.clients, s.sockets, user) && id in SocketsOf(s.clients, user) && id !in served
    ensures var t := OfferTo(s, user, payload, served);
            Live(t, id) && OfferTo(s, user, payload, served + {id}) == ServedSocket(t, id, payload)
  {
    var full := FullOf(s.sockets, served);
    OfferCounts(s.sockets, served, id);
    WithoutOneMore(s.clients, user, full, id);
    ServedOneMore(s, user, payload, served, id);
  }

  lemma ServedOneMore(s: State, user: nat, payload: string, served: set<nat>, id: nat)
    requires id in s.sockets && id !in served
    ensures OfferTo(s, user, payload, served).sockets[id] == s.sockets[id]
    ensures OfferTo(s, user, payload, served + {id}).sockets
         == OfferTo(s, user, payload, served).sockets[id := AfterOffer(s.sockets[id], |s.offers|, payload)]
  {
  }

  lemma OfferCounts(sockets: map<nat, Socket>, served: set<nat>, id: nat)
    requires id in sockets && id !in served
    ensures var full := FullOf(sockets, served); var full' := FullOf(sockets, served + {id});
            if Full(sockets[id]) then full' == full + {id} && |full'| == |full| + 1 && served + {id} - full' == served - full
            else full' == full && |served + {id} - full'| == |served - full| + 1
  {
    var full, full' := FullOf(sockets, served), FullOf(sockets, served + {id});
    if Full(sockets[id]) {
      assert full' == full + {id};
      assert served + {id} - full' == served - full;
    } else {
      assert full' == full;
      assert served + {id} - full == (served - full) + {id};
    }
  }

  lemma WithoutOneMore(clients: map<nat, set<nat>>, user: nat, gone: set<nat>, id: nat)
    requires user in clients && id in clients[user] && id !in gone
    ensures id in SocketsOf(Without(clients, user, gone), user)
    ensures Without(clients, user, gone + {id}) == Without(Without(clients, user, gone), user, {id})
  {
    assert id in clients[user] - gone;
    assert clients[user] - (gone + {id}) == (clients[user] - gone) - {id};
  }

  lemma CloseOneMore(s: State, shut: set<nat>, id: nat)
    requires id in s.sockets && id !in shut
    ensures CloseThese(s, shut + {id}) == CloseThese(s, shut)[id := Gone(s.sockets[id], |s.offers|, false)]
    ensures id in CloseThese(s, shut) && CloseThese(s, shut)[id] == s.sockets[id]
    ensures |shut + {id}| == |shut| + 1
  {
  }

  const BROADCAST_BUFFER := 256

  /** What Broadcast does with a call. */
  datatype Fate = Ignored | Queued | Shed | Closing

  /** The fan-outs of a list of envelopes, in the order the hub serves them. */
  function Flattened(es: seq<Envelope>): seq<Offer>
    decreases |es|
  {
    if es == [] then [] else Flattened(es[..|es| - 1]) + OffersOf(es[|es| - 1])
  }

  function OffersOf(e: Envelope): seq<Offer> {
    seq(|e.users|, i requires 0 <= i < |e.users| => Offer(e.users[i], e.payload))
  }

  lemma {:induction false} DeliverOffers(s: State, users: seq<nat>, payload: string)
    ensures Deliver(s, users, payload).offers == s.offers + OffersOf(Envelope(users, payload))
    decreases |users|
  {
    if users == [] {
    } else {
      DeliverOffers(s, users[..|users| - 1], payload);
      assert OffersOf(Envelope(users, payload)) ==
             OffersOf(Envelope(users[..|users| - 1], payload)) + [Offer(users[|users| - 1], payload)];
    }
  }

  lemma FlattenedGrows(es: seq<Envelope>, e: Envelope)
    ensures Flattened(es + [e]) == Flattened(es) + OffersOf(e)
  {
    assert (es + [e])[..|es|] == es;
  }

  lemma FirstMoves(taken: seq<Envelope>, pending: seq<Envelope>)
    requires pending != []
    ensures taken + [pending[0]] + pending[1..] == taken + pending
  {
  }

  lemma ServedInTurn(s: State, taken: seq<Envelope>, e: Envelope)
    requires Reachable(s) && s.offers == Flattened(taken)
    ensures var s' := Deliver(s, e.users, e.payload); Reachable(s') && s'.offers == Flattened(taken + [e])
  {
    ReachableThen(s, Label.Broadcast(e));
    DeliverOffers(s, e.users, e.payload);
    FlattenedGrows(taken, e);
  }

  ghost function LiveOf(s: State, users: set<nat>): set<nat> {
    set id | id in s.sockets && Live(s, id) && s.sockets[id].user in users
  }

  /** closeAll, after these users. */
  ghost function Closed(s: State, users: set<nat>): State {
    var ids := LiveOf(s, users);
    s.(clients := s.clients - users, sockets := CloseThese(s, ids), open := s.open - |ids|)
  }

  lemma LiveOfMore(s: State, users: set<nat>, user: nat)
    requires Reachable(s) && user in s.clients && user !in users
    ensures LiveOf(s, users + {user}) == LiveOf(s, users) + s.clients[user]
    ensures forall id :: id in s.clients[user] ==> id in s.sockets && id !in LiveOf(s, users)
    ensures s.clients - (users + {user}) == s.clients - users - {user}
  {
    ReachableIsConsistent(s);
  }

  lemma EveryUser(s: State, users: set<nat>)
    requires s.clients - users == map[]
    ensures Closed(s, users) == CloseAll(s)
  {
    assert forall u :: u in s.clients ==> u in users || u in s.clients - users;
    assert LiveOf(s, users) == AllLive(s);
  }

  lemma NoUser(s: State)
    ensures Closed(s, {}) == s
  {
    assert s.clients - {} == s.clients;
    assert LiveOf(s, {}) == {} && CloseThese(s, {}) == s.sockets;
  }

  /** The user has a socket here. */
  ghost predicate Present(s: State, user: nat) {
    exists id :: Live(s, id) && s.sockets[id].user == user
  }

  lemma EntriesAreLive(s: State)
    requires Reachable(s)
    ensures forall u :: u in s.clients <==> Present(s, u)
  {
    ReachableIsConsistent(s);
    forall u | u in s.clients ensures Present(s, u) {
      var id :| id in s.clients[u];
      assert Live(s, id);
    }
  }

  /** Every other socket keeps its record and its place. */
  ghost predicate OthersStay(s: State, s': State, id: nat) {
    forall x :: x in s.sockets && x != id ==> x in s'.sockets && s'.sockets[x] == s.sockets[x] && (Live(s', x) <==> Live(s, x))
  }

  /** Sockets are named by number; `pending` is the hub's own queue. `offers`, `taken` and `calls` are history variables. */
  class Hub {
    var clients: map<nat, set<nat>>
    var sockets: map<nat, Socket>
    var pending: seq<Envelope>
    var closing: bool
    var open: int
    var sent: nat
    var dropped: nat
    var shed: nat
    var offers: seq<Offer>
    ghost var taken: seq<Envelope>
    ghost var calls: seq<Envelope>

    ghost function View(): State
      reads this
    {
      State(clients, sockets, open, sent, dropped, offers)
    }

    /** Of the calls the hub accepted, the first ones were served and the rest wait, in the order they came. */
    ghost predicate Valid()
      reads this
    {
      Reachable(View()) && |pending| <= BROADCAST_BUFFER && calls == taken + pending && offers == Flattened(taken)
    }

    constructor ()
      ensures Valid() && View() == EMPTY && pending == [] && shed == 0 && !closing
    {
      clients, sockets, pending, closing, open, sent, dropped, shed := map[], map[], [], false, 0, 0, 0, 0;
      offers, taken, calls := [], [], [];
      new;
      assert CanRun(EMPTY, []) && Run(EMPTY, []) == View();
    }

    method Register(id: nat, user: nat)
      requires Valid() && id !in sockets
      modifies `clients, `sockets, `open
      ensures Valid() && View() == Add(old(View()), id, user)
      ensures Live(View(), id) && sockets[id].user == user && sockets[id].queue == [] && sockets[id].closed == 0
      ensures open == old(open) + 1 && OthersStay(old(View()), View(), id)
    {
      ReachableThen(View(), Label.Register(id, user));
      if user !in clients {
        clients := clients[user := {}];
      }
      clients := clients[user := clients[user] + {id}];
      sockets := sockets[id := Socket(user, [], 0, [], |offers|, 0, false)];
      open := open + 1;
      assert clients == Add(old(View()), id, user).clients;
      assert View() == Add(old(View()), id, user);
      AddedIsNew(old(View()), id, user);
    }

    /** No-op for a socket that is already gone. */
    method Unlink(id: nat, slow: bool)
      requires id in sockets
      modifies `clients, `sockets, `open
      ensures View() == Remove(old(View()), id, slow)
      ensures id in sockets && !Live(View(), id) && (!old(Live(View(), id)) ==> View() == old(View()))
      ensures old(Live(View(), id)) ==> open == old(open) - 1 && sockets[id].closed == old(sockets[id].closed) + 1
                                        && sockets[id].queue == old(sockets[id].queue) && sockets[id].slow == slow
      ensures OthersStay(old(View()), View(), id)
    {
      var user := sockets[id].user;
      if user !in clients {
        return;
      }
      if id !in clients[user] {
        return;
      }
      clients := clients[user := clients[user] - {id}];
      if clients[user] == {} {
        clients := clients - {user};
      }
      sockets := sockets[id := Gone(sockets[id], |offers|, slow)];
      open := open - 1;
      assert clients == Without(old(clients), user, {id});
    }

    method Unregister(id: nat)
      requires Valid() && id in sockets
      modifies `clients, `sockets, `open
      ensures Valid() && View() == Remove(old(View()), id, false)
      ensures !Live(View(), id) && (old(Live(View(), id)) ==> open == old(open) - 1 && sockets[id].closed == old(sockets[id].closed) + 1)
      ensures OthersStay(old(View()), View(), id)
    {
      ReachableThen(View(), Label.Unregister(id));
      Unlink(id, false);
    }

    /** One socket: the frame is queued, or the socket is dropped. */
    method ServeSocket(id: nat, payload: string)
      requires id in sockets && Live(View(), id)
      modifies `clients, `sockets, `open, `sent, `dropped
      ensures View() == ServedSocket(old(View()), id, payload)
      ensures id in sockets && (Live(View(), id) <==> |old(sockets[id].queue)| < 16)
      ensures Live(View(), id) ==> sockets == old(sockets)[id := old(sockets[id]).(queue := old(sockets[id].queue) + [payload])]
                                   && clients == old(clients) && open == old(open) && sent == old(sent) + 1 && dropped == old(dropped)
      ensures !Live(View(), id) ==> sockets[id].closed == old(sockets[id].closed) + 1 && sockets[id].queue == old(sockets[id].queue)
                                    && sockets[id].slow && open == old(open) - 1 && sent == old(sent) && dropped == old(dropped) + 1
      ensures OthersStay(old(View()), View(), id)
    {
      if |sockets[id].queue| < SEND_BUFFER {
        sockets := sockets[id := Pushed(sockets[id], payload)];
        sent := sent + 1;
      } else {
        dropped := dropped + 1;
        Unlink(id, true);
      }
    }

    /** The inner loop of deliver: the user's sockets in any order, with the same outcome for each order. */
    method ServeUser(user: nat, payload: string)
      requires Own(clients, sockets, user)
      modifies `clients, `sockets, `open, `sent, `dropped, `offers
      ensures View() == OfferUser(old(View()), user, payload)
    {
      ghost var s0 := View();
      var ids := if user in clients then clients[user] else {};
      var rest := ids;
      OfferNone(s0, user, payload);
      assert ids - rest == {};
      while rest != {}
        invariant rest <= ids && View() == OfferTo(s0, user, payload, ids - rest)
        decreases rest
      {
        var id :| id in rest;
        OneLess(ids, rest, id);
        OfferOneMore(s0, user, payload, ids - rest, id);
        ServeSocket(id, payload);
        rest := rest - {id};
      }
      assert ids - {} == ids;
      offers := offers + [Offer(user, payload)];
    }

    /** deliver: the listed users in order. */
    method ServeEach(e: Envelope)
      requires Reachable(View())
      modifies `clients, `sockets, `open, `sent, `dropped, `offers
      ensures View() == Deliver(old(View()), e.users, e.payload)
    {
      ghost var s0 := View();
      for k := 0 to |e.users|
        invariant View() == Deliver(s0, e.users[..k], e.payload)
      {
        OwnSockets(s0, e.users[..k], e.payload, e.users[k]);
        assert e.users[..k + 1][..k] == e.users[..k];
        ServeUser(e.users[k], e.payload);
      }
      assert e.users[..|e.users|] == e.users;
    }

    /** Takes the oldest fan-out and serves it, whatever the speed of its readers. */
    method Serve()
      requires Valid() && pending != []
      modifies `clients, `sockets, `open, `sent, `dropped, `offers, `pending, `taken
      ensures Valid() && View() == Deliver(old(View()), old(pending[0]).users, old(pending[0]).payload)
      ensures pending == old(pending)[1..]
      ensures forall id :: old(Live(View(), id)) ==>
                (Live(View(), id) <==> |old(sockets)[id].queue| + Mentions(old(pending[0]).users, old(sockets)[id].user) <= 16)
    {
      var e := pending[0];
      ghost var s0 := View();
      forall id | Live(s0, id)
        ensures Live(Deliver(s0, e.users, e.payload), id) <==> |s0.sockets[id].queue| + Mentions(e.users, s0.sockets[id].user) <= 16
      {
        DroppedIffFull(s0, e, id);
      }
      ServedInTurn(View(), taken, e);
      FirstMoves(taken, pending);
      ServeEach(e);
      pending := pending[1..];
      taken := taken + [e];
    }

    /** Never waits for the hub: a call is queued, or shed and counted. `pickDone` is the choice of select at shutdown. */
    method Broadcast(users: seq<nat>, payload: string, pickDone: bool) returns (fate: Fate)
      requires Valid()
      modifies `pending, `shed, `calls
      ensures Valid() && View() == old(View())
      ensures fate.Ignored? <==> users == [] || payload == ""
      ensures fate.Shed? <==> users != [] && payload != "" && !closing && |old(pending)| == 256
      ensures fate.Closing? ==> closing
      ensures !closing && users != [] && payload != "" && |old(pending)| < 256 ==> fate.Queued?
      ensures pending == old(pending) + if fate.Queued? then [Envelope(users, payload)] else []
      ensures calls == old(calls) + if fate.Queued? then [Envelope(users, payload)] else []
      ensures shed == old(shed) + if fate.Shed? then 1 else 0
    {
      if |users| == 0 || |payload| == 0 {
        return Ignored;
      }
      var room := |pending| < BROADCAST_BUFFER;
      if room && !(closing && pickDone) {
        pending := pending + [Envelope(users, payload)];
        calls := calls + [Envelope(users, payload)];
        return Queued;
      }
      if closing {
        return Closing;
      }
      shed := shed + 1;
      fate := Shed;
    }

    /** The answer of UserIDs: every user with a socket here, once, however many tabs they have. */
    method LocalUserIDs() returns (ids: seq<nat>)
      requires Valid()
      ensures forall i, j :: 0 <= i < j < |ids| ==> ids[i] != ids[j]
      ensures forall u :: u in ids <==> Present(View(), u)
    {
      EntriesAreLive(View());
      ids := [];
      var rest := clients.Keys;
      while rest != {}
        invariant rest <= clients.Keys
        invariant forall u :: u in clients <==> u in rest || u in ids
        invariant forall u :: u in rest ==> u !in ids
        invariant forall i, j :: 0 <= i < j < |ids| ==> ids[i] != ids[j]
        decreases rest
      {
        var u :| u in rest;
        rest := rest - {u};
        ids := ids + [u];
      }
    }

    /** A set of sockets is closed, in any order. */
    method CloseSockets(ids: set<nat>, ghost s0: State, ghost shut: set<nat>)
      requires forall id :: id in ids ==> id in s0.sockets && id !in shut
      requires offers == s0.offers && sockets == CloseThese(s0, shut) && open == s0.open - |shut|
      modifies `sockets, `open
      ensures sockets == CloseThese(s0, shut + ids) && open == s0.open - |shut + ids|
    {
      var rest := ids;
      ghost var done := shut;
      while rest != {}
        invariant Disjoint(done, rest) && rest <= ids && Covers(done, rest, shut + ids)
        invariant sockets == CloseThese(s0, done) && open == s0.open - |done|
        decreases rest
      {
        var id :| id in rest;
        CloseOneMore(s0, done, id);
        sockets := sockets[id := Gone(sockets[id], |offers|, false)];
        open := open - 1;
        rest, done := rest - {id}, done + {id};
      }
      assert done == shut + ids;
    }

    /** One user's sockets at shutdown. */
    method CloseUser(user: nat, ghost s0: State, ghost users: set<nat>)
      requires Reachable(s0) && View() == Closed(s0, users) && user in clients
      modifies `clients, `sockets, `open
      ensures View() == Closed(s0, users + {user}) && clients == old(clients) - {user}
    {
      LiveOfMore(s0, users, user);
      CloseSockets(clients[user], s0, LiveOf(s0, users));
      clients := clients - {user};
    }

    method Shutdown()
      requires Valid()
      modifies `clients, `sockets, `open, `closing
      ensures Valid() && View() == CloseAll(old(View())) && closing
      ensures clients == map[] && open == 0 && forall id :: id in sockets ==> sockets[id].closed == 1
    {
      ghost var s0 := View();
      closing := true;
      CloseClients(s0);
      ReachableThen(s0, Label.Shutdown);
      AllClosed(s0);
    }

    /** closeAll: the users in any order, each with all of their sockets. */
    method CloseClients(ghost s0: State)
      requires View() == s0 && Reachable(s0)
      modifies `clients, `sockets, `open
      ensures View() == CloseAll(s0)
    {
      ghost var users: set<nat> := {};
      NoUser(s0);
      while clients != map[]
        invariant View() == Closed(s0, users)
        decreases clients.Keys
      {
        assert clients.Keys != {};
        var user :| user in clients;
        CloseUser(user, s0, users);
        users := users + {user};
      }
      EveryUser(s0, users);
    }
  }

  lemma AddedIsNew(s: State, id: nat, user: nat)
    requires id !in s.sockets
    ensures var s' := Add(s, id, user);
            && Live(s', id) && s'.sockets[id].user == user && s'.sockets[id].queue == [] && s'.sockets[id].closed == 0
            && s'.open == s.open + 1 && OthersStay(s, s', id)
  {
  }

  lemma AllClosed(s: State)
    requires Reachable(s)
    ensures CloseAll(s).open == 0 && forall id :: id in CloseAll(s).sockets ==> CloseAll(s).sockets[id].closed == 1
  {
    ReachableIsConsistent(s);
    forall id | id in s.sockets ensures CloseAll(s).sockets[id].closed == 1 {
      assert SocketOk(s.offers, Live(s, id), s.sockets[id]);
    }
  }
}
