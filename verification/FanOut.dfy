// One node of the cluster beside the pipeline: its fan-out subscription reads the stream forward, hands every event to
// the hub's queue, and the hub serves its sockets. Sockets come and go at any time.

module FanOut {
  import opened Schema
  import W = Writers
  import D = Delivery
  import P = Pipeline
  import E = Envelopes
  import H = Hub

  /** `frame` encodes an event for a socket. */
  datatype World = World(c: D.Config, frame: Event -> string)

  /** A call of Broadcast: the stream entry it came from, and its envelope. */
  datatype Call = Call(at: nat, e: H.Envelope)

  /**
   * `start` is where the subscription began, if it has; `cursor` is the next entry; `pending` the hub's own queue.
   * History: `served` are the calls the hub took, `missed` the entries that never got to it: lost on the way,
   * unreadable, addressed to nobody, or shed.
   */
  datatype Node = Node(
    post: E.State, hub: H.State, start: Option<nat>, cursor: nat, pending: seq<Call>, served: seq<Call>, missed: set<nat>)

  datatype Label =
    | Pipe(l: E.Label)
    | Subscribe
    | Take
    | Lose
    | Serve
    | Sockets(h: H.Label)

  function Log(s: Node): seq<D.Entry> {
    E.Log(s.post)
  }

  function TablesOf(s: Node): Tables {
    s.post.p.db.t
  }

  function CallOf(w: World, post: E.State, i: nat): Call
    requires i < |E.Log(post)| && i < |post.envelopes| && E.Log(post)[i].payload.Readable?
  {
    Call(i, H.Envelope(post.envelopes[i], w.frame(E.Log(post)[i].payload.event)))
  }

  /** The entry decodes, and Broadcast finds somebody to send it to and room in the queue. */
  predicate Accepted(w: World, s: Node) {
    && s.cursor < |Log(s)| && s.cursor < |s.post.envelopes| && Log(s)[s.cursor].payload.Readable?
    && s.post.envelopes[s.cursor] != [] && w.frame(Log(s)[s.cursor].payload.event) != ""
    && |s.pending| < H.BROADCAST_BUFFER
  }

  ghost predicate Enabled(w: World, s: Node, l: Label) {
    match l
    case Pipe(el) => E.Enabled(w.c, s.post, el)
    case Subscribe => s.start.None?
    case Take => s.start.Some? && s.cursor < |Log(s)|
    case Lose => s.start.Some? && s.cursor < |Log(s)|
    case Serve => s.pending != []
    case Sockets(hl) => !hl.Broadcast? && H.Enabled(s.hub, hl)
  }

  ghost function Do(w: World, s: Node, l: Label): Node
    requires Enabled(w, s, l)
  {
    match l
    case Pipe(el) => s.(post := E.Do(w.c, s.post, el))
    case Subscribe => s.(start := Some(|Log(s)|), cursor := |Log(s)|)
    case Take =>
      if Accepted(w, s) then s.(pending := s.pending + [CallOf(w, s.post, s.cursor)], cursor := s.cursor + 1)
      else s.(missed := s.missed + {s.cursor}, cursor := s.cursor + 1)
    case Lose => s.(missed := s.missed + {s.cursor}, cursor := s.cursor + 1)
    case Serve =>
      s.(hub := H.Do(s.hub, H.Label.Broadcast(s.pending[0].e)), served := s.served + [s.pending[0]], pending := s.pending[1..])
    case Sockets(hl) => s.(hub := H.Do(s.hub, hl))
  }

  const EMPTY := Node(E.EMPTY, H.EMPTY, None, 0, [], [], {})

  ghost predicate CanRun(w: World, ls: seq<Label>)
    decreases |ls|, 0
  {
    ls == [] || (CanRun(w, ls[..|ls| - 1]) && Enabled(w, Run(w, ls[..|ls| - 1]), ls[|ls| - 1]))
  }

  ghost function Run(w: World, ls: seq<Label>): Node
    requires CanRun(w, ls)
    decreases |ls|, 1
  {
    if ls == [] then EMPTY else Do(w, Run(w, ls[..|ls| - 1]), ls[|ls| - 1])
  }

  // ----- What every run keeps -----

  predicate CallOk(w: World, post: E.State, start: nat, cursor: nat, call: Call) {
    && start <= call.at < cursor <= |E.Log(post)| && call.at < |post.envelopes| && E.Log(post)[call.at].payload.Readable?
    && call == CallOf(w, post, call.at)
  }

  predicate CallsOk(w: World, post: E.State, start: nat, cursor: nat, calls: seq<Call>) {
    && (forall k :: 0 <= k < |calls| ==> CallOk(w, post, start, cursor, calls[k]))
    && (forall j, k :: 0 <= j < k < |calls| ==> calls[j].at < calls[k].at)
  }

  predicate Among(calls: seq<Call>, i: nat) {
    exists k :: 0 <= k < |calls| && calls[k].at == i
  }

  /** Every entry since the subscription was either handed to the hub or missed, and not both. */
  predicate Accounted(start: nat, cursor: nat, calls: seq<Call>, missed: set<nat>) {
    && start <= cursor
    && (forall i: nat :: start <= i < cursor ==> (Among(calls, i) <==> i !in missed))
    && (forall i :: i in missed ==> start <= i < cursor)
  }

  /** The fan-outs of a list of calls, in the order the hub serves them. */
  function Offers(calls: seq<Call>): seq<H.Offer>
    decreases |calls|
  {
    if calls == [] then [] else Offers(calls[..|calls| - 1]) + H.OffersOf(calls[|calls| - 1].e)
  }

  function StartOf(s: Node): nat {
    if s.start.Some? then s.start.value else 0
  }

  ghost predicate QueueOk(w: World, s: Node) {
    && s.cursor <= |Log(s)|
    && (s.start.None? ==> s.served + s.pending == [] && s.cursor == 0 && s.missed == {})
    && CallsOk(w, s.post, StartOf(s), s.cursor, s.served + s.pending)
    && Accounted(StartOf(s), s.cursor, s.served + s.pending, s.missed)
    && s.hub.offers == Offers(s.served)
  }

  ghost predicate Inv(w: World, s: Node) {
    E.Inv(w.c, s.post) && H.Inv(s.hub) && QueueOk(w, s)
  }

  // ----- Growth -----

  /** Sockets keep their user and their place; what was offered stays offered. */
  ghost predicate HubGrows(h: H.State, h': H.State) {
    && h.offers <= h'.offers
    && (forall id :: id in h.sockets ==> id in h'.sockets && SameSocket(h.sockets[id], h'.sockets[id]))
  }

  predicate SameSocket(k: H.Socket, k': H.Socket) {
    k'.user == k.user && k'.since == k.since
  }

  /** `s'` comes later in a run than `s`. */
  ghost predicate Later(s: Node, s': Node) {
    && E.Later(s.post, s'.post)
    && HubGrows(s.hub, s'.hub)
    && s.served <= s'.served
    && (s.start.Some? ==> s'.start == s.start) && s.missed <= s'.missed
  }

  lemma OfferGrows(h: H.State, user: nat, payload: string)
    ensures HubGrows(h, H.OfferUser(h, user, payload))
  {
  }

  lemma HubGrowsOn(a: H.State, b: H.State, c: H.State)
    requires HubGrows(a, b) && HubGrows(b, c)
    ensures HubGrows(a, c)
  {
    forall id | id in a.sockets ensures id in c.sockets && SameSocket(a.sockets[id], c.sockets[id]) {
      assert id in b.sockets && SameSocket(a.sockets[id], b.sockets[id]);
    }
  }

  lemma {:induction false} DeliverGrows(h: H.State, users: seq<nat>, payload: string)
    ensures HubGrows(h, H.Deliver(h, users, payload))
    decreases |users|
  {
    if users == [] {
    } else {
      var init := H.Deliver(h, users[..|users| - 1], payload);
      DeliverGrows(h, users[..|users| - 1], payload);
      OfferGrows(init, users[|users| - 1], payload);
      HubGrowsOn(h, init, H.Deliver(h, users, payload));
    }
  }

  lemma HubStepGrows(h: H.State, l: H.Label)
    requires H.Enabled(h, l)
    ensures HubGrows(h, H.Do(h, l))
  {
    if l.Broadcast? {
      DeliverGrows(h, l.e.users, l.e.payload);
    }
  }

  lemma StepGrows(w: World, s: Node, l: Label)
    requires P.Inv(w.c, s.post.p) && Enabled(w, s, l)
    ensures Later(s, Do(w, s, l))
  {
    match l
    case Pipe(el) => E.StepGrows(w.c, s.post, el);
    case Serve => HubStepGrows(s.hub, H.Label.Broadcast(s.pending[0].e));
    case Sockets(hl) => HubStepGrows(s.hub, hl);
    case _ =>
  }

  // ----- The queue -----

  lemma CallsOnLongerLog(w: World, post: E.State, post': E.State, start: nat, cursor: nat, calls: seq<Call>)
    requires CallsOk(w, post, start, cursor, calls) && E.Log(post) <= E.Log(post') && post.envelopes <= post'.envelopes
    ensures CallsOk(w, post', start, cursor, calls)
  {
    forall k | 0 <= k < |calls| ensures CallOk(w, post', start, cursor, calls[k]) {
      assert CallOk(w, post, start, cursor, calls[k]);
    }
  }

  lemma CallsGrow(w: World, post: E.State, start: nat, cursor: nat, calls: seq<Call>)
    requires CallsOk(w, post, start, cursor, calls) && start <= cursor < |E.Log(post)| && cursor < |post.envelopes|
    ensures CallsOk(w, post, start, cursor + 1, calls)
    ensures E.Log(post)[cursor].payload.Readable? ==> CallsOk(w, post, start, cursor + 1, calls + [CallOf(w, post, cursor)])
  {
    forall k | 0 <= k < |calls| ensures CallOk(w, post, start, cursor + 1, calls[k]) {
      assert CallOk(w, post, start, cursor, calls[k]);
    }
  }

  lemma AmongMore(calls: seq<Call>, more: seq<Call>, i: nat)
    ensures Among(calls + more, i) <==> Among(calls, i) || Among(more, i)
  {
    if Among(calls, i) {
      var k :| 0 <= k < |calls| && calls[k].at == i;
      assert (calls + more)[k].at == i;
    }
    if Among(more, i) {
      var k :| 0 <= k < |more| && more[k].at == i;
      assert (calls + more)[|calls| + k].at == i;
    }
    if Among(calls + more, i) {
      AmongEither(calls, more, i);
    }
  }

  lemma AmongEither(calls: seq<Call>, more: seq<Call>, i: nat)
    requires Among(calls + more, i)
    ensures Among(calls, i) || Among(more, i)
  {
    var k :| 0 <= k < |calls + more| && (calls + more)[k].at == i;
    if k < |calls| {
      assert calls[k].at == i;
    } else {
      assert more[k - |calls|].at == i;
    }
  }

  /** One more entry, handed over or missed. */
  lemma AccountsForOneMore(start: nat, cursor: nat, calls: seq<Call>, missed: set<nat>, call: Call)
    requires Accounted(start, cursor, calls, missed) && (forall k :: 0 <= k < |calls| ==> calls[k].at < cursor) && call.at == cursor
    ensures Accounted(start, cursor + 1, calls + [call], missed)
    ensures Accounted(start, cursor + 1, calls, missed + {cursor})
  {
    forall i: nat ensures Among(calls + [call], i) <==> Among(calls, i) || i == cursor {
      AmongMore(calls, [call], i);
      assert [call][0].at == cursor;
    }
    assert !Among(calls, cursor);
  }

  /** The next entry is handed over or missed: either way everything since the subscription stays accounted for. */
  lemma QueueGrows(w: World, post: E.State, start: nat, cursor: nat, calls: seq<Call>, missed: set<nat>)
    requires CallsOk(w, post, start, cursor, calls) && Accounted(start, cursor, calls, missed)
    requires start <= cursor < |E.Log(post)| && cursor < |post.envelopes|
    ensures CallsOk(w, post, start, cursor + 1, calls) && Accounted(start, cursor + 1, calls, missed + {cursor})
    ensures E.Log(post)[cursor].payload.Readable? ==>
              var calls' := calls + [CallOf(w, post, cursor)];
              CallsOk(w, post, start, cursor + 1, calls') && Accounted(start, cursor + 1, calls', missed)
  {
    CallsGrow(w, post, start, cursor, calls);
    forall k | 0 <= k < |calls| ensures calls[k].at < cursor {
      assert CallOk(w, post, start, cursor, calls[k]);
    }
    var call := if E.Log(post)[cursor].payload.Readable? then CallOf(w, post, cursor) else Call(cursor, H.Envelope([], ""));
    AccountsForOneMore(start, cursor, calls, missed, call);
  }

  lemma TakeKeepsQueue(w: World, s: Node, l: Label)
    requires |Log(s)| == |s.post.envelopes| && QueueOk(w, s) && Enabled(w, s, l) && (l.Take? || l.Lose?)
    ensures QueueOk(w, Do(w, s, l))
  {
    QueueGrows(w, s.post, StartOf(s), s.cursor, s.served + s.pending, s.missed);
    if l.Take? && Accepted(w, s) {
      CallIsQueued(w, s);
    } else {
      assert Do(w, s, l) == s.(missed := s.missed + {s.cursor}, cursor := s.cursor + 1);
    }
  }

  lemma CallIsQueued(w: World, s: Node)
    requires s.start.Some? && Accepted(w, s)
    ensures var s', call := Do(w, s, Take), CallOf(w, s.post, s.cursor);
            s' == s.(pending := s.pending + [call], cursor := s.cursor + 1) && s'.served + s'.pending == s.served + s.pending + [call]
  {
    Regroup(s.served, s.pending, [CallOf(w, s.post, s.cursor)]);
  }

  lemma ServeKeepsQueue(w: World, s: Node)
    requires QueueOk(w, s) && s.pending != []
    ensures QueueOk(w, Do(w, s, Serve))
  {
    var s', call := Do(w, s, Serve), s.pending[0];
    assert s'.served + s'.pending == s.served + s.pending;
    H.DeliverOffers(s.hub, call.e.users, call.e.payload);
    OffersGrow(s.served, call);
  }

  lemma QuietHub(h: H.State, l: H.Label)
    requires !l.Broadcast?
    ensures H.Do(h, l).offers == h.offers
  {
  }

  lemma PipeKeepsInv(w: World, s: Node, l: E.Label)
    requires Inv(w, s) && E.Enabled(w.c, s.post, l)
    ensures Inv(w, s.(post := E.Do(w.c, s.post, l)))
  {
    E.StepKeepsInv(w.c, s.post, l);
    E.StepGrows(w.c, s.post, l);
    CallsOnLongerLog(w, s.post, E.Do(w.c, s.post, l), StartOf(s), s.cursor, s.served + s.pending);
  }

  lemma SubscribeKeepsInv(w: World, s: Node)
    requires Inv(w, s) && s.start.None?
    ensures Inv(w, Do(w, s, Subscribe))
  {
  }

  lemma SocketsKeepInv(w: World, s: Node, l: H.Label)
    requires Inv(w, s) && !l.Broadcast? && H.Enabled(s.hub, l)
    ensures Inv(w, s.(hub := H.Do(s.hub, l)))
  {
    H.StepKeepsInv(s.hub, l);
    QuietHub(s.hub, l);
  }

  lemma StepKeepsInv(w: World, s: Node, l: Label)
    requires Inv(w, s) && Enabled(w, s, l)
    ensures Inv(w, Do(w, s, l))
  {
    match l
    case Pipe(el) => PipeKeepsInv(w, s, el);
    case Take => TakeKeepsQueue(w, s, l);
    case Lose => TakeKeepsQueue(w, s, l);
    case Serve =>
      H.StepKeepsInv(s.hub, H.Label.Broadcast(s.pending[0].e));
      ServeKeepsQueue(w, s);
    case Sockets(hl) => SocketsKeepInv(w, s, hl);
    case Subscribe => SubscribeKeepsInv(w, s);
  }

  lemma StartQueue(w: World)
    ensures QueueOk(w, EMPTY)
  {
  }

  lemma StartIsConsistent(w: World)
    ensures Inv(w, EMPTY)
  {
    E.StartIsConsistent(w.c);
    H.StartIsConsistent();
    StartQueue(w);
  }

  lemma {:induction false} EveryRunIsConsistent(w: World, ls: seq<Label>)
    requires CanRun(w, ls)
    ensures Inv(w, Run(w, ls))
    decreases |ls|
  {
    if ls == [] {
      StartIsConsistent(w);
    } else {
      EveryRunIsConsistent(w, ls[..|ls| - 1]);
      StepKeepsInv(w, Run(w, ls[..|ls| - 1]), ls[|ls| - 1]);
    }
  }

  lemma LaterOn(a: Node, b: Node, c: Node)
    requires Later(a, b) && Later(b, c)
    ensures Later(a, c)
  {
    E.LaterOn(a.post, b.post, c.post);
    HubGrowsOn(a.hub, b.hub, c.hub);
  }

  lemma LaterItself(s: Node)
    ensures Later(s, s)
  {
  }

  /** The state after the first k steps of a run. */
  ghost function After(w: World, ls: seq<Label>, k: nat): Node
    requires CanRun(w, ls) && k <= |ls|
  {
    Prefix(w, ls, k);
    Run(w, ls[..k])
  }

  lemma {:induction false} Prefix(w: World, ls: seq<Label>, k: nat)
    requires CanRun(w, ls) && k <= |ls|
    ensures CanRun(w, ls[..k])
    decreases |ls|
  {
    if k == |ls| {
      assert ls[..k] == ls;
    } else {
      Prefix(w, ls[..|ls| - 1], k);
      assert ls[..|ls| - 1][..k] == ls[..k];
    }
  }

  lemma Consistent(w: World, ls: seq<Label>, k: nat)
    requires CanRun(w, ls) && k <= |ls|
    ensures Inv(w, After(w, ls, k))
  {
    Prefix(w, ls, k);
    EveryRunIsConsistent(w, ls[..k]);
  }

  lemma {:induction false} Between(w: World, ls: seq<Label>, j: nat, k: nat)
    requires CanRun(w, ls) && j <= k <= |ls|
    ensures Later(After(w, ls, j), After(w, ls, k))
    decreases k
  {
    if j == k {
      LaterItself(After(w, ls, j));
    } else {
      Between(w, ls, j, k - 1);
      NextIsLater(w, ls, k);
      LaterOn(After(w, ls, j), After(w, ls, k - 1), After(w, ls, k));
    }
  }

  lemma NextIsLater(w: World, ls: seq<Label>, k: nat)
    requires CanRun(w, ls) && 0 < k <= |ls|
    ensures Later(After(w, ls, k - 1), After(w, ls, k))
  {
    Consistent(w, ls, k - 1);
    OneStep(w, ls, k - 1);
  }

  lemma OneStep(w: World, ls: seq<Label>, k: nat)
    requires CanRun(w, ls) && k < |ls| && P.Inv(w.c, After(w, ls, k).post.p)
    ensures Later(After(w, ls, k), After(w, ls, k + 1))
    ensures Enabled(w, After(w, ls, k), ls[k]) && After(w, ls, k + 1) == Do(w, After(w, ls, k), ls[k])
  {
    Prefix(w, ls, k + 1);
    assert ls[..k + 1][..k] == ls[..k];
    StepGrows(w, After(w, ls, k), ls[k]);
  }

  // ----- From the stream to the socket -----

  lemma OffersGrow(calls: seq<Call>, call: Call)
    ensures Offers(calls + [call]) == Offers(calls) + H.OffersOf(call.e)
  {
    assert (calls + [call])[..|calls|] == calls;
  }

  lemma Regroup<T>(a: seq<T>, b: seq<T>, c: seq<T>)
    ensures a + b + c == a + (b + c)
  {
  }

  lemma {:induction false} OffersOn(calls: seq<Call>, more: seq<Call>)
    ensures Offers(calls + more) == Offers(calls) + Offers(more)
    decreases |more|
  {
    if more == [] {
      assert calls + more == calls;
    } else {
      var init, last := more[..|more| - 1], more[|more| - 1];
      OffersOn(calls, init);
      Regroup(calls, init, [last]);
      OffersGrow(calls + init, last);
      OffersGrow(init, last);
      Regroup(Offers(calls), Offers(init), H.OffersOf(last.e));
      assert init + [last] == more;
    }
  }

  /** The hub offered the payload to the user at position `lo` of its history or later. */
  ghost predicate OfferedSince(offers: seq<H.Offer>, lo: nat, user: nat, payload: string) {
    exists j :: lo <= j < |offers| && offers[j] == H.Offer(user, payload)
  }

  lemma ServedIsOffered(calls: seq<Call>, k: nat, user: nat)
    requires k < |calls| && user in calls[k].e.users
    ensures OfferedSince(Offers(calls), |Offers(calls[..k])|, user, calls[k].e.payload)
  {
    var e, before, after := calls[k].e, calls[..k], calls[k + 1..];
    assert calls == before + [calls[k]] + after;
    OffersOn(before + [calls[k]], after);
    OffersGrow(before, calls[k]);
    OfferedInside(Offers(before), e, Offers(after), user);
  }

  lemma OfferedInside(before: seq<H.Offer>, e: H.Envelope, after: seq<H.Offer>, user: nat)
    requires user in e.users
    ensures OfferedSince(before + H.OffersOf(e) + after, |before|, user, e.payload)
  {
    var u :| 0 <= u < |e.users| && e.users[u] == user;
    assert (before + H.OffersOf(e) + after)[|before| + u] == H.Offer(user, e.payload);
  }

  lemma OffersShorter(calls: seq<Call>, k: nat)
    requires k <= |calls|
    ensures |Offers(calls[..k])| <= |Offers(calls)|
  {
    OffersOn(calls[..k], calls[k..]);
    assert calls == calls[..k] + calls[k..];
  }

  lemma ServedAreOlder(w: World, s: Node, served: seq<Call>)
    requires QueueOk(w, s) && s.served <= served
    ensures forall k :: 0 <= k < |s.served| ==> served[k].at < |Log(s)|
  {
    forall k | 0 <= k < |s.served| ensures served[k].at < |Log(s)| {
      assert served[k] == s.served[k] == (s.served + s.pending)[k];
      assert CallOk(w, s.post, StartOf(s), s.cursor, (s.served + s.pending)[k]);
    }
  }

  /** An entry that comes to the stream after `s` is served after everything served in `s`. */
  lemma ServedLater(w: World, s: Node, s': Node, k: nat, user: nat)
    requires QueueOk(w, s) && QueueOk(w, s') && Later(s, s')
    requires k < |s'.served| && s'.served[k].at >= |Log(s)| && user in s'.served[k].e.users
    ensures OfferedSince(s'.hub.offers, |s.hub.offers|, user, s'.served[k].e.payload)
  {
    ServedAreOlder(w, s, s'.served);
    ServedIsOffered(s'.served, k, user);
    OffersShorter(s'.served[..k], |s.served|);
    assert s'.served[..k][..|s.served|] == s.served;
  }

  lemma {:induction false} ForUserHas(offers: seq<H.Offer>, lo: nat, hi: nat, j: nat)
    requires lo <= j < hi <= |offers|
    ensures offers[j].payload in H.ForUser(offers, lo, hi, offers[j].user)
    decreases hi
  {
    if j == hi - 1 {
    } else {
      ForUserHas(offers, lo, hi - 1, j);
    }
  }

  /** A live socket has every frame offered to its user since it came. */
  lemma OfferedIsFramed(h: H.State, id: nat, payload: string)
    requires H.Inv(h) && H.Live(h, id) && OfferedSince(h.offers, h.sockets[id].since, h.sockets[id].user, payload)
    ensures payload in H.Frames(h.sockets[id])
  {
    var k := h.sockets[id];
    assert H.SocketOk(h.offers, true, k);
    var j :| k.since <= j < |h.offers| && h.offers[j] == H.Offer(k.user, payload);
    ForUserHas(h.offers, k.since, |h.offers|, j);
  }

  // ----- What was missed -----

  /** The fan-out has not come to the entry, or the hub has not come to its call. */
  predicate Coming(s: Node, i: nat) {
    s.start.None? || i >= s.cursor || Among(s.pending, i)
  }

  /** The entry never got to the hub: it is older than the subscription, was lost on the way, or was shed. */
  predicate Missed(s: Node, i: nat) {
    i in s.missed || (s.start.Some? && i < s.start.value)
  }

  lemma ServedInState(w: World, s: Node, i: nat)
    requires QueueOk(w, s)
    ensures Among(s.served, i) <==> !Coming(s, i) && !Missed(s, i)
  {
    var calls := s.served + s.pending;
    AmongMore(s.served, s.pending, i);
    if Among(s.served, i) {
      var k :| 0 <= k < |s.served| && s.served[k].at == i;
      assert calls[k] == s.served[k] && CallOk(w, s.post, StartOf(s), s.cursor, calls[k]);
      forall j | 0 <= j < |s.pending| ensures s.pending[j].at != i {
        assert calls[|s.served| + j] == s.pending[j];
      }
    }
  }

  /** In every run the hub has served exactly the entries that are neither still coming nor missed. */
  lemma ServedIff(w: World, ls: seq<Label>, i: nat)
    requires CanRun(w, ls)
    ensures var s := Run(w, ls); Among(s.served, i) <==> !Coming(s, i) && !Missed(s, i)
  {
    EveryRunIsConsistent(w, ls);
    ServedInState(w, Run(w, ls), i);
  }

  /** An entry missed once is never served, however the run goes on. */
  lemma MissedForGood(w: World, ls: seq<Label>, k: nat, i: nat)
    requires CanRun(w, ls) && k <= |ls| && Missed(After(w, ls, k), i)
    ensures Missed(Run(w, ls), i) && !Among(Run(w, ls).served, i)
  {
    assert ls[..|ls|] == ls;
    Between(w, ls, k, |ls|);
    ServedIff(w, ls, i);
  }

  /** The step passes over entry i: it is lost on the way, does not decode, is for nobody, or finds 256 calls waiting. */
  ghost predicate PassesOver(w: World, s: Node, l: Label, i: nat) {
    && s.cursor == i < |Log(s)|
    && (l.Lose?
        || (l.Take? && (Log(s)[i].payload.Junk? || i >= |s.post.envelopes| || s.post.envelopes[i] == []
                        || w.frame(Log(s)[i].payload.event) == "" || |s.pending| >= 256)))
  }

  ghost predicate PassedOver(w: World, ls: seq<Label>, i: nat)
    requires CanRun(w, ls)
  {
    exists k: nat :: PassedAt(w, ls, k, i)
  }

  ghost predicate PassedAt(w: World, ls: seq<Label>, k: nat, i: nat)
    requires CanRun(w, ls)
  {
    k < |ls| && PassesOver(w, After(w, ls, k), ls[k], i)
  }

  lemma StepMisses(w: World, s: Node, l: Label, i: nat)
    requires Enabled(w, s, l)
    ensures i in Do(w, s, l).missed <==> i in s.missed || PassesOver(w, s, l, i)
  {
  }

  lemma PassedBefore(w: World, ls: seq<Label>, k: nat, i: nat)
    requires CanRun(w, ls) && ls != [] && k < |ls| - 1
    ensures PassedAt(w, ls, k, i) <==> PassedAt(w, ls[..|ls| - 1], k, i)
  {
    assert ls[..|ls| - 1][..k] == ls[..k];
  }

  lemma PassedNow(w: World, ls: seq<Label>, i: nat)
    requires CanRun(w, ls) && ls != []
    ensures PassedAt(w, ls, |ls| - 1, i) <==> PassesOver(w, Run(w, ls[..|ls| - 1]), ls[|ls| - 1], i)
  {
  }

  lemma PassedOverThen(w: World, ls: seq<Label>, i: nat)
    requires CanRun(w, ls) && ls != []
    ensures PassedOver(w, ls, i) <==> PassedOver(w, ls[..|ls| - 1], i) || PassedAt(w, ls, |ls| - 1, i)
  {
    var init, last := ls[..|ls| - 1], |ls| - 1;
    if PassedOver(w, init, i) {
      var k: nat :| PassedAt(w, init, k, i);
      PassedBefore(w, ls, k, i);
    }
    if PassedOver(w, ls, i) {
      var k: nat :| PassedAt(w, ls, k, i);
      if k < last {
        PassedBefore(w, ls, k, i);
      }
    }
  }

  /** An entry is counted as missed exactly when some step of the run passed over it. */
  lemma {:induction false} MissedIff(w: World, ls: seq<Label>, i: nat)
    requires CanRun(w, ls)
    ensures i in Run(w, ls).missed <==> PassedOver(w, ls, i)
    decreases |ls|
  {
    if ls == [] {
    } else {
      var init := ls[..|ls| - 1];
      MissedIff(w, init, i);
      PassedOverThen(w, ls, i);
      PassedNow(w, ls, i);
      StepMisses(w, Run(w, init), ls[|init|], i);
    }
  }

  // ----- Whose frames they are -----

  lemma {:induction false} OfferOf(offers: seq<H.Offer>, lo: nat, hi: nat, user: nat, payload: string) returns (j: nat)
    requires hi <= |offers| && payload in H.ForUser(offers, lo, hi, user)
    ensures j < |offers| && offers[j] == H.Offer(user, payload)
    decreases hi
  {
    if offers[hi - 1] == H.Offer(user, payload) {
      j := hi - 1;
    } else {
      j := OfferOf(offers, lo, hi - 1, user, payload);
    }
  }

  lemma {:induction false} CallOfOffer(calls: seq<Call>, j: nat) returns (k: nat)
    requires j < |Offers(calls)|
    ensures k < |calls| && Offers(calls)[j].user in calls[k].e.users && Offers(calls)[j].payload == calls[k].e.payload
    decreases |calls|
  {
    var init := calls[..|calls| - 1];
    if j < |Offers(init)| {
      k := CallOfOffer(init, j);
    } else {
      k := |calls| - 1;
      assert Offers(calls)[j] == H.OffersOf(calls[k].e)[j - |Offers(init)|];
    }
  }

  /** The frame is a message of a room that the user is a member of. */
  ghost predicate OfTheirRooms(w: World, s: Node, user: nat, payload: string) {
    exists i: nat :: OfTheirRoom(w, s, user, payload, i)
  }

  ghost predicate OfTheirRoom(w: World, s: Node, user: nat, payload: string, i: nat) {
    && i < |Log(s)| && Log(s)[i].payload.Readable? && w.frame(Log(s)[i].payload.event) == payload
    && user in E.MembersOf(s.post, Log(s)[i].payload.event.room)
  }

  /** No socket is ever given a message of a room that its user is not a member of. */
  lemma FramesAreForMembers(w: World, ls: seq<Label>, id: nat, payload: string)
    requires CanRun(w, ls) && id in Run(w, ls).hub.sockets && payload in H.Frames(Run(w, ls).hub.sockets[id])
    ensures OfTheirRooms(w, Run(w, ls), Run(w, ls).hub.sockets[id].user, payload)
  {
    EveryRunIsConsistent(w, ls);
    FramesInState(w, Run(w, ls), id, payload);
  }

  lemma FramesInState(w: World, s: Node, id: nat, payload: string)
    requires Inv(w, s) && id in s.hub.sockets && payload in H.Frames(s.hub.sockets[id])
    ensures OfTheirRooms(w, s, s.hub.sockets[id].user, payload)
  {
    var k := s.hub.sockets[id];
    assert H.SocketOk(s.hub.offers, H.Live(s.hub, id), k);
    var j := OfferOf(s.hub.offers, k.since, if H.Live(s.hub, id) then |s.hub.offers| else k.until, k.user, payload);
    var n := CallOfOffer(s.served, j);
    ServedNamesMembers(w, s, n, k.user);
    assert OfTheirRoom(w, s, k.user, payload, s.served[n].at);
  }

  lemma ServedNamesMembers(w: World, s: Node, n: nat, user: nat)
    requires E.Inv(w.c, s.post) && QueueOk(w, s) && n < |s.served| && user in s.served[n].e.users
    ensures OfTheirRoom(w, s, user, s.served[n].e.payload, s.served[n].at)
  {
    assert s.served[n] == (s.served + s.pending)[n];
    assert CallOk(w, s.post, StartOf(s), s.cursor, (s.served + s.pending)[n]);
    E.OnlyMembersAreNamed(w.c, s.post, s.served[n].at);
  }
}
