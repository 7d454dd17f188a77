// A socket that is registered before its node subscribes: what the stream takes in between never comes to it.

module LateSubscriber {
  import opened Schema
  import opened FanOut
  import W = Writers
  import D = Delivery
  import P = Pipeline
  import E = Envelopes
  import H = Hub
  import opened OneMessage

  ghost predicate At(w: World, ls: seq<Label>, s: Node) {
    CanRun(w, ls) && Run(w, ls) == s
  }

  lemma Next(w: World, ls: seq<Label>, s: Node, l: Label) returns (ls': seq<Label>, s': Node)
    requires At(w, ls, s) && Enabled(w, s, l)
    ensures At(w, ls', s') && s' == Do(w, s, l)
  {
    ls', s' := ls + [l], Do(w, s, l);
    assert ls'[..|ls'| - 1] == ls;
  }

  function WithPipe(s: Node, p: P.State): Node {
    s.(post := s.post.(p := p))
  }

  /** A step of the pipeline that does not touch the stream. */
  lemma NextPipe(w: World, ls: seq<Label>, s: Node, l: P.Label) returns (ls': seq<Label>, s': Node)
    requires At(w, ls, s) && P.Enabled(w.c, s.post.p, l) && !l.Send? && !l.Take?
    requires P.Do(w.c, s.post.p, l).d.stream == s.post.p.d.stream
    ensures At(w, ls', s') && s' == WithPipe(s, P.Do(w.c, s.post.p, l))
  {
    ls', s' := Next(w, ls, s, Pipe(E.Other(l)));
  }

  lemma {:induction false} Writes(w: World, ls: seq<Label>, s: Node, ws: seq<W.Label>) returns (ls': seq<Label>, s': Node)
    requires At(w, ls, s) && W.CanRun(s.post.p.db, ws)
    ensures At(w, ls', s') && s' == WithPipe(s, s.post.p.(db := W.Run(s.post.p.db, ws)))
    decreases |ws|
  {
    if ws == [] {
      ls', s' := ls, s;
    } else {
      ls', s' := NextPipe(w, ls, s, P.Writer(ws[0]));
      ls', s' := Writes(w, ls', s', ws[1..]);
    }
  }

  /** A relay that took the lock and fetched the row. */
  lemma Fetched(w: World, ls: seq<Label>, s: Node) returns (ls': seq<Label>, s': Node)
    requires At(w, ls, s) && s.post.p.db == Committed() && s.post.p.relays == map[] && s.post.p.lock.None?
    ensures At(w, ls', s')
    ensures s' == WithPipe(s, s.post.p.(relays := map[0 := P.Draining([ROW], 0, false, false)], lock := Some(0)))
  {
    ls', s' := NextPipe(w, ls, s, P.TryLock(0));
    IsFetched();
    ls', s' := NextPipe(w, ls', s', P.Fetch(0, [ROW]));
    assert s'.post.p.relays == map[0 := P.Draining([ROW], 0, false, false)];
  }

  lemma Sent(w: World, ls: seq<Label>, s: Node, user: nat) returns (ls': seq<Label>, s': Node)
    requires At(w, ls, s) && P.RelayOf(s.post.p, 0) == P.Draining([ROW], 0, false, false)
    requires E.MembersOf(s.post, 1) == {user}
    ensures At(w, ls', s') && s' == s.(post := s'.post) && s'.post.envelopes == s.post.envelopes
    ensures s'.post.p.d == s.post.p.d && ROW in s'.post.p.net && [user] in E.ListsOf(s'.post, 1)
  {
    ls', s' := Next(w, ls, s, Pipe(E.Label.Send(0, [user])));
  }

  lemma Taken(w: World, ls: seq<Label>, s: Node, user: nat) returns (ls': seq<Label>, s': Node)
    requires At(w, ls, s) && ROW in s.post.p.net && [user] in E.ListsOf(s.post, 1)
    requires s.post.p.d.stream == D.Stream([], map[]) && s.post.envelopes == []
    ensures At(w, ls', s') && s' == s.(post := s'.post) && |Log(s')| == 1 && s'.post.envelopes == [[user]]
  {
    ls', s' := Next(w, ls, s, Pipe(E.Label.Take(ROW, [user])));
  }

  /** A member's socket is registered, a message of the room committed, and nobody drains or listens yet. */
  ghost predicate Ready(s: Node, id: nat, user: nat) {
    && s.start.None? && s.pending == [] && H.Live(s.hub, id)
    && s.post.p.db == Committed() && s.post.p.relays == map[] && s.post.p.lock.None?
    && s.post.p.d.stream == D.Stream([], map[]) && E.MembersOf(s.post, 1) == {user}
    && s.post.lists == map[] && s.post.envelopes == []
  }

  lemma GetsReady(w: World, id: nat, user: nat) returns (ls: seq<Label>, s: Node)
    ensures At(w, ls, s) && Ready(s, id, user)
  {
    var ws := IsReachable();
    assert CanRun(w, []) && Run(w, []) == EMPTY;
    ls, s := Next(w, [], EMPTY, Sockets(H.Label.Register(id, user)));
    ls, s := NextPipe(w, ls, s, P.Broker(D.Join(1, user)));
    ls, s := Writes(w, ls, s, ws);
  }

  /** The stream takes the message before the node subscribes. */
  lemma TakenTooEarly(w: World, id: nat, user: nat) returns (ls: seq<Label>, s: Node)
    ensures At(w, ls, s) && s.start.None? && s.pending == [] && H.Live(s.hub, id)
    ensures |Log(s)| == 1 && s.post.envelopes == [[user]]
  {
    ls, s := GetsReady(w, id, user);
    ls, s := Fetched(w, ls, s);
    ls, s := Sent(w, ls, s, user);
    ls, s := Taken(w, ls, s, user);
  }

  /**
   * It does happen: a member's socket is registered before the node subscribes, a message of the room enters the stream
   * in between and names the member, and however the run goes on it is never served.
   */
  lemma NeverServed(w: World, id: nat, user: nat) returns (ls: seq<Label>)
    ensures CanRun(w, ls) && H.Live(Run(w, ls).hub, id) && |Log(Run(w, ls))| == 1 && Run(w, ls).post.envelopes == [[user]]
    ensures Missed(Run(w, ls), 0) && !Coming(Run(w, ls), 0)
    ensures forall more :: CanRun(w, ls + more) ==> !Among(Run(w, ls + more).served, 0)
  {
    var s;
    ls, s := TakenTooEarly(w, id, user);
    ls, s := Next(w, ls, s, Subscribe);
    forall more | CanRun(w, ls + more) ensures !Among(Run(w, ls + more).served, 0) {
      assert (ls + more)[..|ls|] == ls;
      MissedForGood(w, ls + more, |ls|, 0);
    }
  }
}
