// The member lists that travel with the messages: the relay reads a room's members when it sends a row, and the stream
// keeps the list that came with the copy it took.

module Envelopes {
  import opened Schema
  import W = Writers
  import D = Delivery
  import U = Unread
  import P = Pipeline

  /** History: `lists` has every member list sent with a row, `envelopes` the one kept with each entry of the stream. */
  datatype State = State(p: P.State, lists: map<nat, set<seq<nat>>>, envelopes: seq<seq<nat>>)

  datatype Label = Other(l: P.Label) | Send(n: nat, users: seq<nat>) | Take(row: P.Row, users: seq<nat>)

  function Log(s: State): seq<D.Entry> {
    s.p.d.stream.log
  }

  function MembersOf(s: State, room: nat): set<nat> {
    U.Members(s.p.d.ledger.unread, room)
  }

  function ListsOf(s: State, id: nat): set<seq<nat>> {
    if id in s.lists then s.lists[id] else {}
  }

  /** The row relay n is at. */
  function RowAt(s: State, n: nat): P.Row
    requires P.AtRow(P.RelayOf(s.p, n))
  {
    P.RelayOf(s.p, n).batch[P.RelayOf(s.p, n).pos]
  }

  ghost predicate IsListOf(users: seq<nat>, members: set<nat>) {
    (forall u :: u in users <==> u in members) && forall i, j :: 0 <= i < j < |users| ==> users[i] != users[j]
  }

  ghost predicate Enabled(c: D.Config, s: State, l: Label) {
    match l
    case Other(pl) => !pl.Send? && !pl.Take? && P.Enabled(c, s.p, pl)
    case Send(n, users) =>
      P.Enabled(c, s.p, P.Label.Send(n)) && IsListOf(users, MembersOf(s, RowAt(s, n).payload.event.room))
    case Take(row, users) => P.Enabled(c, s.p, P.Label.Take(row)) && users in ListsOf(s, row.id)
  }

  /** The envelopes of a log that may have got one more entry. */
  function Kept(envelopes: seq<seq<nat>>, log: seq<D.Entry>, log': seq<D.Entry>, users: seq<nat>): seq<seq<nat>> {
    if |log'| > |log| then envelopes + [users] else envelopes
  }

  ghost function Do(c: D.Config, s: State, l: Label): State
    requires Enabled(c, s, l)
  {
    match l
    case Other(pl) =>
      var p' := P.Do(c, s.p, pl);
      s.(p := p', envelopes := Kept(s.envelopes, Log(s), p'.d.stream.log, []))
    case Send(n, users) =>
      var id := RowAt(s, n).id;
      s.(p := P.Do(c, s.p, P.Label.Send(n)), lists := s.lists[id := ListsOf(s, id) + {users}])
    case Take(row, users) =>
      var p' := P.Do(c, s.p, P.Label.Take(row));
      s.(p := p', envelopes := Kept(s.envelopes, Log(s), p'.d.stream.log, users))
  }

  const EMPTY := State(P.EMPTY, map[], [])

  // ----- What every step keeps -----

  ghost predicate ListsOk(journal: map<nat, Payload>, lists: map<nat, set<seq<nat>>>) {
    forall id :: id in lists ==> id in journal && journal[id].Readable?
  }

  ghost predicate PostedOk(log: seq<D.Entry>, lists: map<nat, set<seq<nat>>>, envelopes: seq<seq<nat>>) {
    && |envelopes| == |log|
    && (forall i :: 0 <= i < |log| && log[i].payload.Readable? ==>
          log[i].outboxId in lists && envelopes[i] in lists[log[i].outboxId])
  }

  /** A list for message row `id` names members of its room, each once. */
  ghost predicate NamesMembers(journal: map<nat, Payload>, unread: U.State, id: nat, list: seq<nat>) {
    && id in journal && journal[id].Readable?
    && (forall u :: u in list ==> u in U.Members(unread, journal[id].event.room))
    && (forall i, j :: 0 <= i < j < |list| ==> list[i] != list[j])
  }

  ghost predicate AllNameMembers(journal: map<nat, Payload>, unread: U.State, lists: map<nat, set<seq<nat>>>) {
    forall id, list :: id in lists && list in lists[id] ==> NamesMembers(journal, unread, id, list)
  }

  ghost predicate Inv(c: D.Config, s: State) {
    && P.Inv(c, s.p) && ListsOk(s.p.db.journal, s.lists) && PostedOk(Log(s), s.lists, s.envelopes)
    && AllNameMembers(s.p.db.journal, s.p.d.ledger.unread, s.lists)
  }

  /** What a step of the pipeline does to the log: nothing, or one more entry at its end. */
  lemma LogStep(c: D.Config, s: P.State, l: P.Label)
    requires P.Enabled(c, s, l)
    ensures var log, log' := s.d.stream.log, P.Do(c, s, l).d.stream.log;
            log' == log
            || (|log'| == |log| + 1 && log' == log + [log'[|log|]]
                && (if l.Take? then log'[|log|].outboxId == l.p.id else log'[|log|].payload.Junk?))
    ensures l.Send? ==> P.Do(c, s, l).d == s.d && P.Do(c, s, l).db == s.db
  {
  }

  lemma JournalStep(c: D.Config, s: P.State, l: P.Label)
    requires P.Inv(c, s) && P.Enabled(c, s, l)
    ensures forall id :: id in s.db.journal ==> id in P.Do(c, s, l).db.journal && P.Do(c, s, l).db.journal[id] == s.db.journal[id]
  {
    if l.Writer? {
      P.WriterJournal(s.db, l.w);
    }
  }

  lemma MembersStep(c: D.Config, s: P.State, l: P.Label, room: nat)
    requires P.Enabled(c, s, l)
    ensures U.Members(s.d.ledger.unread, room) <= U.Members(P.Do(c, s, l).d.ledger.unread, room)
  {
  }

  lemma TablesStep(c: D.Config, s: P.State, l: P.Label)
    requires P.Inv(c, s) && P.Enabled(c, s, l)
    ensures W.Extends(s.db.t, P.Do(c, s, l).db.t)
  {
    if l.Writer? {
      W.StepExtends(s.db, l.w);
    } else {
      TablesStay(c, s, l);
    }
  }

  lemma TablesStay(c: D.Config, s: P.State, l: P.Label)
    requires P.Enabled(c, s, l) && !l.Writer?
    ensures P.Do(c, s, l).db.t.rooms == s.db.t.rooms && P.Do(c, s, l).db.t.messages == s.db.t.messages
  {
  }

  /** The step of the pipeline that this is. */
  function StepOf(l: Label): P.Label {
    match l
    case Other(pl) => pl
    case Send(n, _) => P.Label.Send(n)
    case Take(row, _) => P.Label.Take(row)
  }

  lemma PostStep(log: seq<D.Entry>, log': seq<D.Entry>, lists: map<nat, set<seq<nat>>>, envelopes: seq<seq<nat>>, users: seq<nat>)
    requires PostedOk(log, lists, envelopes)
    requires log' == log
             || (|log'| == |log| + 1 && log' == log + [log'[|log|]]
                 && (log'[|log|].payload.Readable? ==> log'[|log|].outboxId in lists && users in lists[log'[|log|].outboxId]))
    ensures PostedOk(log', lists, Kept(envelopes, log, log', users))
  {
  }

  lemma SameNames(journal: map<nat, Payload>, unread: U.State, journal': map<nat, Payload>, unread': U.State, lists: map<nat, set<seq<nat>>>)
    requires AllNameMembers(journal, unread, lists)
    requires forall id :: id in journal ==> id in journal' && journal'[id] == journal[id]
    requires forall room :: U.Members(unread, room) <= U.Members(unread', room)
    ensures AllNameMembers(journal', unread', lists)
  {
    forall id, list | id in lists && list in lists[id] ensures NamesMembers(journal', unread', id, list) {
      assert NamesMembers(journal, unread, id, list);
    }
  }

  lemma NewName(journal: map<nat, Payload>, unread: U.State, lists: map<nat, set<seq<nat>>>, row: P.Row, users: seq<nat>)
    requires AllNameMembers(journal, unread, lists) && row.id in journal && journal[row.id] == row.payload && row.payload.Readable?
    requires IsListOf(users, U.Members(unread, row.payload.event.room))
    ensures AllNameMembers(journal, unread, lists[row.id := (if row.id in lists then lists[row.id] else {}) + {users}])
  {
    assert NamesMembers(journal, unread, row.id, users);
  }

  lemma NamesStep(c: D.Config, s: State, l: Label)
    requires Inv(c, s) && Enabled(c, s, l)
    ensures AllNameMembers(Do(c, s, l).p.db.journal, Do(c, s, l).p.d.ledger.unread, Do(c, s, l).lists)
  {
    if l.Send? {
      SentRow(c, s, l.n);
      LogStep(c, s.p, P.Label.Send(l.n));
      NewName(s.p.db.journal, s.p.d.ledger.unread, s.lists, RowAt(s, l.n), l.users);
    } else {
      JournalStep(c, s.p, StepOf(l));
      forall room ensures U.Members(s.p.d.ledger.unread, room) <= U.Members(Do(c, s, l).p.d.ledger.unread, room) {
        MembersStep(c, s.p, StepOf(l), room);
      }
      SameNames(s.p.db.journal, s.p.d.ledger.unread, Do(c, s, l).p.db.journal, Do(c, s, l).p.d.ledger.unread, s.lists);
    }
  }

  /** Every envelope on the stream names members of its message's room, each once, and nobody else. */
  lemma OnlyMembersAreNamed(c: D.Config, s: State, i: nat)
    requires Inv(c, s) && i < |Log(s)| && Log(s)[i].payload.Readable?
    ensures i < |s.envelopes| && (forall u :: u in s.envelopes[i] ==> u in MembersOf(s, Log(s)[i].payload.event.room))
    ensures forall j, k :: 0 <= j < k < |s.envelopes[i]| ==> s.envelopes[i][j] != s.envelopes[i][k]
  {
    assert NamesMembers(s.p.db.journal, s.p.d.ledger.unread, Log(s)[i].outboxId, s.envelopes[i]);
  }

  lemma StepKeepsInv(c: D.Config, s: State, l: Label)
    requires Inv(c, s) && Enabled(c, s, l)
    ensures Inv(c, Do(c, s, l))
  {
    var s', pl := Do(c, s, l), StepOf(l);
    P.StepKeepsInv(c, s.p, pl);
    NamesStep(c, s, l);
    LogStep(c, s.p, pl);
    JournalStep(c, s.p, pl);
    match l
    case Other(_) => PostStep(Log(s), Log(s'), s.lists, s.envelopes, []);
    case Send(n, users) => SentListOk(c, s, n, users);
    case Take(_, users) => PostStep(Log(s), Log(s'), s.lists, s.envelopes, users);
  }

  lemma SentListOk(c: D.Config, s: State, n: nat, users: seq<nat>)
    requires Inv(c, s) && Enabled(c, s, Send(n, users))
    ensures var s' := Do(c, s, Send(n, users)); ListsOk(s'.p.db.journal, s'.lists) && PostedOk(Log(s'), s'.lists, s'.envelopes)
  {
    LogStep(c, s.p, P.Label.Send(n));
    SentRow(c, s, n);
  }

  lemma StartIsConsistent(c: D.Config)
    ensures Inv(c, EMPTY)
  {
    P.StartIsConsistent(c);
  }

  // ----- Growth -----

  /** `s'` comes later in a run than `s`: rows, entries, envelopes and members only come, and none goes. */
  ghost predicate Later(s: State, s': State) {
    && W.Extends(s.p.db.t, s'.p.db.t)
    && Log(s) <= Log(s') && s.envelopes <= s'.envelopes
    && (forall room :: MembersOf(s, room) <= MembersOf(s', room))
  }

  lemma StepGrows(c: D.Config, s: State, l: Label)
    requires P.Inv(c, s.p) && Enabled(c, s, l)
    ensures Later(s, Do(c, s, l))
  {
    TablesStep(c, s.p, StepOf(l));
    LogStep(c, s.p, StepOf(l));
    forall room ensures MembersOf(s, room) <= MembersOf(Do(c, s, l), room) {
      MembersStep(c, s.p, StepOf(l), room);
    }
  }

  lemma LaterOn(a: State, b: State, c: State)
    requires Later(a, b) && Later(b, c)
    ensures Later(a, c)
  {
    W.ExtendsTransitive(a.p.db.t, b.p.db.t, c.p.db.t);
    forall room ensures MembersOf(a, room) <= MembersOf(c, room) {
      assert MembersOf(a, room) <= MembersOf(b, room) <= MembersOf(c, room);
    }
  }

  // ----- Who is named -----

  predicate RowTells(journal: map<nat, Payload>, id: nat, room: nat, n: nat) {
    id in journal && journal[id].Readable? && journal[id].event.room == room && journal[id].event.seqNo == n
  }

  /** The user is in the room, and every list ever sent with message n of the room names them. */
  ghost predicate Named(s: State, room: nat, n: nat, user: nat) {
    && user in MembersOf(s, room)
    && (forall id, list :: id in s.lists && list in s.lists[id] && RowTells(s.p.db.journal, id, room, n) ==> user in list)
  }

  /** Before the message is committed nothing was sent about it. */
  lemma NamedAtFirst(c: D.Config, s: State, room: nat, n: nat, user: nat)
    requires Inv(c, s) && user in MembersOf(s, room) && room in s.p.db.t.rooms && n > s.p.db.t.rooms[room].lastSeq
    ensures Named(s, room, n, user)
  {
    forall id | id in s.lists ensures !RowTells(s.p.db.journal, id, room, n) {
      assert W.TellsTruth(s.p.db.t.messages, s.p.db.journal[id].event);
    }
  }

  /** One more list for one row: if the row is about the message, the list names the user. */
  lemma OneMoreList(s: State, s': State, row: P.Row, users: seq<nat>, room: nat, n: nat, user: nat)
    requires ListsOk(s.p.db.journal, s.lists) && Named(s, room, n, user) && user in MembersOf(s', room)
    requires s'.p.db == s.p.db && s'.lists == s.lists[row.id := ListsOf(s, row.id) + {users}]
    requires RowTells(s.p.db.journal, row.id, room, n) ==> user in users
    ensures Named(s', room, n, user)
  {
  }

  lemma NoNewList(s: State, s': State, room: nat, n: nat, user: nat)
    requires ListsOk(s.p.db.journal, s.lists) && Named(s, room, n, user) && user in MembersOf(s', room) && s'.lists == s.lists
    requires forall id :: id in s.p.db.journal ==> id in s'.p.db.journal && s'.p.db.journal[id] == s.p.db.journal[id]
    ensures Named(s', room, n, user)
  {
    forall id, list | id in s.lists && list in s.lists[id] && RowTells(s'.p.db.journal, id, room, n) ensures user in list {
      assert RowTells(s.p.db.journal, id, room, n);
    }
  }

  lemma StepKeepsNamed(c: D.Config, s: State, l: Label, room: nat, n: nat, user: nat)
    requires Inv(c, s) && Enabled(c, s, l) && Named(s, room, n, user)
    ensures Named(Do(c, s, l), room, n, user)
  {
    MembersStep(c, s.p, StepOf(l), room);
    if l.Send? {
      SentRow(c, s, l.n);
      OneMoreList(s, Do(c, s, l), RowAt(s, l.n), l.users, room, n, user);
    } else {
      JournalStep(c, s.p, StepOf(l));
      NoNewList(s, Do(c, s, l), room, n, user);
    }
  }

  lemma SentRow(c: D.Config, s: State, n: nat)
    requires Inv(c, s) && P.Enabled(c, s.p, P.Label.Send(n))
    ensures var row := RowAt(s, n); row.id in s.p.db.journal && s.p.db.journal[row.id] == row.payload && row.payload.Readable?
    ensures P.Do(c, s.p, P.Label.Send(n)).db == s.p.db
  {
    RowInJournal(s.p.db, s.p.d, P.RelayOf(s.p, n).batch, P.RelayOf(s.p, n).pos);
  }

  lemma RowInJournal(db: W.Db, d: D.State, batch: seq<P.Row>, pos: nat)
    requires P.BatchOk(db, d, batch, pos) && pos < |batch|
    ensures batch[pos].id in db.journal && db.journal[batch[pos].id] == batch[pos].payload
  {
  }

  /** What the stream keeps about the message names the user too. */
  lemma NamedOnStream(c: D.Config, s: State, room: nat, n: nat, user: nat, i: nat)
    requires Inv(c, s) && Named(s, room, n, user) && i < |Log(s)| && Log(s)[i].payload.Readable?
    requires Log(s)[i].payload.event.room == room && Log(s)[i].payload.event.seqNo == n
    ensures user in s.envelopes[i]
  {
    assert RowTells(s.p.db.journal, Log(s)[i].outboxId, room, n);
  }
}
