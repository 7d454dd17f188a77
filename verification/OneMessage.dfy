// The smallest start for a run about one message: a room, a message in it, and its row in the outbox.

module OneMessage {
  import opened Schema
  import W = Writers
  import P = Pipeline
  import S = Sending

  const REQUEST := Request(1, 2, "", "", None)
  const EVENT := EventOf(REQUEST, 1, 1)
  const ROW := P.Row(1, Readable(EVENT))

  /** One room with one committed message, whose row waits in the outbox. */
  function Committed(): W.Db {
    W.Db(Tables(map[1 := Room(1, false)], map[1 := MessageOf(REQUEST, 1)], map[1 := OutboxRow(ROW.payload, None, 0)], 2, 2),
         map[], map[1 := ROW.payload])
  }

  lemma IsReachable() returns (ws: seq<W.Label>)
    ensures W.CanRun(W.EMPTY, ws) && W.Run(W.EMPTY, ws) == Committed()
  {
    var db := W.Do(W.EMPTY, W.CreateRoom(1));
    S.Stored(db, REQUEST);
    W.ReachesItself(W.EMPTY);
    W.ReachesStep(W.EMPTY, W.EMPTY, W.CreateRoom(1));
    W.ReachesOn(W.EMPTY, db, S.WithMessage(db, REQUEST));
    assert S.WithMessage(db, REQUEST) == Committed();
    ws :| W.CanRun(W.EMPTY, ws) && W.Run(W.EMPTY, ws) == Committed();
  }

  lemma IsFetched()
    ensures P.IsBatch(Committed().t.outbox, P.BATCH, [ROW])
  {
    assert [ROW][0].id == 1;
  }
}
