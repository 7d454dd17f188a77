// The rows of the Postgres tables and the event that travels from the outbox to the sockets.

module Schema {

  datatype Option<+T> = None | Some(value: T)

  /** One message event: what the outbox row stores and what the broker carries. */
  datatype Event = MessageCreated(
    messageId: nat, room: nat, sender: nat, senderName: string,
    seqNo: nat, content: string, key: Option<string>)

  /** The bytes of an outbox row or of a broker message: an event, or something that does not decode. */
  datatype Payload = Readable(event: Event) | Junk

  /** `lastSeq` is the room's allocator; a soft-deleted room keeps its row. */
  datatype Room = Room(lastSeq: nat, deleted: bool)

  datatype Message = Message(room: nat, sender: nat, key: Option<string>, seqNo: nat, content: string)

  datatype OutboxRow = OutboxRow(payload: Payload, publishedAt: Option<nat>, attempts: nat)

  /** The committed tables, and the two id sequences, which a rollback never gives back. */
  datatype Tables = Tables(
    rooms: map<nat, Room>,
    messages: map<nat, Message>,
    outbox: map<nat, OutboxRow>,
    nextMessage: nat,
    nextOutbox: nat)

  /** What a caller of CreateMessage asks for. */
  datatype Request = Request(room: nat, sender: nat, senderName: string, content: string, key: Option<string>)

  function MessageOf(req: Request, seqNo: nat): Message {
    Message(req.room, req.sender, req.key, seqNo, req.content)
  }

  function EventOf(req: Request, seqNo: nat, id: nat): Event {
    MessageCreated(id, req.room, req.sender, req.senderName, seqNo, req.content, req.key)
  }

  /** The message row says what the request asked for, under this seq. */
  ghost predicate SaysRequest(m: Message, req: Request, seqNo: nat) {
    && m.room == req.room && m.sender == req.sender && m.key == req.key && m.content == req.content && m.seqNo == seqNo
  }

  /** The event tells everyone what the request asked for, under this seq and message id. */
  ghost predicate TellsRequest(e: Event, req: Request, seqNo: nat, id: nat) {
    && e.messageId == id && e.room == req.room && e.sender == req.sender && e.senderName == req.senderName
    && e.seqNo == seqNo && e.content == req.content && e.key == req.key
  }

  /** The event `e` tells the truth about message `id`, stored as `m`. */
  predicate Describes(e: Event, id: nat, m: Message) {
    e.messageId == id && e.room == m.room && e.sender == m.sender && e.seqNo == m.seqNo
    && e.content == m.content && e.key == m.key
  }

  predicate Pending(outbox: map<nat, OutboxRow>, id: nat) {
    id in outbox && outbox[id].publishedAt.None?
  }

  /** The unique index on (conversation_id, sender_id, client_msg_id); a missing key never collides. */
  predicate SameKey(m: Message, room: nat, sender: nat, key: Option<string>) {
    key.Some? && m.room == room && m.sender == sender && m.key == key
  }
}
