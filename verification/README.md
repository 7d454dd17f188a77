# Verification of the chat backend's message pipeline

This project models the parts of the chat backend that make it a distributed system, and proves what they promise: the
numbered write path with its outbox, the relay, the broker's stream and its durable consumer, the unread counters, the
gap read a reconnecting client repairs itself with, the WebSocket hub, the circuit breaker around the presence client,
the rate limiter, and the presence store.

Code that changes things in place is a class or a method with loops (`CreateMessage`, `Drain`, `ApplyUnread`,
`handleUnread`, `fetchGap`, the hub, the breaker, `call`, the limiter, the store). Concurrency is a labelled step
machine, and the method bodies are proved to be runs of those machines. Properties of runs hold for every interleaving.

| file | what it holds |
|---|---|
| `Schema.dfy` | rows, events, payloads |
| `Writers.dfy` | `CreateMessage` as interleaved transactions under a row lock; the gapless sequence |
| `Sending.dfy` | `CreateMessage` as the program runs it, proved to be a run of `Writers` |
| `Unread.dfy` | the counters and the inbox, and what a counter means |
| `Delivery.dfy` | the stream with its duplicate window, the durable consumer, handlers, acks, dead letters |
| `Retention.dfy` | how long the inbox must remember, exactly |
| `DeadLetters.dfy` | what becomes of a message whose dead-letter copy fails |
| `Consumer.dfy` | the unread tables and `handleUnread` as the program runs them |
| `Pipeline.dfy` | everything together: senders, any number of relays, a network that delays and repeats, broker, janitor |
| `Relay.dfy` | `Drain` and the leader's loop as the program runs them, proved to be runs of `Pipeline` |
| `Guarantees.dfy` | the end-to-end promises over runs of `Pipeline` |
| `Local.dfy` | the single-node mode: `LocalPublisher`, and every run of it as a run of `Pipeline` |
| `Envelopes.dfy` | the member lists that travel with the messages, beside the pipeline |
| `Paging.dfy` | the two list queries, the page handlers, `fetchGap`, the walk back through history |
| `FanOut.dfy` | one node beside the pipeline: its forward subscription, the hub's queue, its sockets coming and going |
| `LateSubscriber.dfy`, `OneMessage.dfy` | a run in which a socket is registered before its node subscribes, and the message it starts from |
| `Reconnect.dfy` | the client's merge, and "socket first, gap second" over runs of `FanOut` |
| `Hub.dfy` | the hub as a machine and as a class |
| `Breaker.dfy`, `PresenceClient.dfy` | the breaker, one logical call, and many calls around one breaker |
| `RateLimit.dfy` | the token bucket, its sweep, its rate bound and its wait |
| `Sets.dfy` | sizes of finite sets |
| `PresenceStore.dfy` | the sorted set of heartbeats against the full log of beats |

Assumed of the systems underneath: a row lock held to commit, atomic transactions, unique indexes, a broker that drops a
repeated message id inside its window and stops after MaxDeliver, Redis commands run in order, and one shared clock that
does not go back. Environment choices (which statement fails, which ack is lost, who crashes when) are parameters or
labels, never preconditions.

Where the code and its comments disagree, the model follows the code:

- Two relays at once do not break a room's order of first arrival. The comments at `internal/database/outbox.go:91-95` and
  `internal/outbox/relay.go:29-32` say they would; `Guarantees.InRoomOrder` needs no assumption on how many relays drain,
  because a relay sends a row only after the broker has acked every earlier row of its batch. (`runLeader` does not look
  at its lock again, so two can be at work; `Guarantees.OneLeader` says when they are not.) A second relay can still
  add a late second copy once the duplicate window is over, and the inbox absorbs it.
- A message whose dead-letter copy fails on its last delivery does not come back (`internal/broker/consume.go:279-281`
  says it does): the consumer is created with the same MaxDeliver that chose the dead-letter path.
  `DeadLetters.LostToTheLastNak` is a run where this loses a message, `DeadLetters.ComesBackIff` is the exact condition.
- A probe whose caller gives up is not booked (`internal/presence/client.go:405-411`), and then only a call admitted
  before it can still move the breaker out of half-open. `PresenceClient.CutOffForGood` reaches that state from a new
  breaker with no such call left, `PresenceClient.RecoversIff` is the exact condition.
- `State` reports half-open while a probe is out, though the next caller is then refused
  (`internal/presence/breaker.go:171-174`); see `Breaker.Breaker.Report`.
- Two missed heartbeats can show, not three (`internal/presence/store.go:57-59`): scores are whole seconds and the window
  excludes its edge. `PresenceStore.TwoMissedBeatsShowIff` is exact.
- `fetchGap` gives up after 100 full pages, so a client 10,000 or more messages behind is not repaired
  (`Paging.QuietGapEnds`).
- "The first request is never refused" (`internal/server/ratelimit.go:160`) holds exactly when the burst is at least one
  token (`RateLimit.FirstRequestIff`); below that nobody is ever admitted (`RateLimit.SmallBurstRefusesAll`).
- `Batch.Published` is documented as the rows that reached the broker (`internal/outbox/relay.go:261-265`). It counts
  skipped unreadable rows too, and misses a row whose ack got lost: `Relay.PublishedIsReachedIff` says exactly when the
  two numbers agree, `Relay.SkippedRowIsCounted` is a batch where they do not.
- `ApplyUnread` returning 0 is taken for a redelivery (`internal/server/ws.go:177-181`). It also means a room that nobody
  but the sender reads: `Unread.ChangesNothingIff` is exact, `Unread.RoomOfOne` is such a first delivery.
- A commit can take effect while its reply is lost: `CreateMessage` then returns an error with the message stored. The
  client key makes the retry safe (`Sending.Retry`, for every sequence of faults).
- Trimming the presence set is about memory and not correctness, as `internal/presence/store.go:147-148` says: for beats in
  any order no reader sees a trim (`PresenceStore.TrimIsUnobservable`), as long as the trimming clock is at most one second
  ahead of the reader's, and two seconds ahead it can hide a user (`PresenceStore.TrimLeadIsExact`). What can lose a beat is
  the ZADD: two heartbeats of one node can run in either order, and the older one overwrites the newer
  (`PresenceStore.OverwrittenBeatIsLost`). `PresenceStore.AgreesIff` is the exact condition.
- A socket registered before its node's subscription exists misses what the stream takes in between
  (`internal/broker/consume.go:60-72`). `LateSubscriber.NeverServed` is such a run, `FanOut.ServedIff` says exactly which
  entries the hub serves, and `Reconnect.NoHole` counts the others as missed.

## Model

| member | source | states |
|---|---|---|
| Writers.StepKeepsInv | internal/database/conversations.go:198-265 | every statement of every interleaving, rollbacks included, keeps: seqs 1..last_seq each once, seqs growing with ids, keys unique, one truthful outbox row per message, outbox order equal to seq order in a room |
| Writers.RunKeepsInv | internal/database/conversations.go:198-265 | the same over whole runs of concurrent senders |
| Writers.Gapless | internal/database/conversations.go:170-179 | in every run a room's committed seqs are exactly 1..last_seq, message ids and outbox ids grow with seq (both directions), and every message has its outbox row |
| Writers.KeyUsedOnce | internal/database/conversations.go:267-284 | in every run a (room, sender, client_msg_id) belongs to at most one message |
| Writers.DuplicateIsARetry | internal/database/conversations.go:267-284 | the (room, seq) index never rejects an insert: a rejection means the key is set and exactly one message carries it |
| Writers.RunExtends | internal/database/conversations.go:198-263 | a later state keeps every message unchanged, and a room's new rows have higher seqs and higher ids than all it had |
| Writers.CommittedIsRequested | internal/database/conversations.go:190-258 | in every run, whatever commits made one message row and one outbox row that say what its caller asked for when the transaction began: room, sender, sender name, content and key, under the room's next seq |
| Sending.Database.Transaction | internal/database/conversations.go:198-265 | the four statements with a fault at any of them, a commit whose reply is lost included: stored exactly when no statement failed, no index fired and the room is live, nothing changed otherwise, and always a run of Writers |
| Sending.Database.Store | internal/database/conversations.go:214-264 | after the row lock: a duplicate exactly when an index collides, otherwise message, allocator and outbox row together or not at all, whatever the caller is told |
| Sending.Database.CreateMessage | internal/database/conversations.go:190-292 | which answer in which case, exactly; one new message at last_seq + 1 with the request's room, sender, key and content, and its outbox row whose event tells these and the sender's name, and nothing else, exactly when room and key allow it and the commit takes effect, also when the answer is an error; no row changed otherwise |
| Sending.Database.LoadExisting | internal/database/conversations.go:276-283 | returns the message of this room, this sender and this key whenever there is one and the lookup works |
| Sending.FreshIds | internal/database/conversations.go:219-261 | in every reachable state the next ids are unused, and a rejection of the next seq is the same as a used key |
| Sending.RolledBack | internal/database/conversations.go:273-275 | a rolled-back transaction leaves gaps in the id sequences only: no seq, no message, no outbox row |
| Sending.Retry | internal/database/conversations.go:226-231 | one keyed request sent any number of times with any faults, from any reachable state: at most one message, one seq and one outbox row, and every answer that shows a message shows the same one |
| Sending.OneKey | internal/database/conversations.go:267-284 | in every reachable state a key belongs to one message |
| Sending.MemberList | internal/database/conversations.go:33-43 | the creator first, every requested id exactly once, nobody else |
| Relay.Store.FetchOutbox | internal/database/outbox.go:98-110 | the unpublished rows with the smallest ids, in id order, at most limit, and all of them if fewer |
| Relay.Store.MarkOutboxPublished | internal/database/outbox.go:112-132 | the listed rows stop waiting and no later fetch returns one of them; payloads, attempts and every other row are as before |
| Relay.Store.MarkOutboxFailed | internal/database/outbox.go:134-158 | one attempt more on that row; it waits as before and every fetch returns exactly what it would have returned |
| Relay.Store.DeleteOutboxPublishedBefore | internal/database/outbox.go:168-176 | a row goes exactly if it was stamped before t, the gone are counted, and every other row is as before |
| Relay.Broker.Publish | internal/broker/broker.go:262-303 | after an ack, or an error that came too late, the stream has the id; a repeat inside the window adds nothing, anything else one entry at the end; two copies of a row stay at least a window apart |
| Relay.Relay.PublishRow | internal/outbox/relay.go:289-329 | one row: skipped with a note, published, or the end of the batch, with the stream and the outbox after each outcome |
| Relay.Relay.PublishRows | internal/outbox/relay.go:287-329 | the longest run of rows that pass, published in order, and the first failing row stops it |
| Relay.Relay.Drain | internal/outbox/relay.go:278-345 | one batch: the oldest rows fetched, the longest passing run published in order and stamped together, also when the reply to the stamping is lost; the stream after a lost ack included; the whole call is a run of one relay in Pipeline |
| Relay.Relay.DrainAll | internal/outbox/relay.go:235-241 | the full-batch branch: when nothing fails the loop stops after exactly waiting / 100 + 1 batches with nothing waiting, and is a run of Pipeline |
| Relay.Relay.LeaderRound | internal/outbox/relay.go:194-248 | one round of the loop in any weather, cleaning and added rows included: no wait after exactly 100 rows went, five seconds exactly when a statement failed or the oldest row does not pass, 100 ms otherwise; while the broker confirms nothing, a round that tried a publish and waits less than five seconds has got an unreadable row off the queue |
| Relay.Relay.RunLeader | internal/outbox/relay.go:194-248 | while the broker confirms nothing, whatever rows wait or are added meanwhile, failed publishes <= T / 5 s + 1 + the number of unreadable rows among them |
| Relay.FairBatch | internal/outbox/relay.go:236-241 | when nothing fails a batch takes everything waiting or exactly 100 rows |
| Relay.PublishedIsReachedIff | internal/outbox/relay.go:258-265 | Published is the number of rows that reached the broker exactly when skipped rows and lost acks balance; with no lost ack, exactly when no unreadable row was skipped |
| Relay.SkippedRowIsCounted | internal/outbox/relay.go:291-303 | a batch with Published = 1 and nothing at the broker |
| Pipeline.StepKeepsInv | internal/outbox/relay.go:278-345 | every step of senders, relays, network, broker, consumer and janitor keeps: nothing lost, stream entries truthful, first acceptances in room order, batches that contain every earlier unaccepted row |
| Pipeline.EveryRunIsConsistent | internal/outbox/relay.go:142-248 | so does every run, with crashes, takeovers and several relays at once |
| Pipeline.FetchedIsOk | internal/database/outbox.go:98-110 | a fetched batch holds, before each row, every earlier row of its room that the stream lacks |
| Pipeline.MarkedIsSafe | internal/outbox/relay.go:237-248 | stamping the done rows only ever stamps rows the stream has |
| Guarantees.NoLoss | internal/outbox/relay.go:237-243 | in every run each committed message waits in the outbox or is on the stream, with its own content |
| Guarantees.CopiesAreAWindowApart | internal/broker/broker.go:97-108 | two stream entries of one outbox row carry the same message and are at least the duplicate window apart |
| Guarantees.InRoomOrder | internal/outbox/relay.go:173-183 | when a message enters the stream every lower seq of its room is already there, for any number of relays |
| Guarantees.TakenIsAPrefix | internal/database/outbox.go:91-95 | the seqs of a room ever taken by the stream are exactly 1..k for some k up to last_seq |
| Guarantees.Projection | internal/broker/consume.go:129-187 | a timely run of the whole pipeline is a run of the stream and its consumer |
| Guarantees.BadgeIsExact | internal/database/unread.go:19-46 | end to end: each message counted at most once, only committed messages with their own room and seq, and a badge is the number of distinct messages counted since the last mark-read |
| Guarantees.QuietMeansCounted | internal/outbox/relay.go:331-337 | outbox drained and every entry acked means every committed message was counted exactly once |
| Guarantees.QuietMeansSettled | internal/broker/consume.go:138-150 | conservation: outbox drained and every entry acked or Term'd means every committed message was counted, or is in the dead letters, and none was counted twice |
| Guarantees.Settlement | internal/broker/consume.go:143-150 | in every run acked means counted, Term'd means copied to the dead letters, and no entry is both |
| Guarantees.OneLeader | internal/outbox/relay.go:142-191 | at most one relay leads as long as no lock is lost behind a relay's back |
| Unread.ApplyExplained | internal/database/unread.go:47-99 | a new message adds exactly one to each member but the sender and never lowers a high mark, read as a statement about the history of claims and reads |
| Unread.MarkReadExplained | internal/database/unread.go:164-176 | mark-read empties one user's count in one room, keeps every other count and every high mark |
| Unread.CountIsMessages | internal/database/unread.go:30-37 | with no message claimed twice a count is a number of distinct messages |
| Unread.ApplyAllTallies | internal/database/unread.go:30-37 | from any tables and after any deliveries, repeats included, a counter has grown by the number of distinct unclaimed messages for its user, and its mark is the highest seq |
| Unread.OrderDoesNotMatter | internal/database/unread.go:30-37 | from any tables, two deliveries of the same messages in any order, with any repeats, leave the same counters, high marks and claims |
| Unread.ChangesNothingIff | internal/server/ws.go:177-182 | 0 rows changed exactly for a claimed message or a room nobody but the sender reads |
| Unread.RoomOfOne | internal/server/ws.go:177-182 | a first delivery that changes 0 rows |
| Consumer.UnreadTables.ApplyUnread | internal/database/unread.go:47-99 | nothing at all for a claimed message, otherwise the claim and one more, with the higher seq, in the row of every member but the sender and in no other; returns the number of rows changed |
| Consumer.UnreadTables.MarkConversationRead | internal/database/unread.go:164-176 | that one row's count to zero and its high mark kept, missing row created, every other row and the inbox untouched |
| Consumer.UnreadTables.DeleteConsumedBefore | internal/database/unread.go:109-117 | removes exactly the claims before t and returns how many |
| Consumer.UnreadTables.UnreadForUser | internal/database/unread.go:125-145 | exactly the rooms with something unread, each with its count |
| Consumer.Handler.DeadLetter | internal/broker/consume.go:273-333 | Term'd only with the copy already at the end of the dead-letter stream; Nak'd on an error, which may come after the copy; copies are never removed and there are at least as many as the counter says |
| Consumer.Handler.HandleUnread | internal/broker/consume.go:191-271 | the verdict and its delay for every payload, delivery number, attempt, ack and copy outcome; applied before acked, copied before Term'd; the whole call is a run of one handler in Delivery |
| Local.LocalPublisher.Publish | internal/outbox/local.go:54-64 | the durable work first, and no push unless it worked; one call is one step of the single-node machine, a commit whose reply is lost included |
| Local.RefinesPipeline | internal/outbox/local.go:16-32 | every run of the single-node mode, crashes and lost stamps included, is a run of the clustered pipeline with the same tables and the same counts, and one with the same pushes |
| Local.StampedIsCounted | internal/outbox/local.go:45-53 | in every run a row that does not wait any more has its message counted and pushed |
| Local.DrainedMeansCounted | internal/outbox/local.go:45-47 | once no row waits, every committed message has been counted and pushed |
| Local.PushedInOrder | internal/outbox/relay.go:273-277 | in every run, before a message is pushed every message of its room with a lower seq has been |
| Local.BadgeIsExact | internal/outbox/local.go:45-47 | in every timely run no message is counted twice, whatever crashed between a count and its stamp, only committed messages are, and a badge is the number of distinct messages since the last read |
| Local.HandledAgain | internal/outbox/relay.go:331-337 | trying a counted row again changes no counter |
| Local.CountedTwice | internal/database/unread.go:109-117 | when the inbox is kept any shorter than a row can wait for its stamp, a run counts one message twice |
| Local.RetentionIsExact | internal/outbox/relay.go:123-127 | with no broker, counting once is certain in every timely run if and only if the time to the last try of a counted row fits in the inbox retention |
| Delivery.StepKeepsInv | internal/broker/consume.go:191-333 | every step of publishes, deliveries, handlers, acks, dead letters, reads and janitor keeps settlement, the duplicate window and the meaning of the counters |
| Retention.Shipped | internal/broker/broker.go:83-112 | the constants in the code are long enough exactly if re-publishing a counted row and waiting for a handler take at most a day less 15 seconds together |
| Retention.ShippedCountsOnce | internal/outbox/relay.go:123-127 | with those constants counting once is certain in every timely run exactly under that bound |
| Retention.StillInInbox | internal/outbox/relay.go:123-127 | in a timely run a message already counted is still in the inbox when any delivery of it is applied |
| Retention.RedeliveryChangesNothing | internal/broker/consume.go:262-269 | in every reachable state of a timely run, applying a counted message again changes no counter |
| Retention.CountedExactlyOnce | internal/database/unread.go:101-108 | in every timely run no message is counted twice and a counter is the number of distinct messages since the last read |
| Retention.CountedTwice | internal/database/unread.go:109-117 | when the inbox is kept any shorter, a run within all time limits counts one message twice |
| Retention.RetentionIsExact | internal/outbox/relay.go:123-127 | counting once is certain if and only if re-publish time + stream maxAge + handling time fit in the inbox retention |
| DeadLetters.LastNakIsFinal | internal/broker/consume.go:319-323 | an entry with no delivery left, or too old, is never acked, Term'd or copied to the dead letters in any further run |
| DeadLetters.ComesBackIff | internal/broker/consume.go:273-281 | a waiting entry can still be settled if and only if a delivery is left and its age allows it |
| DeadLetters.LostToTheLastNak | internal/broker/consume.go:247-250 | for every limit, a run of failing deliveries and one failed copy leaves a message neither counted nor dead-lettered, for good |
| Paging.PageParams | internal/server/conversations.go:461-504 | refused exactly for both cursors at once, a cursor that is not an unsigned 64-bit number or a limit below one; after_seq=0 is a gap read; limits are capped at 100 |
| Paging.ListMessagesAfterSeq | internal/database/conversations.go:329-342 | the first rows after the cursor in seq order, at most limit, and no row left out between them |
| Paging.ListMessages | internal/database/conversations.go:301-316 | the newest rows below the cursor in id order, at most limit, and no row left out between them |
| Paging.ListGap | internal/server/conversations.go:381-407 | that page, with its last seq as cursor exactly when it is full |
| Paging.ListHistory | internal/server/conversations.go:354-372 | that page, with its oldest id as cursor exactly when it is full |
| Paging.GapPageIsRange | internal/server/conversations.go:374-380 | in a gapless room a gap page is the next limit seqs, or all that are left |
| Paging.FetchGap | cmd/gapcheck/main.go:516-543 | while others write: on success exactly after+1..last_seq at the last page read, in order, each once; a failed page gives nothing; it gives up if and only if every page was full |
| Paging.QuietGapEnds | cmd/gapcheck/main.go:522-542 | in a quiet room it gives up if and only if 10,000 messages or more are missing |
| Paging.PageOfThePast | internal/database/conversations.go:298-300 | below a row of an earlier state, a page is the page of that earlier state, whatever was written since |
| Paging.WalkHistory | internal/server/conversations.go:339-372 | following next_before_id to the end shows exactly the rows of the first page's moment, newest first, each once, and ends |
| Reconnect.ScrollBack | internal/server/conversations.go:339-372 | the same walk in any run of the whole system, each page read at a later step |
| Reconnect.Client.Note | cmd/gapcheck/main.go:117-123 | first arrival kept, every other copy counted as a duplicate |
| Reconnect.Client.NoteAll | cmd/gapcheck/main.go:221-223 | arrivals are conserved: each is held or counted as a duplicate, and nothing held is overwritten |
| Reconnect.Client.FillFromGap | cmd/gapcheck/main.go:257-280 | after one successful read from the oldest hole no sent seq is missing; a failed read changes nothing |
| Envelopes.StepKeepsInv | internal/outbox/relay.go:308-316 | every step keeps: the envelope of a stream entry is a list of the room's members, each once, that was read when its row was sent |
| FanOut.FramesAreForMembers | internal/outbox/relay.go:308-316 | in every run, a frame on a socket is a message of a room that the socket's user is a member of |
| FanOut.StepKeepsInv | internal/broker/consume.go:55-127 | every step of pipeline, subscription, hub queue and sockets keeps: each entry since the subscription was either handed to the hub, in stream order and with its own envelope, or missed, never both, and the hub's offers are those of the calls it served |
| FanOut.ServedIff | internal/broker/consume.go:60-127 | in every run the hub has served exactly the entries that are neither still coming nor missed: counted as missed, or older than the subscription |
| FanOut.MissedIff | internal/ws/hub.go:168-188 | an entry is counted as missed exactly when some step of the run lost it, could not decode it, found nobody to send it to, or found 256 calls waiting |
| FanOut.MissedForGood | internal/broker/consume.go:60-72 | an entry missed once is never served, however the run goes on |
| LateSubscriber.NeverServed | internal/broker/consume.go:60-72 | a run in which a member's socket is registered, a message of the room enters the stream and names the member, the node subscribes, and in no continuation is the message served |
| FanOut.Between | internal/server/ws.go:151-160 | later in a run the room, the stream, the served calls and the offers only grow, and a socket keeps its user and its place |
| FanOut.ServedLater | internal/broker/consume.go:74-115 | an entry that comes to the stream later is offered after everything offered before |
| FanOut.OfferedIsFramed | internal/ws/hub.go:294-314 | what was offered to a live socket's user since it came is among the socket's frames |
| Reconnect.LaterSeqsArePublishedLater | internal/outbox/relay.go:287-345 | a seq the room does not have yet enters the stream only after everything that is on it now |
| Reconnect.PagesOfARun | internal/server/conversations.go:381-407 | in every run the pages read at later and later steps are consistent and never see the room shrink |
| Reconnect.EntryArrives | internal/server/ws.go:151-160 | an entry newer than a live socket's registration, naming its user, is queued on it unless it is still coming or missed, which FanOut.ServedIff makes exact |
| Reconnect.MembersAreNamed | internal/outbox/relay.go:308-316 | who is in the room before a message is committed is named by every envelope the stream has for it |
| Reconnect.NoHole | cmd/gapcheck/main.go:177-190 | register, then page: a message newer than the last page waits in the outbox, or its entry is newer than the registration and is queued on the socket, unless it is still coming or missed, the socket is gone, or the user was not in the room at the last page and is not named |
| Reconnect.CatchUp | cmd/gapcheck/main.go:177-240 | the client's repair as it runs: if the gap read comes through it holds everything up to last_seq at its last page, every later message is on its way in the sense of NoHole, and once everything has settled and the socket's frames have come it holds 1..last_seq; a failed read changes nothing |
| Reconnect.SettledMeansFramed | cmd/gapcheck/main.go:184-190 | once nothing is under way and nothing was missed since the registration, every message the pages did not show a member is a frame on the socket |
| Hub.StepKeepsInv | internal/ws/hub.go:107-129 | registering, unregistering, fan-outs, writes and shutdown keep the map, the counters and every socket's frames right |
| Hub.DropNeverSkip | internal/ws/hub.go:294-314 | in every run the frames queued on a socket are exactly the fan-outs for its user, in order, from its add until now or its removal; a slow socket misses first the one that overflowed it |
| Hub.ClosedOnce | internal/ws/hub.go:262-282 | each send channel is closed exactly once, when its socket leaves the map; open is the size of the map; dropped counts the sockets removed for being slow; a queue never exceeds 16 |
| Hub.DroppedIffFull | internal/ws/hub.go:294-314 | from every reachable state a fan-out leaves a live socket live, with one frame more for each mention of its user, exactly when they fit into its 16 places; otherwise the socket leaves the map with 16 frames waiting |
| Hub.SlowMeansFull | internal/ws/hub.go:297-311 | in every run a socket counted as slow was dropped by a fan-out while 16 frames were waiting on it |
| Hub.Hub.Register | internal/ws/hub.go:254-260 | the socket is live under its user with nothing queued, and every other socket keeps its record and its place |
| Hub.Hub.Unlink | internal/ws/hub.go:267-282 | a live socket leaves the map and is closed once more with its queue kept; one already gone changes nothing; every other socket keeps its record and its place |
| Hub.Hub.Unregister | internal/ws/hub.go:115-116 | afterwards the socket is not live, open is one less if it was, the others are as before, and the state stays reachable |
| Hub.Hub.ServeSocket | internal/ws/hub.go:297-311 | below 16 waiting frames the socket stays live with the payload appended, at 16 it is closed and gone; no other socket changes |
| Hub.Hub.ServeUser | internal/ws/hub.go:296-312 | the user's sockets in any order, with one outcome for all orders |
| Hub.Hub.ServeEach | internal/ws/hub.go:294-314 | the listed users in order, once per mention |
| Hub.Hub.Serve | internal/ws/hub.go:118-119 | the hub serves accepted calls first in, first out, and drops exactly the sockets that lack the room |
| Hub.Hub.Broadcast | internal/ws/hub.go:168-188 | ignored, queued, shed and counted, or closing, and exactly when; never more than 256 wait |
| Hub.Hub.LocalUserIDs | internal/ws/hub.go:285-291 | every user with a live socket here, once, and nobody else |
| Hub.Hub.CloseSockets | internal/ws/hub.go:321-324 | closes a set of sockets, once each, in any order |
| Hub.Hub.CloseUser | internal/ws/hub.go:320-326 | one user's sockets closed and their entry gone |
| Hub.Hub.CloseClients | internal/ws/hub.go:319-327 | closeAll, for every order of users |
| Hub.Hub.Shutdown | internal/ws/hub.go:124-126 | afterwards the map is empty, open is 0 and every channel ever made was closed exactly once |
| Breaker.Breaker.Allow | internal/presence/breaker.go:95-122 | everyone while closed, while open nobody before openedAt + openFor and then one probe, while half-open only if no probe is out |
| Breaker.Breaker.Success | internal/presence/breaker.go:130-137 | closed, with no failure counted and no probe out |
| Breaker.Breaker.Failure | internal/presence/breaker.go:140-162 | open from now on after a failed probe and after the failure that reaches the threshold, with openedAt the time of that failure |
| Breaker.Breaker.Report | internal/presence/breaker.go:167-179 | reported open means the next caller is refused; reported half-open means it gets through exactly when no probe is out; reported closed means closed |
| Breaker.RunIsConsistent | internal/presence/breaker.go:82-84 | in every run half-open is the same as a probe being out |
| Breaker.ClosedWhileFewFailures | internal/presence/breaker.go:57-64 | in every run the circuit is closed, and everyone gets through, if fewer than threshold failures were booked since the last success, and it is closed only then |
| Breaker.FailureShutsOut | internal/presence/breaker.go:146-160 | in every run a failure at t that leaves the circuit not closed lets callers through again exactly from t + openFor on |
| Breaker.OutageFrom | internal/presence/breaker.go:146-160 | in every run, from the failure at t that opened the circuit and without a booked success, at most floor(T / openFor) calls get through until t + T |
| Breaker.OutageFromIsTight | internal/presence/breaker.go:103-110 | and for every such failure and T there are callers of whom that many do |
| Breaker.OutageBound | internal/presence/breaker.go:146-155 | the same bound from any open state, whatever late failures come in |
| Breaker.OutageBoundIsTight | internal/presence/breaker.go:103-110 | the bound is reached from any open state for every T |
| Breaker.NothingBooked | internal/presence/breaker.go:112-120 | while a probe is out and nothing is booked every caller is refused, however long |
| Breaker.ProbeOutcome | internal/presence/breaker.go:124-155 | only a booked outcome moves a probing breaker: a success opens the way at once, a failure after openFor |
| PresenceClient.Client.Record | internal/presence/client.go:405-411 | a failure is booked unless the caller had given up |
| PresenceClient.Client.TryAndWait | internal/presence/client.go:314-371 | one to three attempts; another one exactly if the code is Unavailable, the deadline is further away than the wait and the wait is not cut off; the waits are drawn below 50 ms and below 100 ms, and their sum is exact |
| PresenceClient.Client.Call | internal/presence/client.go:277-375 | refused at no cost exactly when the breaker refuses; otherwise Unavailable, DeadlineExceeded and Canceled book a failure if the caller is still there and nothing if not, and every other code a success; a run of the calls machine |
| PresenceClient.BreakerRuns | internal/presence/client.go:302-332 | whatever many calls do together, the breaker sees a run of its own machine and admits as many as got through |
| PresenceClient.BooksAtMostOnce | internal/presence/client.go:320-330 | no call comes back twice |
| PresenceClient.ClosedIff | internal/presence/client.go:399-443 | in every run of calls the breaker is closed exactly while fewer than threshold in a row came back with Unavailable, DeadlineExceeded or Canceled to a caller who was still there |
| PresenceClient.AnsweredCallsKeepItClosed | internal/presence/client.go:324-330 | if every call that came back was answered, with any code, or had been given up, the breaker is closed |
| PresenceClient.LoadDuringOutage | internal/presence/client.go:56-64 | in every run of a client, from the call that came back at t and opened the circuit, and while no call brings an answer, the calls admitted since reach the service at most 3 * floor(T / openFor) times until t + T, whatever calls were still under way |
| PresenceClient.StuckForever | internal/presence/client.go:405-408 | half-open with a probe and no call under way refuses every call of every run |
| PresenceClient.RecoversIff | internal/presence/client.go:405-408 | when a call comes back while a probe is out, some later call can get through if and only if its code is none of the three that are no answer, or its caller was still there, or another call is under way |
| PresenceClient.CutOffForGood | internal/presence/client.go:399-411 | that state is reached from a new breaker |
| RateLimit.RateLimiter.Sweep | internal/server/ratelimit.go:192-203 | nothing within 60 seconds of the last sweep; otherwise exactly the buckets go that are full again |
| RateLimit.RateLimiter.Ask | internal/server/ratelimit.go:150-178 | granted exactly with a whole token among what was left and what came at `rate` since, capped at the burst; a refusal names the wait that makes up for the rest; one token taken, no other bucket changed, only full ones swept |
| RateLimit.AllowLevels | internal/server/ratelimit.go:165-177 | a request costs its own caller one token if there is one, its wait times the rate is what is missing to one, and it costs no other caller anything, swept or not |
| RateLimit.SweepIsUnobservable | internal/server/ratelimit.go:180-203 | for every history of requests, a limiter that sweeps gives the same answers and waits as one that never does |
| RateLimit.RateBound | internal/server/ratelimit.go:99-109 | in every window of every run a caller gets at most burst + rate * length through |
| RateLimit.OthersDoNotMatter | internal/server/ratelimit.go:148-178 | a caller's tokens after any requests of others are what they were plus rate times the elapsed time, up to the burst |
| RateLimit.WaitIsExact | internal/server/ratelimit.go:171-174 | the told wait times the rate is what is missing to one token, and a refused caller asking again is admitted if and only if it waited that long and burst >= 1 |
| RateLimit.FirstRequestIff | internal/server/ratelimit.go:159-162 | after any requests of others, a caller's first request is admitted exactly when burst >= 1 |
| RateLimit.SmallBurstRefusesAll | internal/server/ratelimit.go:159-162 | with burst < 1 nobody is ever admitted |
| RateLimit.RetryAfter | internal/server/ratelimit.go:221-227 | the least whole number of seconds, at least one, that covers the wait |
| PresenceStore.RoundTrip | internal/presence/store.go:219-237 | parseMember(member(id, node)) = id for every 64-bit id and every node name |
| PresenceStore.ParsesIff | internal/presence/store.go:223-237 | a member parses to an id exactly if it is digits, at least one, naming that 64-bit number, then a colon, then anything |
| PresenceStore.MembersAreDistinct | internal/presence/store.go:36-39 | entries of different users or different nodes never coincide |
| PresenceStore.Store.Heartbeat | internal/presence/store.go:129-159 | entry by entry: the users' entries are of this second, the trim takes exactly what is older than 30 s, nothing else changes, also when only the first commands ran; after all of them every user is online; success exactly when all ran and the reply came |
| PresenceStore.Store.Online | internal/presence/store.go:170-201 | of the users asked about exactly those with an entry inside the window, each as often as asked and in that order; a failed read answers nothing and is counted |
| PresenceStore.AnswerIgnoresTrims | internal/presence/store.go:143-149 | after any commands, trims up to one second ahead of the reader, that whole answer is the same as on the untrimmed set |
| PresenceStore.TrimIsUnobservable | internal/presence/store.go:143-149 | after any beats in any order, whole or cut short, and any trims, a reader gets the same answer about every user as if nothing had been trimmed |
| PresenceStore.TrimLeadIsExact | internal/presence/store.go:143-149 | that holds for everything that can be written if and only if no trim is more than one second ahead of the reader |
| PresenceStore.FullSetIsLastBeats | internal/presence/store.go:136-141 | untrimmed, the set holds exactly the last beat of each entry |
| PresenceStore.AgreesIff | internal/presence/store.go:129-149 | set and full log agree about a user from t0 on if and only if every beat that counts at t0 has one at least as new that was not overwritten |
| PresenceStore.InOrderAgrees | internal/presence/store.go:129-149 | with the beats of each entry in the order of their seconds, set and log agree about every user |
| PresenceStore.OverwrittenBeatIsLost | internal/presence/store.go:136-141 | of any two beats of one entry executed in the wrong order, with no trim at all, the newer is lost and set and log disagree |
| PresenceStore.TrimLeavesOnlyTheWindow | internal/presence/store.go:143-149 | after a trim nothing older than the window is stored, whichever node wrote it |
| PresenceStore.BeatLasts | internal/presence/store.go:50-52 | one beat shows for at least 29 s and less than 30 s |
| PresenceStore.OneMissedBeatIsHidden | internal/presence/store.go:57-59 | one missed beat never shows |
| PresenceStore.TwoMissedBeatsShowIff | internal/presence/store.go:57-59 | two missed beats in a row show at some moment if and only if beats do not fall on whole seconds |

## Left out

- Users, sessions, tokens, migrations, seeds and load tools: independent of the pipeline.
- HTTP and Gin handlers, JSON, logging, metrics, tracing: plumbing; a payload is a readable event or junk, and a row that CreateMessage wrote is always readable.
- Postgres, NATS, Redis and gRPC internals: taken as the assumptions listed above.
- Eventual delivery: nothing says a message is in the end counted or dead-lettered, because the code does not decide it (see DeadLetters); Relay.Relay.DrainAll is the one progress result, for a leader that meets no error.
- Relay.Relay.DrainAll: only the branch of the leader's loop that goes straight round again; the waits are in Relay.Relay.RunLeader.
- Relay.Relay.RunLeader: the rows come with ids of their own; other writers of published_at are in Pipeline, and of the janitor only the outbox half is in the loop, its inbox half being a step of Pipeline.
- FanOut.StepKeepsInv: one subscription in the life of a node; a restarted node reuses its named consumer for five minutes, which would only add entries. The choice of select while the hub shuts down is in Hub.Hub.Broadcast, not here.
- Reconnect.NoHole: the hello frame is written before the socket is registered (internal/server/ws.go:88-104), so the reasoning starts at registration and not at hello.
- A message without JetStream metadata (internal/broker/consume.go:206-213), which its own comment calls impossible.
- A node whose broker is down at start and falls back to no broker, and any mix of such nodes with others; Local is one process alone.
- Local.PushedInOrder: a push ends at the hub's door; what its sockets get of it is Hub's.
- Socket pumps, ping and pong, token expiry, and two concurrent calls of Close.
- The sleeps between polls and lock attempts, OutboxStats, and the note text in last_error.
- A broker delivery has no explicit ack timeout: Delivery may redeliver at any time while a delivery is left, which includes every timeout.
- Delivery counts one dead-letter copy per entry; a second copy of the same entry is not told apart from the first.
- Hub.Hub.Register: sockets are numbers with a record in a table, not references to client objects, so aliasing of a socket is not modelled.
- Sending.Database.CreateMessage: created_at, trace context and the joined sender are not part of the rows; soft deletion of messages is not modelled, as no code deletes one.
- Sending.Retry: the retries of one client, one after another; other senders in between are the runs of Writers.
- Sending.MemberList: the user existence check and the inserts of CreateConversation are not part of this model.
- RateLimit.RateLimiter.Ask: exact reals instead of float64, no nanosecond truncation of the wait, and calls see a clock that does not go back.
- RateLimit.RateBound: assumes that clock too; the code reads it before it takes the lock.
- PresenceClient.Client.Call: the deadline is the time left as each attempt finds it, not a clock of its own, and a wait that is cut off counts whole.
- PresenceStore.ParseMember: strconv.ParseUint in base 10 is modelled by its accepted language, not by its loop.
