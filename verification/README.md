# RealChat: a verified model

RealChat is a set of services that together form one pipeline. A service commits a change and an event in one
transaction; a relay publishes the event table to a stream; a dispatcher fans each event out to the members of its
conversation, on whichever delivery instance they are connected; and a session hands the events to a client that may
have just reconnected and is still reading its history. This project models that pipeline in Dafny and proves what it
keeps. The parts, one module each:

| module | what it models |
|---|---|
| `Events` | ids, messages, the five event bodies and their envelopes |
| `MessageService` | sending and deleting messages: idempotency rows, the retried transaction, sequence numbers taken from another service and never given back |
| `Conversation`, `LookupKey` | creating direct and group conversations, adding and removing participants, read receipts, the sequence counter, and the key that deduplicates direct conversations |
| `Creation` | creators that race |
| `ConversationEffects`, `MessageEffects`, `RelayEffects` | what each transaction, attempt and batch does and answers, said over the tables alone |
| `Outbox` | the outbox table and its two relays, the one that commits progress and dead-letters and the one that rolls a whole batch back, under one safety specification |
| `EventLog` | the outbox table read as a log, whatever gaps its ids have |
| `Session`, `SessionProtocol` | one WebSocket session: the class with its buffer and bounded queue, and all interleavings of the threads that use it |
| `History`, `Resume` | the paged history query, and a resume interleaved with commits, dispatches and the session's own steps |
| `Membership`, `Convergence` | the two-way membership index, and one cache entry fed from a stream with rewinds |
| `Dispatching` | the handlings that run together on one instance over one membership cache, step by step |
| `Dispatcher` | routing one event to local sessions and remote instances, and the membership updates around it |
| `Registry`, `Presence`, `Connections` | which session a device has on an instance, which instance a device is on, over expiring keys, and connections that come and go in both |
| `MembershipPipeline` | service, relay and cache entry together: the entry converges to the participants table |
| `MessageFeed` | the message service and its relay together: what is stored, logged and on the stream |
| `MessagePipeline`, `Delivery`, `LiveDelivery`, `Paths`, `LaggingEntry` | both services with their relays, the membership cache, dispatchers and a resuming session together: exactly what is delivered, and two runs in which a participant misses a message |

The state that the services change in place is modelled by classes whose methods are proved against functions on
values; the invariants and the theorems are about those functions and about all runs of the state machines built from
them. Concurrency is modelled by small steps; what is taken as one step nevertheless is named under "Left out".

## Where the code does less than it says

The model follows the code. Where a comment or the apparent intent promises more, the project proves exactly what
holds, with a concrete failing run beside it:

- `services/message/internal/domain/message.go:8` calls sequences gapless. A number taken at
  `services/message/internal/application/send_message.go:75` survives a rollback. `MessageService.GaplessIff` says when
  a conversation is gapless; `MessageService.SequencesMayGap` is a run with a gap.
- `services/conversation/internal/repository/postgres/repo.go:85` takes the counter less one for the current maximum,
  although the counter already is the last number given out. A receipt for the newest message is therefore lost:
  `Conversation.ReceiptStoredIff` and `Conversation.NewestReceiptIsLost`.
- The flush comparator (`services/delivery/internal/websocket/session.go:94-106`) is not transitive in general:
  `Session.ComparatorIsStrictWeakOrderIff` says exactly on which buffers it is, and `Session.ComparatorCycle` shows a cycle.
- The cache entry that routes an event is not the participants table. Additions and messages are published on two topics,
  and records are handled in parallel (`services/delivery/internal/kafka/consumer.go:90`), so a message stored after a
  user joined may be handled while the entry does not have the user yet, and never reaches the user's live session:
  `LaggingEntry.ParticipantMissesMessage` is such a run, `Delivery.DeliveredIff` says exactly what is delivered,
  and `LiveDelivery.StoredIsDelivered` and `Delivery.ListedIsDelivered` when that is certain.
- A handling that misses waits for a lookup and then replaces the whole entry
  (`services/delivery/internal/dispatcher/dispatcher.go:254-265`), while others handle additions: a user who had got into
  the entry is evicted. `Dispatching.EntryPersists` says when that cannot happen, and `Dispatching.LateLoadEvicts` and
  `LaggingEntry.LateLoadLosesMessage` are the runs.
- An addition that meets an unloaded cache entry leaves a partial one that later counts as a hit
  (`services/delivery/internal/dispatcher/dispatcher.go:195-197`, `:250-253`): `Convergence.UnloadedEntryConvergesIff`
  and `Convergence.AdditionToUnloadedEntry`.
- A lookup of members is answered from a Redis copy first (`services/conversation/internal/repository/postgres/repo.go:118-124`)
  that is invalidated before the commit (`services/conversation/internal/application/add_participant.go:92`), so it may
  load an entry that stays behind the table: `Convergence.EntryConvergesIff` and `Convergence.StaleLookup`.
- The refetch after a failed insert (`services/conversation/internal/application/create_conversation.go:69-83`) is meant
  to return the winner of a race. It runs in a PostgreSQL transaction that has already failed: its statements fail, and
  if the Redis cache has the row of the id, the commit fails instead. Either way the losing call ends with an error:
  `Creation.LosesRaceIff` says exactly when, and `Creation.LosingCreator` is such a race.
- Stale devices are removed some time after the lookup that found them
  (`services/presence/internal/presence/redis.go:134-142`), so a device that registers in between disappears from
  lookups: `Presence.ListedIff`, `Presence.LostToALateCleanup` and `Presence.LateCleanupHidesDevice`.
- A replaced session still unregisters its device (`services/delivery/internal/websocket/handler.go:96-103`), although a
  newer session of the device is connected: `Connections.CurrentIsListedIff` and `Connections.ReplacedSessionHidesDevice`.
- Lookup keys join user ids with colons, so with colons in user ids two pairs may share one:
  `LookupKey.JoinCollidesIff` and `LookupKey.KeysMayCollide`.

## Model

| member | source | states |
|---|---|---|
| Delivery.DeliveredIff | services/delivery/internal/dispatcher/dispatcher.go:102-180 | exactly what is delivered, in every run of both services, both relays, the membership cache, handlings that run together with any others between their steps, failing and stale lookups and a resuming session: an open session at rest has accepted a message if and only if a page request of the resume returned it, or some handling of its record offered it when the members it had resolved had the user, its lookup had listed the device, and the registry had the session |
| Delivery.RoutedBecause | services/delivery/internal/dispatcher/dispatcher.go:153-180 | where those members and that device come from: an earlier step of the same handling that read a non-empty entry or loaded some committed version, and a later one that asked for devices while presence listed the user's |
| Delivery.ListedIsDelivered | services/delivery/internal/websocket/handler.go:124-203 | every message stored when the conversations were listed, in a conversation that the client named or the participants table had the user in, above the client's last sequence, is delivered, unless a page request of its conversation failed or was checked against participants without the user; whenever the user joined and whatever the relays and caches did |
| Delivery.PagedIsAbovePosition | services/delivery/internal/websocket/handler.go:163-178 | what the page requests of a resume returned lies above the position the client named, in every run |
| Delivery.ServedIff | services/message/internal/application/sync.go:22-40 | a page request is served if and only if the lookup of participants answers and the version it answers with has the user |
| Delivery.OfferedEventIsAccepted | services/delivery/internal/dispatcher/dispatcher.go:164-176 | every event that an offer brings, of whatever kind, is in the queue of an open session at rest |
| Delivery.RegisteredIff | services/delivery/internal/websocket/handler.go:66-97 | the registry has the session exactly from its registration until it leaves, so only then can an offer reach it |
| Delivery.PresentIs | services/delivery/internal/dispatcher/dispatcher.go:155-165 | what a lookup of devices answers about the user's device is the last change of its listing |
| LiveDelivery.StoredIsDelivered | services/delivery/internal/dispatcher/dispatcher.go:248-253 | an open session at rest has accepted every message stored after a moment at which the user was in the entry of its conversation and no handling about it waited for a lookup, if nothing handled since took the user out, one handling of the message got an answer about devices while presence listed the user's, the session stayed in the registry from then on, and no handling of the message is still under way |
| LiveDelivery.StoredIsAskedFor | services/delivery/internal/dispatcher/dispatcher.go:119-161 | once everything is published and handled, devices have been asked for every such message by a handling whose members had the user |
| LiveDelivery.AcknowledgedIsDelivered | services/message/internal/application/send_message.go:29-183 | the same for every message a sender was answered with, if the request was new when the user was in the entry with nothing waiting |
| LiveDelivery.EntryPersists | services/delivery/internal/dispatcher/dispatcher.go:182-208 | a user in an entry about which nothing waits stays in it until a removal of the user, or the creation with other founders, is handled |
| Dispatching.EntryPersists | services/delivery/internal/dispatcher/dispatcher.go:248-266 | the same for any user and any handlings that run together over the cache: a non-empty entry starts no lookup, so only one that was waiting could replace it |
| Dispatching.EntryIsUntouched | services/delivery/internal/dispatcher/dispatcher.go:182-266 | through any run of handlings an entry stays exactly as it is until a creation or an addition of its conversation is handled, a lookup for it is answered, or the handling of a removal from it ends: misses, failed lookups and other conversations' events leave it alone |
| Dispatching.LateLoadEvicts | services/delivery/internal/dispatcher/dispatcher.go:254-265 | without that guard it fails: the waiting lookup of an earlier miss evicts a user who was added meanwhile |
| Dispatching.AloneIsHandle | services/delivery/internal/dispatcher/dispatcher.go:102-151 | with nothing in between, the steps of a handling are the one update of its conversation's entry that `Convergence` feeds, and of no other |
| LiveDelivery.EntryLearns | services/delivery/internal/dispatcher/dispatcher.go:182-198 | beginning to handle an addition or a creation brings whom it names into the entry |
| LaggingEntry.ParticipantMissesMessage | services/delivery/internal/dispatcher/dispatcher.go:248-253 | a run in which the user's session is live, then the user joins, then a message is stored, published and handled, every lookup succeeds, everything is at rest, and the session has not got it, because the entry is a hit without the user |
| LaggingEntry.LateLoadLosesMessage | services/delivery/internal/dispatcher/dispatcher.go:254-265 | a run in which the user is in the entry too, and nothing that is handled takes the user out, but a handling that had missed before replaces the entry when its lookup comes back, and the message after that is lost |
| LiveDelivery.DeliveredIsStored | services/delivery/internal/dispatcher/dispatcher.go:102-180 | the converse, at every moment of every run: a message in the queue is stored, and the participants table has or once had the user in its conversation |
| MessageFeed.StreamIsStocked | services/message/internal/outbox/worker.go:37-104 | every record of the message stream is an event of the log that changes no membership, and a message on it is stored |
| MessageFeed.StoredIsOnStream | services/message/internal/outbox/worker.go:37-104 | once the relay is drained every stored message is on the stream |
| MembershipPipeline.LoadedEntryConverges | services/delivery/internal/dispatcher/dispatcher.go:102-151 | in every run of conversation service and relay that drained without dead letters, a cache entry loaded with members from a table no older than where the consumer started ends equal to the participants table, through rewinds and whatever lookups would answer |
| MembershipPipeline.EntryConvergesIff | services/delivery/internal/dispatcher/dispatcher.go:248-267 | whatever an entry began with and whatever committed versions lookups answer with, it ends equal to the table if and only if what it was last replaced with agrees with the table about everybody not changed since |
| MembershipPipeline.UnloadedEntryConvergesIff | services/delivery/internal/dispatcher/dispatcher.go:182-208 | an entry that begins empty ends equal to the table if and only if something replaced it as a whole and the last replacement was fresh in that sense |
| MembershipPipeline.LogIsWellFormed | services/conversation/internal/application/create_conversation.go:145-196 | what the service's log guarantees (one creation before any change, no change names the creator) is what the cache relies on |
| Resume.AcceptedIff | services/delivery/internal/websocket/handler.go:124-231 | in an open session at rest the queue has accepted a message if and only if a page request returned it or a handling brought it, for every interleaving and with calls that fail |
| Resume.PagedIsAbovePosition | services/delivery/internal/websocket/handler.go:163-178 | in every run each message that a page request returned lies above the position the client named, in a conversation that was to be synced |
| Resume.HistoryAscends | services/delivery/internal/websocket/handler.go:171-203 | in every run history ascends strictly in each conversation, so each message is offered once at most |
| Resume.ShortPageIsLast | services/delivery/internal/websocket/handler.go:171-203 | in every run, when a page is about to be asked for, the pages before it returned a multiple of 100 messages of that conversation: one that is not full was the last |
| Resume.HandlingIs | services/delivery/internal/dispatcher/dispatcher.go:102-151 | what the run theorems call handled, brought to the session, and missed after the listing |
| Resume.PageRequestIs | services/delivery/internal/websocket/handler.go:174-197 | a served page request returns the stored messages of the conversation above the cursor's position before which there are fewer than 100, and any other returns nothing and counts as refused |
| Resume.ResumeLosesNothing | services/delivery/internal/websocket/handler.go:124-203 | after the hand-over every message above the client's last sequence in a synced conversation without a failed page request was offered or brought, if it was stored when the conversations were listed, even before the user joined, or if it was handled and no handling since the listing passed the session by |
| Resume.ResumeDelivers | services/delivery/internal/websocket/session.go:70-146 | and, in an open session at rest, accepted by the queue |
| Resume.ResumeInventsNothing | services/delivery/internal/websocket/handler.go:171-231 | each accepted message is committed and of a conversation that the user is or once was in |
| SessionProtocol.AcceptedInOrder | services/delivery/internal/websocket/session.go:70-146 | in every interleaving what the queue accepted is history, then flushed, then live events; it never holds more than 128; once live the buffer is empty and the flush was a sort result of everything buffered |
| SessionProtocol.NothingLostOrDoubled | services/delivery/internal/websocket/session.go:70-146 | in an open live session at rest the accepted events are those brought and offered, with multiplicity |
| SessionProtocol.ClosesForGood | services/delivery/internal/websocket/session.go:134-166 | closed stays closed, ready stays ready, accepted stays accepted in place, and a dropped event means a closed session |
| SessionProtocol.ClosesIff | services/delivery/internal/websocket/session.go:134-146 | an open session closes if and only if it is told to or an event meets a queue that holds 128 |
| SessionProtocol.ClosedAcceptsNoMore | services/delivery/internal/websocket/session.go:134-147 | in every run a closed session accepts nothing more, once the calls that looked at the flag before it closed are through |
| SessionProtocol.InvStep | services/delivery/internal/websocket/session.go:70-166 | every step keeps order, conservation of each event, and losslessness while open |
| Session.ComparatorIsStrictWeakOrderIff | services/delivery/internal/websocket/session.go:94-106 | the comparator is a strict weak order on a set of events if and only if no unsequenced event lies in the window of a pair whose times contradict their sequences |
| Session.ComparatorIsTimeOrderIff | services/delivery/internal/websocket/session.go:94-106 | it is the order of times if and only if larger non-zero sequences carry strictly later times |
| Session.ComparatorCycle | services/delivery/internal/websocket/session.go:94-106 | three events that form a cycle |
| Session.FlushAscends | services/delivery/internal/websocket/session.go:85-119 | when sequences follow time the flush ascends in time and in sequence |
| Session.SortSlice | services/delivery/internal/websocket/session.go:94-106 | the sorted buffer is a permutation, and sorted whenever the comparator is a strict weak order on it |
| Session.SendAllAcceptsPrefix | services/delivery/internal/websocket/session.go:108-118 | a row of sends accepts a prefix that fills the queue; the rest meets a closed session |
| Session.Session.Buffer | services/delivery/internal/websocket/session.go:70-83 | before the hand-over the event joins the buffer; after it nothing changes and the caller sends |
| Session.Session.TrySend | services/delivery/internal/websocket/session.go:134-146 | a closed session refuses, a full queue closes the session, otherwise the event is enqueued last |
| Session.Session.FlushBufferSorted | services/delivery/internal/websocket/session.go:85-119 | sends a sort result of the buffer, empties it and makes the session ready |
| Session.Session.CloseWithReason | services/delivery/internal/websocket/session.go:152-166 | closing is idempotent and touches neither queue nor buffer |
| History.SyncConversation | services/delivery/internal/websocket/handler.go:171-203 | over a fixed store the paging loop ends, and emits the unpaged query for a member and nothing for others |
| History.HistoryIsExact | services/message/internal/repository/postgres/repo.go:63-112 | that query holds exactly the messages above the position, strictly ascending |
| History.AboveContinues | services/message/internal/repository/postgres/repo.go:70-78 | asking again above the last message of a page continues where the page ended |
| History.PageAdvances | services/message/internal/application/sync.go:18-20 | the clamp leaves page size 100 unchanged, so a page plus the query above it is the query before it, and a short page is the last |
| History.PageIs | services/message/internal/application/sync.go:10-48 | what a page request answers for any page size, and to whom: the messages above the position with fewer before them than were asked for, 100 if that is not 1 to 500 |
| History.BuildToSync | services/delivery/internal/websocket/handler.go:147-160 | what is synced: the client's positions, and 0 for every listed conversation it did not name |
| History.EmitPage | services/delivery/internal/websocket/handler.go:192-197 | the page is sent in order and the position becomes its largest sequence |
| MessageService.ExactlyOnceSend | services/message/internal/application/send_message.go:41-180 | in every run a request has at most one message and that message one MESSAGE_SENT event, all successful answers to a request are that message, and no committed idempotency row is empty |
| MessageEffects.SendWritesIff | services/message/internal/application/send_message.go:41-180 | an attempt changes the tables if and only if nothing fails, the request is new, the sender is among the participants it was told of, number, ids, content and uniqueness are in order, and the commit is applied; then exactly the one message is written |
| MessageEffects.SendAnswersIff | services/message/internal/tx/manager.go:21-49 | when an attempt is answered, tried again or failed, and that the answer is the known message or the one just written |
| MessageEffects.SendErrors | services/message/internal/application/send_message.go:50-112 | the condition of each error, in order |
| MessageEffects.SendersAreParticipants | services/message/internal/application/send_message.go:80-90 | whatever step writes a message, its sender was among the participants its attempt was told of |
| MessageEffects.RepliesIff | services/message/internal/tx/manager.go:21-49 | what the run theorems call answered: a request with a message exactly if some attempt at it ended with that answer |
| MessageEffects.SendLoopIs | services/message/internal/tx/manager.go:16-50 | the loop tries again exactly while attempts end with a retry, five times at most, and the first other one decides |
| MessageEffects.DeletionIs | services/message/internal/application/delete_message.go:26-107 | a deletion answers if and only if it is allowed and its commit applied and replied to; an applied one marks the message, with one event if it was not marked before, and nothing else ever changes |
| MessageEffects.DeletionErrors | services/message/internal/application/delete_message.go:29-62 | the condition of each error of a deletion |
| MessageService.NothingTakenBack | services/message/internal/repository/postgres/repo.go:159-230 | answers, idempotency rows, events and messages persist; a row only ever changes from present to deleted |
| MessageService.LogReplaysToTable | services/message/internal/application/delete_message.go:64-107 | the event log rebuilds the messages table, with one deletion event per deleted row |
| MessageService.SequenceAccounting | services/conversation/internal/repository/postgres/repo.go:328-345 | the numbers drawn from a counter are the disjoint union of used, held and burned ones, and no two messages share one |
| MessageService.GaplessIff | services/message/internal/application/send_message.go:75-112 | a conversation is gapless if and only if every step of the run that took a number of it was followed by an attempt that ended with a message |
| MessageService.SequencesMayGap | services/message/internal/application/send_message.go:75-112 | a run whose only message has sequence 2 |
| MessageService.AttemptAnswers | services/message/internal/application/send_message.go:41-180 | one attempt keeps rows and messages one to one, adds one event at most, changes nothing for a known request, and answers with its committed message |
| MessageService.SendLoopAnswers | services/message/internal/tx/manager.go:16-50 | so does the whole retry loop |
| MessageService.SendCases | services/message/internal/application/send_message.go:94-178 | an attempt leaves the tables alone or inserts one new message for a request without one |
| MessageService.DeleteCases | services/message/internal/application/delete_message.go:26-76 | a deletion leaves the tables alone or marks an undeleted message of that conversation, asked for by its sender or an admin |
| MessageService.IsParticipant | services/message/internal/application/send_message.go:80-86 | the loop finds the user if and only if it is a participant |
| MessageService.Service.SendTx | services/message/internal/application/send_message.go:41-180 | the transaction body, statement by statement, leaves the tables the specification gives, or an error |
| MessageService.Service.SendMessage | services/message/internal/tx/manager.go:16-50 | the retry loop around it: up to five attempts, rollback on error, a lost commit reply applied but not answered |
| MessageService.Service.DeleteTx | services/message/internal/application/delete_message.go:26-107 | the deletion body: checks in order, no-op when deleted, else mark and event |
| MessageService.Service.TryInsertIdempotency | services/message/internal/repository/postgres/repo.go:173-193 | owns the row if and only if it was absent |
| MessageService.Service.InsertMessage | services/message/internal/repository/postgres/repo.go:30-61 | fails if and only if the id or the conversation's sequence number is taken |
| Outbox.RelaySafety | services/conversation/internal/outbox/worker.go:38-149 | for both relays, in every run with rollbacks and failing publishes, also such as report an error although the record is on the stream: each event is pending, processed or dead-lettered, exactly one of these; processed implies published; settled ids are downward closed; whatever became visible came after every lower event had been published or dead-lettered |
| Outbox.RetryBounds | services/conversation/internal/outbox/worker.go:89-128 | pending retry counts never exceed the maximum, dead rows carry one more, and the message relay dead-letters nothing |
| Outbox.StreamRewinds | services/message/internal/outbox/worker.go:37-104 | without dead letters the stream is the log with rewinds: each record is the next event or an earlier one |
| Outbox.DrainedStream | services/conversation/internal/outbox/worker.go:38-149 | drained, the stream holds the whole log and ends at its end |
| Outbox.CommitProgress | services/conversation/internal/outbox/worker.go:89-148 | every committed batch strictly lowers the sum over pending events of maxRetries + 1 - retry_count |
| Outbox.CommitsAreBounded | services/conversation/internal/outbox/worker.go:38-149 | without inserts, committed batches plus the remaining sum never exceed the sum at the start |
| Outbox.PendingMeansWork | services/conversation/internal/outbox/worker.go:47-87 | something is pending if and only if the sum is positive, and if and only if the next batch is not empty |
| Outbox.BatchIsOldest | services/conversation/internal/outbox/worker.go:47-54 | the batch query gives the oldest pending rows, ascending, none skipped |
| Outbox.BatchEffectSafe | services/conversation/internal/outbox/worker.go:96-148 | a worker's batch is a run of machine steps, so it keeps the safety invariant whatever fails |
| RelayEffects.GoodBatchIs | services/conversation/internal/outbox/worker.go:96-148 | a batch in which everything goes well and whose commit is applied, of either relay: its rows are processed, they were appended to the stream in order, and nothing else changed |
| RelayEffects.FailedPublishIs | services/conversation/internal/outbox/worker.go:98-131 | a failed publish of the relay that commits its progress: the rows before it are processed, its own row counts one retry more or is dead with it, and nothing else changed |
| RelayEffects.AbortedBatchIs | services/message/internal/outbox/worker.go:76-104 | every other batch leaves the tables alone, and what reached the stream stays there |
| RelayEffects.BatchIsFull | services/conversation/internal/outbox/worker.go:47-54 | a batch below its limit holds every pending row |
| RelayEffects.GoodBatchesDrain | services/conversation/internal/outbox/worker.go:38-149 | as many good batches as there are unpublished events leave nothing pending, whichever relay it is |
| Outbox.PublishLoop | services/conversation/internal/outbox/worker.go:97-143 | publishes and marks the batch up to the first failure |
| Outbox.Store.ProcessBatchPartial | services/conversation/internal/outbox/worker.go:38-149 | the conversation worker has that effect: progress commits, the failed row counts a retry or is dead-lettered |
| Outbox.Store.ProcessBatchAtomic | services/message/internal/outbox/worker.go:37-104 | the message worker has it too: any failure rolls the whole batch back, published events stay published |
| Outbox.Store.CountFailure | services/conversation/internal/outbox/worker.go:101-128 | a row with its retries used up moves to the dead-letter table with one more, any other counts one more |
| Outbox.Store.InsertOutbox | services/message/internal/repository/postgres/repo.go:232-244 | an insert gets the next id and is pending |
| Conversation.MembershipInvariant | services/conversation/internal/application/remove_participants.go:36-72 | in every run a group has exactly one admin, its creator, who is a participant, and a direct conversation exactly its two distinct founders |
| ConversationEffects.AdditionIs | services/conversation/internal/application/add_participant.go:30-94 | the answer of an addition in every case; and the target alone gets a row, with an event, exactly if the actor may change the group and the target is not in it |
| ConversationEffects.RemovalIs | services/conversation/internal/application/remove_participants.go:30-109 | the answer of a removal in every case; and the target's row alone goes, with an event, exactly if the actor may change the group and the target is in it and not its last admin |
| ConversationEffects.CreatorGoverns | services/conversation/internal/application/remove_participants.go:40-63 | in every run a group's creator and nobody else may change it, and is its last admin |
| ConversationEffects.ReceiptIs | services/conversation/internal/application/update_receipt.go:19-67 | the number that a receipt records and announces, the larger position kept, and no other row changed |
| ConversationEffects.NumberIs | services/conversation/internal/repository/postgres/repo.go:328-345 | the counter goes up by one and is the answer; without a counter there is none |
| ConversationEffects.CreationIs | services/conversation/internal/application/create_conversation.go:29-196 | the answer of a creation that nobody races in every case, and the tables after it |
| Conversation.ConversationsAreForEver | services/conversation/internal/application/add_participant.go:36-58 | conversations never vanish or change kind, founders are fixed, and a direct pair never changes |
| Conversation.DirectPairsAreUnique | services/conversation/internal/application/create_conversation.go:45-103 | no run holds two direct conversations of one pair |
| Conversation.CreateReturnsExisting | services/conversation/internal/application/create_conversation.go:45-90 | creating for an existing pair under a fresh id, in either order, changes nothing and returns the first one |
| Conversation.CreateReturnsThePair | services/conversation/internal/repository/postgres/repo.go:278-311 | for colon-free user ids the conversation returned for a pair is a conversation of that pair |
| Creation.LosesRaceIff | services/conversation/internal/application/create_conversation.go:50-83 | for all tables, commands and rivals: a creation that found nothing at its checks ends with an error if and only if a user is repeated, or another creation took its id or lookup key between its checks and its inserts; then it leaves the tables as the others left them, otherwise it adds its conversation |
| Creation.RacingIsSerial | services/conversation/internal/application/create_conversation.go:50-130 | a racing creation is a creation alone at the moment of its inserts, or does nothing, so every invariant of serial runs holds under races |
| Creation.LosingCreator | services/conversation/internal/application/create_conversation.go:69-83 | two creators of one pair: the losing call ends with an error although the pair's conversation exists |
| Creation.RetryFindsWinner | services/conversation/internal/tx/manager.go:16-50 | a creation that lost to another one would find the winner if it were tried again |
| Conversation.LogReplaysToTable | services/conversation/internal/application/create_conversation.go:145-196 | the event log replays to the participants table |
| Conversation.ReadPositionsBounded | services/conversation/internal/repository/postgres/repo.go:56-102 | in every run a stored read position is at most the counter less one, or 0: nobody is ever recorded as having read the newest message |
| Conversation.ReadPositionsNeverFall | services/conversation/internal/repository/postgres/repo.go:56-73 | over any part of a run in which a user stays a participant, neither the stored read position nor the counter falls |
| Conversation.ReceiptStoredIff | services/conversation/internal/application/update_receipt.go:19-37 | a receipt for a given-out number is stored if and only if it lies below the newest one or was passed before |
| Conversation.NewestReceiptIsLost | services/conversation/internal/repository/postgres/repo.go:75-102 | a run in which reading the only message is recorded as having read none |
| Conversation.Service.CreateConversation | services/conversation/internal/application/create_conversation.go:24-90 | one attempt with whatever others commit between its checks and its inserts: validation, both lookups, the inserts, and the refetch, which finds a row only in the Redis cache and then ends with an error still |
| Conversation.Service.DoCreateConversation | services/conversation/internal/application/create_conversation.go:105-196 | the inserts succeed if and only if none violates a constraint, and otherwise nothing is kept |
| Conversation.Service.InsertParticipants | services/conversation/internal/application/create_conversation.go:132-143 | succeeds if and only if the users are distinct, the first one admin of a group |
| Conversation.Service.AddParticipant | services/conversation/internal/application/add_participant.go:20-94 | checks in order, then a row and an event, or a no-op for a present target |
| Conversation.Service.RemoveParticipant | services/conversation/internal/application/remove_participants.go:20-109 | checks in order and the last-admin check, then the row goes and an event comes |
| Conversation.Service.CountAdmins | services/conversation/internal/application/remove_participants.go:54-72 | the loop counts the admins |
| Conversation.Service.UpdateReadReceipt | services/conversation/internal/application/update_receipt.go:13-69 | clamps, keeps the larger position, always appends the event |
| Conversation.Service.TakeNextSequence | services/conversation/internal/repository/postgres/repo.go:328-345 | returns the incremented counter |
| LookupKey.KeyIdentifiesPair | services/conversation/internal/application/create_conversation.go:93-103 | for colon-free ids keys are equal if and only if the unordered pairs are |
| LookupKey.JoinCollidesIff | services/conversation/internal/application/create_conversation.go:101-102 | for any ids, exactly when two joined keys coincide |
| LookupKey.KeySymmetric | services/conversation/internal/application/create_conversation.go:97-100 | the key does not depend on the order of the pair |
| LookupKey.KeyIs | services/conversation/internal/application/create_conversation.go:97-102 | the key names the pair with the smaller id first |
| LookupKey.GreaterIs | services/conversation/internal/application/create_conversation.go:98 | that order is the one of the first difference, and a proper beginning comes first |
| LookupKey.KeysMayCollide | services/conversation/internal/application/create_conversation.go:93-103 | two different pairs with one key |
| Convergence.EntryConvergesIff | services/delivery/internal/dispatcher/dispatcher.go:102-151 | exactly when an entry, whatever it began with, ends equal to the log's members at the end of a stream with rewinds and with lookups that fail or answer with any committed version |
| Convergence.LoadedEntryConverges | services/delivery/internal/dispatcher/dispatcher.go:102-151 | an entry loaded after the creation from a version no older than the start of the stream always does, because the creator is never removed and so no lookup happens |
| Convergence.UnloadedEntryConvergesIff | services/delivery/internal/dispatcher/dispatcher.go:248-267 | an empty one does if and only if some event loads it and the last load was fresh |
| Convergence.AdditionToUnloadedEntry | services/delivery/internal/dispatcher/dispatcher.go:190-198 | a stream after which the entry lacks the creator |
| Convergence.StaleLookup | services/conversation/internal/repository/postgres/repo.go:113-138 | a stream after which the entry lacks a member because a lookup answered with an older version |
| Convergence.OnDemandEntryConvergesIff | services/delivery/internal/dispatcher/dispatcher.go:248-266 | the entry of an instance that does not read the conversation topic equals the table if and only if the first answer with members of a lookup still does |
| Convergence.OnDemandEntryStays | services/delivery/internal/dispatcher/dispatcher.go:250-253 | whatever comes after that answer changes nothing |
| Membership.IndexRefinesPairs | services/delivery/internal/membership/cache.go:20-94 | after any run the two maps are exact inverses and tell exactly the pairs of the run |
| Membership.SetMembersIsLocal | services/delivery/internal/membership/cache.go:68-94 | replacing the members of one conversation changes no other's |
| Membership.Cache.Add | services/delivery/internal/membership/cache.go:20-34 | both maps gain the pair |
| Membership.Cache.Remove | services/delivery/internal/membership/cache.go:36-46 | both maps lose the pair |
| Membership.Cache.SetMembers | services/delivery/internal/membership/cache.go:68-94 | unlinks the old members, links the new ones |
| Membership.Cache.Members | services/delivery/internal/membership/cache.go:48-56 | lists the members, each once |
| Membership.Cache.UserConvs | services/delivery/internal/membership/cache.go:58-66 | lists a user's conversations, each once |
| Dispatcher.FanOut | services/delivery/internal/dispatcher/dispatcher.go:119-180 | one publish per remote instance and none to the handling one, no session offered the event twice whatever presence and the instances' own caches say, and if presence agrees with the registries and the instances resolve the same members every session of every member offered it once |
| Dispatcher.ReachesAllIff | services/delivery/internal/dispatcher/dispatcher.go:153-246 | exactly how right presence and each instance's own resolved members must be for the event to reach every session of every member |
| Dispatcher.ReachedIff | services/delivery/internal/dispatcher/dispatcher.go:153-246 | exactly which sessions are reached, of members or not |
| Dispatcher.AgreementReachesAll | services/delivery/internal/dispatcher/dispatcher.go:153-246 | full agreement of presence, registries and resolved members reaches the members' sessions and no other |
| Dispatcher.DeliverToUser | services/delivery/internal/dispatcher/dispatcher.go:153-180 | local sessions of listed devices once each, and the instances of the other devices |
| Dispatcher.Route | services/delivery/internal/dispatcher/dispatcher.go:119-145 | the same over all members, with each remote instance once |
| Dispatcher.DeliverRemote | services/delivery/internal/dispatcher/dispatcher.go:210-246 | the receiving instance offers the event to every session of every member once |
| Dispatcher.Handler.ResolveMembers | services/delivery/internal/dispatcher/dispatcher.go:248-267 | a non-empty entry is a hit; a miss caches the lookup's answer; a failed lookup changes nothing |
| Dispatcher.Handler.UpdateMembership | services/delivery/internal/dispatcher/dispatcher.go:102-151 | handling an event changes its conversation's entry as `Convergence.Handle` says and no other, and routes to the entry before the removal |
| Registry.RegistryHoldsLastAdded | services/delivery/internal/websocket/registry.go:19-63 | after any run a user and device map to a session if and only if it was added last and not removed; no empty user entry |
| Registry.LateRemoveIsVoid | services/delivery/internal/websocket/registry.go:49-63 | a removal by a replaced session changes nothing |
| Registry.ReplacedSessionsAreClosed | services/delivery/internal/websocket/registry.go:19-47 | every session ever added is current, closed, or was removed by its own connection |
| Registry.ClosedWasReplaced | services/delivery/internal/websocket/registry.go:25-40 | and no other session is closed |
| Registry.Registry.Add | services/delivery/internal/websocket/registry.go:19-47 | stores the session and closes the one it replaces |
| Registry.Registry.Remove | services/delivery/internal/websocket/registry.go:49-63 | removes only the current session, and an emptied user entry |
| Registry.Registry.GetUserSessions | services/delivery/internal/websocket/registry.go:65-74 | the user's sessions |
| Presence.ListedIff | services/presence/internal/presence/redis.go:43-145 | after any run, with cleanups at any later time, a device is listed if and only if it is up and no late cleanup took it out, at the instance it registered with last |
| Presence.AtomicListing | services/presence/internal/presence/redis.go:98-145 | with the cleanup at the lookup a device is listed if and only if it is up |
| Presence.KeptUpIsListed | services/presence/internal/presence/redis.go:75-81 | then a device refreshed at gaps under 60 seconds is listed until it unregisters |
| Presence.UpIffKeptUp | services/presence/internal/presence/redis.go:43-81 | a device is up if and only if since its last registration it has not unregistered and was always refreshed in time |
| Presence.AnswerOfTwoCalls | services/presence/internal/presence/redis.go:101-132 | whatever comes between the two calls of a lookup, it answers only with devices that are up at the second, and with every one that is up at both and was not lost |
| Presence.SetOutlivesKeys | services/presence/internal/presence/redis.go:43-81 | the device set outlives every live session key that was not lost by at least an hour |
| Presence.RegistrationIs | services/presence/internal/presence/redis.go:43-55 | the key, the member and both expiries that a registration leaves, and that no other device or user is concerned |
| Presence.UnregistrationIs | services/presence/internal/presence/redis.go:57-65 | the key and the member go, and the set stays as long as it would have |
| Presence.RefreshIs | services/presence/internal/presence/redis.go:75-81 | what is there lasts 60 and 3660 seconds from now, and nothing appears |
| Presence.SRemMembers | services/presence/internal/presence/redis.go:134-142 | a cleanup takes exactly its devices out of the set |
| Presence.LostToALateCleanup | services/presence/internal/presence/redis.go:101-142 | a device is lost only by registering after a lookup of two calls found it stale and before that lookup's cleanup |
| Presence.LateCleanupHidesDevice | services/presence/internal/presence/redis.go:134-142 | a run in which a connected device is not listed |
| Presence.Store.RegisterDevice | services/presence/internal/presence/redis.go:43-55 | key, set member and both expiries |
| Presence.Store.UnregisterDevice | services/presence/internal/presence/redis.go:57-73 | key and member go; offline is announced if and only if no live device is listed or the lookup fails |
| Presence.Store.RefreshDevice | services/presence/internal/presence/redis.go:75-81 | both expiries are renewed where the keys are there |
| Presence.Store.GetUserDevices | services/presence/internal/presence/redis.go:98-145 | the devices whose session keys are there, and the stale ones left to a cleanup |
| Connections.CurrentIsListedIff | services/delivery/internal/websocket/handler.go:63-108 | the device of a registry's current session is listed at that instance if and only if its own instance registered it last, and since then no other session of the device has ended, it was refreshed in time, and no late cleanup took it out |
| Connections.LateRegistrationMisleads | services/delivery/internal/websocket/handler.go:66-77 | a run in which a device's session is current at one instance and presence names the one it left |
| Connections.UnregisteredByAnother | services/delivery/internal/websocket/handler.go:96-105 | whoever unregistered the device of a current session was another session |
| Connections.ReplacedSessionHidesDevice | services/delivery/internal/websocket/handler.go:96-105 | a run in which a replaced session ends, and the connected device is not listed |

## Left out

- Several workers on one outbox (`SKIP LOCKED`) and ids that become visible out of commit order: one worker, and inserts that become visible with the next higher id; rolled-back inserts may leave gaps in the ids.
- Transaction isolation: a transaction is one serial, all-or-nothing step; an abort, a retry and a lost reply are steps of their own or change nothing.
- Handlings of one conversation's records that run together in `Convergence` and `MembershipPipeline`: they feed one entry with whole handlings in stream order. `MessagePipeline` lets handlings of any records run together, step by step.
- Several instances in `MessagePipeline`: it has one, which may or may not handle the conversation topic; the fan-out between instances, each with its own members, is `Dispatcher`'s, and what presence says of a connected device is `Connections`'.
- The moment between finding a session in the registry and offering it the event: `MessagePipeline` makes it one step. That a session leaves the registry before it is closed is a step of its own there.
- Retries of a creation whose error reads as a serialization error: the loop is that of `SendMessage`; `Creation.RetryFindsWinner` says what it would find.
- The link between the sequence counter and the participants that a send sees in `MessageService` and those of `Conversation`: a send meets any answer.
- Session.SortSlice: insertion sort on a sequence stands for the library's in-place sort, of which only the result is used elsewhere.
- MessageService.Service.DeleteTx: the retry loop around it is the one of `SendMessage` and is not written out again; timestamps of deletions are a flag.
- MessageService.Service.SendMessage: whether an error's text reads as a serialization error is an input, and the content limit of 5000 counts characters, not bytes.
- Conversation.Service.CreateConversation: the participants in the creation event come in the order given, and the two lookups that run in parallel are one choice of which answers first; the tables are read once, by both the lookups before the transaction and the checks in it.
- Presence.Store.GetUserDevices: keys are pairs of user and device; that the joined key strings of different pairs differ holds only without colons in the ids.
- Expiry of idempotency rows after a day: nothing in the code deletes them.
- The Redis cache of conversations as a store of its own: a lookup answers with any committed version.
- Encoding: events and messages are datatypes, and encoding is taken to round-trip. Names, avatars and error texts are not kept.
- Heartbeats, ping timers, WebSocket framing, the presence update channel and its watchers.
- Gateway, authentication and profile services: plumbing and library calls, with relays that are weaker variants of the two modelled.
- The domain methods that add and remove participants (`services/conversation/internal/domain/conversation.go`), which the application does not call.
