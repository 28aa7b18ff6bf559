# Verification model of the Sravz streaming backend

This project models the stateful parts of the C++ backend and proves properties of
them over every run. Two concurrent systems carry most of it.

**The quote hub.** Browser sessions subscribe to topics over WebSocket. The hub keeps
a two-way index (each session's topics, each symbol's sessions), announces the first
and last session of a topic to a Redis subscriber through a bounded queue, and a
publisher fans Redis messages out to the sessions through weak pointers. The two
directions of the index are guarded by different mutexes, so a topic operation is two
critical sections with anything in between.

- `TopicIndex` defines the critical sections as functions on the index, and proves what
  a whole call does when it runs alone.
- `SharedStates` and `HubThreads` are the heap objects (symbols, sessions, shared
  state, subscriber, publisher) with the source's loops, each method proved against
  those functions. `WriteQueue` is the outgoing queue of one session.
- `HubSystem` interleaves everything: one action is one critical section, one queue
  operation or one callback. `HubIndex`, `HubEvents` and `HubFanout` hold the three
  parts of the inductive invariant, `HubRuns` the theorems over runs, `HubOverflow` the
  runs in which a full queue misleads the subscriber. `HubRequests` says what a request
  or a departure comes to, among all other activities and left alone; `HubDelivery`
  takes a quote from Redis to the wire of a client.
- `HubLocks` takes the critical sections apart: acquisitions, the separate writes
  inside a section (a subscribe pushes its event before it inserts, an unsubscribe
  erases before it pushes, the publisher copies pointers one by one), and releases.
  `HubMutexes` proves the mutex invariant, `HubRefinement` that every such run is a
  run of `HubSystem` with its sections made whole and every continuation of it a
  continuation there, and reads the main theorems off in memory, `HubUnfolding` that
  conversely every run of `HubSystem` can be taken apart; `HubProgress` that
  no thread deadlocks and that no freed session is copied, posted to or run.

**The Redis uploader.** Three threads receive, filter by timestamp, and batch points
into `TS.MADD` commands that are retried after a failure. `Uploader` interleaves the
single passes, `UploaderRuns` proves the theorems, `RedisSubscribers` is the object
with its loops. Message fields are modelled as the code meets them (missing, string,
number, other), and `verbose` says whether the log statements are evaluated.

**Smaller parts.** `Backoff` (the polling loop), `Tokens` and `Utils` (separator
splitting and fund codes), `S3Select` (IN list and record array), `DuckDb` (the table
cache), `Decimal` (integer printing), `SpscQueue` (bounded queues), `Sequences`.

## What turned out false, and when exactly it holds

- *Redis follows the sessions.* Push results are ignored, so a full event queue breaks
  the agreement (`RefusedPushLosesASubscription`). From a state in agreement a section
  breaks it exactly when it crosses an edge and the queue is full
  (`OnlyARefusedPushBreaksAgreement`), and over whole runs a topic disagrees exactly
  when an odd number of its events was refused since the last accepted one
  (`SubscriptionFollowsSessions`).
- *The subscription counter is the size of the subscription.* After every event so far
  it is, exactly when no event was ever pushed with success for a topic in
  disagreement (`CounterIsSubscriptionSize`); that is also exactly when the accepted
  events alternate per topic (`EventsAlternate`). Otherwise, once the pending events
  are applied, it is off by the SUBSCRIBEs less the UNSUBSCRIBEs so pushed.
- *Consume runs only with something subscribed.* With nothing subscribed and nothing
  pending it runs exactly when that surplus is not zero
  (`ConsumeNeedsASubscription`); a run ends with the counter at -1
  (`RefusedPushMisleadsTheCounter`).
- *A command is a list of triples.* A point whose `p` is not a string leaves two
  arguments behind (`ANumericPriceMisframes`); a command reads back as its points
  exactly when it holds no such point (`CommandsReadBack`).
- *The record stream arrives as sent, however it is cut into events.* It arrives whole
  exactly when it holds no NUL (`StreamArrivesWhole`), since each event passes through
  `c_str`. What arrives is independent of the cutting exactly when NULs stand only at
  its end (`StreamIndependentOfCutting`); the output is so in one more case, when only
  a comma is left behind the first NUL (`OutputIndependentOfCutting`).
- *The IN list reads back.* Exactly when no token holds a quote (`InListReadsBack`).
- *The cache answers with the file asked for.* Over all requests for a set of files,
  exactly when no two of them collide in both hashes (`ServesExactlyWithoutCollisions`).

## Model

| member | source | states |
|---|---|---|
| TopicIndex.ApplySets | src/web/shared_state.cpp:50-91 | a call run alone moves exactly the listed topics, in both directions of the index, duplicates included |
| TopicIndex.ApplyEvents | src/web/shared_state.cpp:63-66 | a call run alone announces each topic whose edge it crosses exactly once, at its first occurrence, as far as the queue has room |
| TopicIndex.RoundTripRestoresMembers | src/web/shared_state.cpp:50-91 | subscribe then unsubscribe of one list restores every membership set iff the session was in none of the topics before, whatever the queue drops |
| TopicIndex.RoundTripAnnouncesInPairs | src/web/shared_state.cpp:63-66 | the same round trip pushes one SUBSCRIBE and one matching UNSUBSCRIBE for each topic that had nobody, and leaves other sessions alone |
| TopicIndex.ApplyKeepsAgreement | src/web/shared_state.cpp:50-91 | a call run alone keeps the two directions in agreement for every session |
| TopicIndex.Firsts | src/web/shared_state.cpp:63-66 | each announced topic is listed once, and is exactly one that was asked for and empty |
| SpscQueue.BurstKeepsThePrefixThatFits | src/web/shared_state.hpp:39-44 | pushes without pops keep exactly the prefix that fits in 1024 slots |
| SpscQueue.ServedKeepsOrder | src/redis_subscriber.cpp:108-123 | whatever is pushed between polls, refused or not: a consumer reads in order, each element at most once, and only what arrived |
| SpscQueue.ServedTakesTheHead | src/redis_subscriber.cpp:108-123 | whatever arrives meanwhile, the first n polls of a queue of at least n elements take its first n, in order |
| SpscQueue.ServedWithRoom | src/redis_subscriber.cpp:108-123 | with room for everything nothing is lost: read and left over are what there was and what arrived |
| SharedStates.Symbol.Join | src/web/symbol.cpp:11-13 | the session is added, nothing else changes |
| SharedStates.Symbol.Leave | src/web/symbol.cpp:15-17 | the session is removed; the result is the number erased |
| SharedStates.WebsocketSession.OnSend | src/web/websocket_session.cpp:74-87 | appends, and starts a write exactly when the queue was empty |
| SharedStates.WebsocketSession.OnWrite | src/web/websocket_session.cpp:89-102 | a success erases the front and starts the next write, a failure stops; the writer stays sound |
| SharedStates.SharedState.constructor | src/web/shared_state.cpp:28-42 | one fresh, empty symbol for each comma-separated topic |
| SharedStates.SharedState.Join | src/web/shared_state.cpp:44-48 | the session joins the connections |
| SharedStates.SharedState.EnterSymbol | src/web/shared_state.cpp:61-67 | the symbol section of a subscribe is the Commit the interleaved hub uses |
| SharedStates.SharedState.LeaveSymbol | src/web/shared_state.cpp:83-89 | the symbol section of an unsubscribe is the Commit the interleaved hub uses |
| SharedStates.SharedState.WebsocketSubscribeToSymbols | src/web/shared_state.cpp:50-71 | the loop over a list with duplicates is the whole call of TopicIndex |
| SharedStates.SharedState.WebsocketUnsubscribeToSymbols | src/web/shared_state.cpp:73-91 | the loop over a list with duplicates is the whole call of TopicIndex |
| SharedStates.SharedState.Leave | src/web/shared_state.cpp:93-101 | over a copy of the topics in any order: afterwards no symbol lists the session, its record is empty, other sessions are unchanged |
| SharedStates.SharedState.Parse | src/web/shared_state.cpp:103-131 | after type 1 the session is in the symbols of all comma-separated topics and they in its record, after type 2 in none of them; other topics and sessions are unchanged, and any other request or text changes nothing |
| SharedStates.LeavingClears | src/web/shared_state.cpp:93-96 | unsubscribing every recorded topic, in any order, leaves the session in no symbol |
| HubThreads.Subscriber.Pass | src/web/subscriber.cpp:47-83 | consume only with a non-zero counter; then one event changes subscription and counter |
| HubThreads.Subscriber.Subscribe | src/web/subscriber.cpp:47-83 | the loop, with events pushed and messages taken between its passes: it applies the events it reads in order, the counter moves by their balance, and a pass hands on its message iff the counter is not zero before it |
| HubThreads.Publisher.Snapshot | src/web/publisher.cpp:26-34 | every session of the symbol, each once |
| HubThreads.Publisher.Publish | src/web/publisher.cpp:36-42 | each member is tried once and gets the message posted exactly if its pointer locks at that moment, while owners come and go between tries; nobody else is touched |
| WriteQueue.WrittenThenQueuedIsSent | src/web/websocket_session.cpp:74-102 | over all callback sequences: written plus queued is what was sent; at most one write, of the queue's front; outstanding iff non-empty while nothing failed; no erase of an empty queue |
| WriteQueue.FailureEndsWriting | src/web/websocket_session.cpp:79-92 | after a failed write no continuation ever starts another |
| HubIndex.NextKeepsIndex | src/web/shared_state.cpp:44-101 | every action keeps the two-way invariant of every session |
| HubEvents.NextKeepsEvents | src/web/shared_state.cpp:63-66 | every action keeps the event laws, refused pushes included |
| HubEvents.CoherentMeansAlternating | src/web/subscriber.cpp:63-76 | every event changes the subscription iff each topic's events strictly alternate, beginning with the right kind |
| HubEvents.CounterDrifts | src/web/subscriber.cpp:63-76 | over every event sequence the counter is the size of the subscription plus the redundant SUBSCRIBEs less the redundant UNSUBSCRIBEs |
| HubEvents.CountsRightWhenCoherent | src/web/subscriber.cpp:63-76 | over every event sequence the counter is right after each event iff none is redundant |
| HubFanout.UnownedForever | src/web/publisher.cpp:38-42 | the semantics of a weak pointer, modelled by the ownership guard of Lock: it never locks again once the last owner is gone, because no action of the hub makes an owner out of none |
| HubFanout.NextKeepsStreams | src/web/websocket_session.cpp:64-102 | every action keeps each session's stream equal to what was locked for it |
| HubFanout.NextKeepsSettled | src/web/publisher.cpp:26-42 | every action keeps: a snapshot's session was locked, is awaited, or has no owner |
| HubRuns.HistoryOnlyWatches | src/web/shared_state.hpp:33-60 | the recorded history the theorems speak of drives nothing: whatever it says, the same actions can happen and do the same to the hub |
| HubRuns.SubscriptionFollowsSessions | src/web/shared_state.cpp:50-91 | in every reachable state the pending events replayed over Redis give exactly the topics with sessions, up to topics with an odd number of refused events; without refusals exactly |
| HubRuns.OnlyARefusedPushBreaksAgreement | src/web/shared_state.cpp:63-66 | a critical section breaks the agreement iff it crosses an edge with the queue full |
| HubRuns.EventsAlternate | src/web/shared_state.cpp:84-89 | per topic the accepted events alternate iff none was accepted for a topic in disagreement; then the pending ones begin with the kind that changes Redis |
| HubRuns.CounterIsSubscriptionSize | src/web/subscriber.cpp:48-76 | in every reachable state: the counter is right after each accepted event iff none was accepted for a topic in disagreement; in any case it will be off by the surplus of such events once the pending ones are applied, and is off by the redundant ones applied |
| HubRuns.ConsumeNeedsASubscription | src/web/subscriber.cpp:48-50 | when consume can run: with nothing subscribed and nothing pending iff that surplus is not zero; without such events iff something is subscribed |
| HubRuns.IndexIsTwoWay | src/web/shared_state.cpp:52-90 | in every reachable state the directions agree, except for the one topic a session is midway through, where the session's record has already moved |
| HubRuns.ConnectionsAreTheOpenSessions | src/web/shared_state.cpp:44-48 | in every run a session is among the connections iff its handshake was accepted and its destructor has not ended |
| HubRuns.LoopsNeverStick | src/web/shared_state.cpp:50-101 | no topic loop is stopped by a missing symbol or record |
| HubRuns.LeaveIsFinal | src/web/websocket_session.cpp:16-19 | after leave, in every continuation: in no symbol, not among the connections, in no later snapshot |
| HubRuns.FanOutIsExact | src/web/publisher.cpp:14-42 | written, queued and posted are exactly the messages for which the weak pointer locked, once each, in pop order; the written part is a prefix; the publisher's local payload is that of the message popped last |
| HubRuns.NobodyWhoStayedIsSkipped | src/web/publisher.cpp:36-42 | when the publisher is through, each session of the snapshot was sent the message, or it neither reads nor serves any more and has no handler posted and no write outstanding |
| HubRuns.MessagesArriveInOrder | src/web/subscriber.cpp:32-43 | what the publisher pops is what consume delivered at strictly increasing positions, so each at most once and in order, but for exactly the refused messages |
| HubRuns.SnapshotIsTheMembers | src/web/publisher.cpp:26-34 | a snapshot is the membership at that moment, all of it in memory |
| HubRuns.OneWriteAtATime | src/web/websocket_session.cpp:79-102 | in the whole hub no session has two writes outstanding |
| HubRequests.RequestTakesEffect | src/web/shared_state.cpp:50-91 | among any other activities: when a request's loop has ended, the session's record and the symbols have gained or lost exactly the topics listed |
| HubRequests.RequestAlone | src/web/shared_state.cpp:103-131 | from every reachable state a reading session can make any request for configured topics, and left alone gets through it; the hub has then done the whole call and nothing else |
| HubRequests.DepartureAlone | src/web/websocket_session.cpp:16-19 | from every reachable state a session that reads no more and that nothing refers to can be destroyed, and left alone leave ends with it nowhere and everybody else unchanged |
| HubRequests.NewcomerAlone | src/web/websocket_session.cpp:29-47 | a handshake can succeed, the session then reads and is connected, or fail, it then stays quiet; nothing else changes |
| HubDelivery.SubscriberCatchesUp | src/web/subscriber.cpp:53-83 | from every reachable state the pending events can be applied; Redis then has exactly the topics with sessions iff none is left in disagreement |
| HubDelivery.PublisherAlone | src/web/publisher.cpp:14-42 | from every reachable state a waiting message can be published: each member of its topic that reads, serves, writes or has a handler posted is sent it once, nobody else is |
| HubDelivery.StrandAlone | src/web/websocket_session.cpp:64-102 | from every reachable state everything sent to a session can be written, in order, unless a write has failed |
| HubDelivery.QuoteReachesTheClient | src/web/subscriber.cpp:32-51 | from every reachable state without refused events, a message for a topic that a reading client asked for can reach its wire, behind everything sent before |
| HubOverflow.RefusedPushLosesASubscription | src/web/shared_state.cpp:63-66 | a concrete run: a client is subscribed, nothing is pending, Redis has nothing |
| HubOverflow.RefusedPushMisleadsTheCounter | src/web/subscriber.cpp:48-75 | a concrete run: the counter is -1 and consume runs with nothing subscribed |
| HubMutexes.StepKeepsLocks | src/web/shared_state.cpp:45-99 | every micro-step keeps: each mutex has the one holder the code says, and what a section relies on stays put |
| HubRefinement.LockedRunsAreHubRuns | src/web/shared_state.cpp:50-101 | every run of the lock-level machine is a run of the atomic hub, and every continuation of it a continuation there |
| HubUnfolding.HubRunsAreLockedRuns | src/web/shared_state.cpp:44-101 | every run of the atomic hub is a run of the lock-level machine that ends with the same memory and every mutex free |
| HubRefinement.CheckSimulated | src/web/shared_state.cpp:61-67 | pushing before inserting is invisible: the section takes effect when it tests the set |
| HubRefinement.ReportSimulated | src/web/shared_state.cpp:83-89 | erasing before pushing is invisible: the section takes effect when it tests the set |
| HubRefinement.SnapshotSimulated | src/web/publisher.cpp:27-34 | copying pointers one by one under the mutex is one snapshot |
| HubRefinement.MemoryIndexIsTwoWay | src/web/shared_state.cpp:52-90 | the two-way index read in memory at any moment, whoever is inside the symbol, but for the session's own topic operation |
| HubRefinement.MemorySubscriptionFollowsSessions | src/web/shared_state.cpp:50-91 | the subscription law read in memory at any moment: with a section under way past its test, or short of it after an erase, the topic still counts as having sessions |
| HubRefinement.MemoryLeaveIsFinal | src/web/websocket_session.cpp:16-19 | after leave, in memory and in every continuation of the lock-level machine: in no symbol, not among the connections, in no later snapshot, and the publisher is not about to copy the pointer |
| HubProgress.HoldersNeverWait | src/web/shared_state.cpp:53-67 | a thread has at most one mutex, the publisher's also while it runs a destructor, and a holder always has a next step that acquires nothing |
| HubProgress.NoSessionDeadlocks | src/web/shared_state.cpp:50-101 | an unfinished session can move or waits for a holder that can |
| HubProgress.NoPublisherDeadlock | src/web/publisher.cpp:14-43 | so can the publisher, also when its thread runs the destructor of a session it held last |
| HubProgress.CopiesOnlyLiveMemory | src/web/publisher.cpp:31-33 | each pointer dereferenced under the mutex is to a session not yet freed |
| HubProgress.CallsOnlyLiveMemory | src/web/publisher.cpp:38-42 | a freed session is never posted to, and none of its handlers or topic sections runs |
| UploaderRuns.UploadsInOrder | src/redis_subscriber.cpp:20-94 | over any interleaving, drops and failures: the points of the successful commands are those of received messages at strictly increasing positions, with non-decreasing timestamps |
| UploaderRuns.OnlyFullQueuesDrop | src/redis_subscriber.cpp:20-61 | exactly as many messages and points disappear as the queues refused; without refusals none |
| UploaderRuns.FilterOverRuns | src/redis_subscriber.cpp:46-61 | last_timestamp is the running maximum; only fresh messages go out, none that the log statement would have thrown on |
| UploaderRuns.ParseOneIsTheFilter | src/redis_subscriber.cpp:49-64 | one pass extends the sequence of forwarded points and the running maximum as the filter specifies; unreadable messages change nothing |
| UploaderRuns.ForwardedExactlyWhenFresh | src/redis_subscriber.cpp:49-64 | in the message's own fields: forwarded, as it came, iff its timestamp is an integer, at least zero and not below any integer timestamp before, and the log statement, if it runs, finds its fields |
| UploaderRuns.BatchesConserve | src/redis_subscriber.cpp:68-94 | commands sent plus the pending result are all points popped; the result's size in count, failures and torn points; count at most ten |
| UploaderRuns.AttemptSize | src/redis_subscriber.cpp:83-86 | every command attempted after n failures carries 11 + n whole points, whether it then succeeds or not |
| UploaderRuns.FlushOutcome | src/redis_subscriber.cpp:83-92 | a command is attempted iff ten points are counted and one more with string fields comes; success sends it and starts anew, failure sends nothing and carries everything on |
| UploaderRuns.ElevenQuotesMakeACommand | src/redis_subscriber.cpp:41-94 | any eleven quotes in order can become one command with each one's key, timestamp and value |
| UploaderRuns.CommandSize | src/redis_subscriber.cpp:83-86 | a command that succeeds after n failures carries 11 + n whole points |
| UploaderRuns.CommandsReadBack | src/redis_subscriber.cpp:79-86 | a command's arguments read back three by three as its points iff none of them was torn |
| UploaderRuns.ANumericPriceMisframes | src/redis_subscriber.cpp:79-92 | a concrete run whose command is not a list of triples |
| UploaderRuns.ArgsReadBackExactlyWhenUntorn | src/redis_subscriber.cpp:79-82 | the printed arguments of points determine the points, exactly without torn ones |
| RedisSubscribers.RedisSubscriber.OnMessage | src/redis_subscriber.cpp:20-22 | the message is queued, or dropped when the queue is full |
| RedisSubscribers.RedisSubscriber.Parse | src/redis_subscriber.cpp:41-66 | the loop, with messages arriving and points taken between its passes: it pushes exactly the fresh ones of the messages it read, in order, and keeps the running maximum |
| RedisSubscribers.RedisSubscriber.ParsePass | src/redis_subscriber.cpp:45-64 | one pass, with each exit, is the pass the interleaved uploader uses |
| RedisSubscribers.RedisSubscriber.PublishPass | src/redis_subscriber.cpp:78-92 | one pass, with each conversion that can throw, is the pass the interleaved uploader uses |
| RedisSubscribers.RedisSubscriber.Publish | src/redis_subscriber.cpp:68-94 | the loop, with points arriving between its passes, accounts for every point it popped: sent in a framed command or carried by the pending result |
| Backoff.GetMessageWithBackoff | include/sravz.hpp:14-29 | returns the queue head at the first poll that finds one, and polls on while there is none, having slept 2^(k mod 6) after the k-th failure |
| Backoff.TotalWait | src/redis_subscriber.cpp:108-123 | after k failures the total sleep is 63 * (k / 6) + 2^(k mod 6) - 1 |
| Backoff.EverySleepIsShort | include/sravz.hpp:23-26 | every sleep lasts between 1 and 32 seconds |
| Tokens.SplitThenJoin | src/web/shared_state.cpp:111-113 | splitting loses nothing and yields one field more than there are separators, none holding one |
| Tokens.JoinThenSplit | src/web/shared_state.cpp:31 | joining separator-free tokens and splitting gives them back |
| Tokens.LinesThenJoin | src/utils.cpp:79-87 | joining the tokens of the getline loop gives the text back up to one dropped trailing separator |
| Tokens.LinesForgetOnlyATrailingSeparator | src/utils.cpp:79-87 | two texts with the same tokens differ at most by a trailing separator |
| Utils.GetStringTokens | src/utils.cpp:79-87 | the getline loop collects every field but an empty last one |
| Utils.ToUpper | src/utils.cpp:89-95 | every character is upper-cased in place |
| Utils.UpperIsUpper | src/utils.cpp:89-95 | no lower-case letter is left, other characters are kept, a second pass changes nothing |
| Utils.ConvertMutualFundSravzIDToCode | src/utils.cpp:97-107 | three tokens give the code, anything else the error |
| Utils.AcceptedIdentifiers | src/utils.cpp:101-104 | accepted iff two underscores and no trailing one, or three with a trailing one |
| Utils.CodeOfAnIdentifier | src/utils.cpp:98-106 | the code is the upper-cased third token, a dot, the second, with or without a trailing separator, which only an empty third token needs |
| Utils.AcceptedIsAnIdentifier | src/utils.cpp:98-106 | every accepted identifier is one of these, so this is the code of each |
| S3Select.BuildInList | src/services/aws_s3_service.cpp:216-223 | the loop builds the quoted, comma-separated, parenthesised list |
| S3Select.BuildExpression | src/services/aws_s3_service.cpp:209-231 | the whole-object statement, or the one restricted by the list |
| S3Select.InListReadsBack | src/services/aws_s3_service.cpp:209-223 | reading the list recovers the tokens iff none holds a quote; a non-empty parameter never gives an empty list |
| S3Select.Assemble | src/services/aws_s3_service.cpp:206-272 | the output is the bracketed stream less one trailing comma |
| S3Select.StreamArrivesWhole | src/services/aws_s3_service.cpp:244-250 | the stream arrives whole iff it holds no NUL |
| S3Select.BetweenTheCuttings | src/services/aws_s3_service.cpp:244-250 | for every cutting, what arrives begins with the text before the first NUL and is no longer than the text without NULs |
| S3Select.StreamIndependentOfCutting | src/services/aws_s3_service.cpp:244-250 | what arrives is the same for every cutting iff NULs stand only at the end |
| S3Select.OutputIndependentOfCutting | src/services/aws_s3_service.cpp:244-272 | the output is the same for every cutting iff that, or only a comma is left behind the first NUL and none stands before it |
| S3Select.ArrayOfRecords | src/services/aws_s3_service.cpp:267-272 | for any records and any cutting: the bracketed comma-join |
| DuckDb.NameTellsTheHashes | src/services/duckdb_service.cpp:60-63 | two files share a table name iff both hashes agree |
| DuckDb.DuckDBClient.CreateTableIfDoesNotExists | src/services/duckdb_service.cpp:85-115 | an existing table is kept; a missing one is created when the file can be read |
| DuckDb.DuckDBClient.SelectFromS3ParquetFile | src/services/duckdb_service.cpp:56-83 | the rows that meet the clause in the table of the file's name, in order, or a failed query |
| DuckDb.RequestAlone | src/services/duckdb_service.cpp:56-115 | a request run alone answers from the table of its name if there is one, else from the file if it can be read, else not at all |
| DuckDb.CacheAgrees | src/services/duckdb_service.cpp:85-114 | over every interleaving of checks and creations: a table holds a file of its own name, is never replaced, and a reply is of the file asked for or one colliding with it |
| DuckDb.ServesExactlyWithoutCollisions | src/services/duckdb_service.cpp:60-68 | over all runs whose requests are for a set of files, every answer is of the file asked for iff no two of them collide |
| Decimal.ReadIntPrintInt | src/redis_subscriber.cpp:80-81 | printing an integer loses nothing |
| Decimal.PrintIsThePlainForm | src/redis_subscriber.cpp:80-81 | the printed form is the only string of digits without a leading zero that reads as the number |

## Left out

- Redis, Mongo, AWS, DuckDB, TLS, HTTP, JWT and zlib internals: abstract sets, maps and success flags stand for them.
- The inside of boost `spsc_queue` and the memory model: a push or pop is one atomic step, although sessions push events under different symbol mutexes.
- Exceptions from the Redis calls of the subscriber loop: subscribe and unsubscribe are taken to succeed.
- A command whose reply is lost after Redis applied it counts as failed; its points are then sent again.
- SharedStates.SharedState.Parse: requires that every topic of a request of type 1 or 2 has a symbol, because the code dereferences a null pointer for any other topic.
- The reuse of a freed session's address: identifiers of sessions are never reused.
- Strand scheduling beyond the order of posted handlers: the hub lets a session's callbacks interleave with its requests, which allows more runs than the strand does.
- The endless loops on the heap: each is followed for any finite number of passes, with what the other threads do before each pass as a parameter; HubSystem and Uploader interleave them all.
- The start of the subscriber is commented out at src/web/webserver.cpp:69; its loop is modelled as written.
- The text of the CREATE TABLE statement and the URL substituted into it: tables are identified with the files they were created from.
- Changes of a remote file after its table was created: the cache never refreshes, and the model identifies a file with its bucket and prefix.
- The widths of `long` and `int`: timestamps are only compared, counters stay far below their bounds.
- Router, request validation, controllers, the vendor client, Mongo service, configuration and main programs: dispatch and single-branch code.
