# ChatFlow, verified

A Dafny model of ChatFlow, a cluster of WebSocket chat servers joined by one
RabbitMQ exchange, together with the connection pool and latency figures of its
load client, and proofs of what they keep over whole runs.

Concurrent parts are transition systems: a state, the actions of every goroutine
involved, and runs of any length over any interleaving of them. What the source
updates in place is also given as classes whose methods carry the source's own
branches and loops; their contracts tie each method to steps of the transition
system, whose properties are then proved for every run. Fields named `h`, and
`leaked` in the pool, are history: nothing a step does to the rest of the state
depends on them, but for the identities of messages and removals, which are
numbered from what a session has said so far.

| module | what it holds |
|---|---|
| `Basics`, `Models` | records, validation, `NewResponse` |
| `RoomProtocol` | one room: handlers, writers, the broadcast goroutine, `Broadcast`, `Users`, every `Send`; 24 kinds of step |
| `RoomSafety`, `RoomWindow`, `RoomProgress`, `RoomLedger`, `RoomTags`, `RoomEvolution` | what every run of a room keeps |
| `RoomLoops` | the room's code in place, refining the steps |
| `ChatServer`, `ServerLoops` | rooms found or created by racing connections, and the `UserRooms` index; the server's code in place |
| `Pipeline` | `publishChan`, workers, breaker, `tempBuffer`, drain; machine and code |
| `Cluster`, `Delivery`, `Sizing`, `ClusterLedger`, `ClusterProgress`, `RoomChanges`, `ExactlyOnce`, `Reception` | any number of servers around the exchange, and the end-to-end results |
| `Pool`, `Locks`, `Lag`, `Latency` | the client's pool, the server's locks, the consumer lag counters, the latency figures |

What is assumed of the surroundings: every queue bound for a room gets at most one
copy of a message the exchange accepts, in the exchange's order, and a copy is
delivered at most once (a copy may also be lost); a breaker refusal does not run
the publish function and anything else runs it once, whatever it reports; JSON
round-trips; server ids are unique and equal to the id in published messages;
a uuid is never drawn twice (it appears as a tag: server, room, session, serial
number). Clock readings and the outcomes of reads, writes, dials and AMQP calls are
parameters of the steps.

A Go string is the sequence of its bytes; the model's strings hold one character per
byte, so `|s|` is Go's `len(s)`.

Three things a reader of the documentation would not expect, and which the model
follows the code in:

- `docs/assignment2/ARCHITECTURE.md` has other users notified of a lost connection
  by a synthetic LEAVE. That message has no timestamp, so `NewResponse` answers it
  with 422 and a zero message, here and on every other server
  (`Models.MadeUpMessageIsRejected`).
- A JOIN with an empty user id is accepted. Its removal event is then taken for a
  response, a nil response is fanned out, and nothing releases the handler. So the
  claim that every handler that leaves its read loop departs, once the room has
  settled, holds exactly when its id is not empty, or it removed itself directly
  because `Broadcast` was full, or the room was cancelled, or a write to its
  connection failed (`RoomProgress.LeaverDepartsIff`); a run that strands one is given
  (`RoomProgress.EmptyIdIsStranded`).
- `CloseAll` of the pool returns no semaphore token, so each connection it closes
  costs a slot for good; a waiting call can still be served afterwards exactly when
  not every slot is lost (`Pool.ServedAfterCloseAllIff`).

## Model

| member | source | states |
|---|---|---|
| `Models.Validate` | pkg/models/message.go:124-144 | the nil error for a nil message; no error iff the fields are well formed; otherwise every failing field's message, the content only for TEXT |
| `Models.ValidateUserID` | pkg/models/message.go:60-70 | adds to the shared error map the one fitting complaint, or nothing |
| `Models.ValidateUsername` | pkg/models/message.go:73-81 | likewise for the name |
| `Models.ValidateMessage` | pkg/models/message.go:84-92 | likewise for the content |
| `Models.ValidateTimestamp` | pkg/models/message.go:95-99 | likewise for the timestamp |
| `Models.ValidateMessageType` | pkg/models/message.go:102-106 | likewise for the type |
| `Models.ErrorsIffIllFormed` | pkg/models/message.go:60-106 | the accumulated error map is empty exactly for the messages described on their fields alone |
| `Models.DecimalUserIds` | pkg/models/message.go:60-70 | an id written in decimal passes iff it is in 1..100000 |
| `Models.RebuiltResponseAgrees` | pkg/models/response.go:18-35 | a response rebuilt from a response's Message field has the same message, status and error, for every input; the data field agrees iff the input was valid or wrong in all four checks: an id that is no integer, a name too short, an unknown type, an unreadable timestamp |
| `Models.DataCanDiffer` | pkg/models/response.go:18-35 | a message on whose rebuilt response the data field differs: a TEXT without a readable timestamp |
| `Models.MadeUpMessageIsRejected` | pkg/models/message.go:50-57 | whatever `NewMessage` builds is answered 422 with a zero message |
| `RoomSafety.QueuedRemovalIsSessionSafe` | internal/server/server.go:284-297 | in every run each pending removal names a present user, that user is the very session that scheduled it, and it is the only pending removal of that id |
| `RoomSafety.RemovalEvictsItsScheduler` | internal/server/server.go:284-297 | carrying out a queued removal closes and deletes exactly the session that queued it, never one that joined later under the same id |
| `RoomSafety.FallbackEvictsItsScheduler` | internal/server/chatRoomHandler.go:185-195 | the direct removal evicts exactly the session that fell back to it |
| `RoomSafety.NoSendOnClosed` | internal/server/server.go:276-323 | no run puts into a closed `Send`; while the goroutine lives every member's `Send` is open and only removed sessions are closed |
| `RoomSafety.SafeAlways` | internal/server/server.go:276-323 | membership, lock holding, closing, queue and removal invariants survive every run from any state that has them |
| `RoomWindow.SessionWindow` | internal/server/server.go:299-321 | what a session is offered is exactly the slice of the room's fan-outs between its join and its removal or the shutdown, in order; the writer wrote a prefix of what `Send` accepted, all of it if it ended by draining |
| `RoomWindow.InOrderRemoval` | internal/server/chatRoomHandler.go:180-195 | a session whose queued removal was carried out was offered, last of all and in order, every response enqueued after its join and ahead of the removal |
| `RoomLedger.FanOutConservation` | internal/server/server.go:256-308 | everything any session said = local tries = local pushes + `DroppedBroadcast`; enqueued + lost remotes = local pushes + queued removals + remote responses delivered in the run; enqueued = received + queued; sum of audiences = puts + `DroppedSend` + members the loop has yet to reach |
| `RoomProgress.NonInputDecreases` | internal/server/chatRoomHandler.go:53-111 | every step other than input makes the room smaller in one lexicographic order, so without input only finitely many steps follow |
| `RoomProgress.Settles` | internal/server/chatRoomHandler.go:53-111 | from any safe state of a room by itself some run without input or write failure leads to a state where nothing but input is possible |
| `ClusterProgress.RoomsSettleUnderBackPressure` | internal/rabbitmq/server.go:289-314 | the same inside a cluster, `Publish` blocking on a full `publishChan`: from any reachable state a room settles by its own goroutines and any one live worker, whatever becomes of that worker's messages; then no handler is left in `Publish` or waiting, but for an empty user id |
| `ClusterProgress.PublishReturns` | internal/rabbitmq/server.go:292-300 | a handler blocked in `Publish` is let through by at most two steps of one live worker |
| `RoomProgress.WaitingHandlerIsServed` | internal/server/chatRoomHandler.go:82-110 | a handler waiting on `writeDone` has its `Send` closed or its removal still queued, for every non-empty user id |
| `RoomProgress.NobodyIsStranded` | internal/server/chatRoomHandler.go:53-111 | in a settled room each handler is reading or gone, but for an empty user id whose removal was queued in a room not cancelled |
| `RoomProgress.SettledRemoval` | internal/server/server.go:284-297 | in a settled room not cancelled a queued removal was carried out iff its user id is not empty |
| `RoomProgress.LeaverDepartsIff` | internal/server/server.go:284-298 | in every settled room a handler that is not reading has departed iff its user id is not empty, or it removed itself directly, or the room was cancelled, or one of the run's writes to its connection failed |
| `RoomProgress.EverythingIsWritten` | internal/server/chatRoomHandler.go:122-141 | in a settled room not cancelled, a session none of whose writes failed in the run has had everything its `Send` accepted written, in order |
| `Reception.WholeWindowIsWritten` | server-v2/main.go:22-24 | under the sizing rule, in a settled room not cancelled, such a session has had its whole window written to its connection, in order and without a gap |
| `RoomProgress.EmptyIdIsStranded` | internal/server/server.go:284-298 | a run, for every empty-id JOIN and LEAVE, after which everything rests and the handler still waits |
| `RoomLoops.LiveRoom.AddUser` | internal/server/server.go:352-360 | inserts iff the id is absent, with an empty open `Send`; otherwise nothing changes |
| `RoomLoops.LiveRoom.TrySend` | internal/server/chatRoomHandler.go:148-153 | the non-blocking send succeeds iff there is room and then appends |
| `RoomLoops.LiveRoom.BroadcastAndPublish` | internal/server/chatRoomHandler.go:147-171 | refines the speaking step: one event or one counted drop, and the queue message handed on |
| `RoomLoops.LiveRoom.ScheduleRemoveUser` | internal/server/chatRoomHandler.go:185-195 | refines the scheduling step: removal event queued, or the fallback chosen when full |
| `RoomLoops.LiveRoom.RemoveMember` | internal/server/server.go:290-291 | closes `Send` once and deletes the member |
| `RoomLoops.LiveRoom.RemoveUserFromRoom` | internal/server/server.go:390-413 | as the fallback calls it, it always finds its session, evicts it and keeps the invariants |
| `RoomLoops.LiveRoom.ConsumeMessages` | internal/server/server.go:242-261 | undecodable bodies and the server's own messages change nothing; any other is answered afresh, stamped with the publisher's time and enqueued iff there is room |
| `RoomLoops.LiveRoom.OfferTo` | internal/server/server.go:301-306 | one turn of the fan-out loop: accepted iff `Send` has room, else counted |
| `RoomLoops.LiveRoom.FanOut` | internal/server/server.go:299-308 | the whole loop, in any order over `Users`, offers the item to every member once, adds to `DroppedSend` the number of full ones, touches nobody else, and is a run of steps |
| `RoomLoops.LiveRoom.HandleEvent` | internal/server/server.go:277-309 | one turn of the goroutine: a removal evicts its scheduler, a response reaches every member |
| `RoomLoops.LiveRoom.ShutDown` | internal/server/server.go:311-320 | closes every member's `Send`, each for the first time, and exits, as a run of steps |
| `RoomLoops.LiveRoom.HandleClientWrites` | internal/server/chatRoomHandler.go:122-141 | wherever a write fails or the cancellation is picked up: which exit the loop takes and after how many writes, the whole new state of the session, no other touched, and that it is a run of steps |
| `RoomLoops.EndedFacts` | internal/server/chatRoomHandler.go:122-141 | at every exit what has been written is the front of `Send` in order, and nothing taken is lost from the record |
| `ChatServer.UserIndex.Append` | internal/server/server.go:362-364 | appends one entry |
| `ChatServer.UserIndex.RemoveFromUserRooms` | internal/server/server.go:372-385 | the loop removes the first entry of the room if there is one, and the key when its list becomes empty |
| `ChatServer.RemoveFirstCounts` | internal/server/server.go:376-381 | exactly one occurrence goes, of that room, when there is one |
| `ChatServer.OneRoomPerId` | internal/server/server.go:222-228 | however first joiners race, one room per id, never nil, and consumers feed that room |
| `ChatServer.IndexAgreesWithMembership` | internal/server/server.go:352-364 | in every reachable state a user is listed for a room as often as it is a member plus removals caught before their index update minus a join caught before its; keys have non-empty lists |
| `ChatServer.IndexUpdateNeverMisses` | internal/server/server.go:287-297 | the index update of a removal always finds its entry, even when the user has rejoined in between |
| `ServerLoops.LiveServer.AddNewRoom` | internal/server/server.go:222-326 | nothing if the room exists; otherwise a fresh room, registered with the consumer if the id is bound |
| `ServerLoops.LiveServer.AddUserToRoom` | internal/server/server.go:340-368 | added iff the user is not in the room; then member and index entry exist, otherwise nothing changed; it is a run of the server's steps |
| `ServerLoops.LiveServer.RemoveUserFromRoom` | internal/server/server.go:390-413 | the two errors exactly when room or user is missing, changing nothing; otherwise member evicted and one index entry removed |
| `RoomTags.TaggedKept` | internal/server/chatRoomHandler.go:147-178 | every step keeps: own events are what a session said or its removal, no identity is enqueued twice, a session says its JOIN, its texts and one LEAVE |
| `RoomTags.HandedKept` | internal/server/chatRoomHandler.go:162-171 | a message once handed to the publisher stays what its session said |
| `Cluster.ClusterOkAlways` | internal/server/server.go:242-261 | the cluster invariants survive every run: what an exchange holds was attempted once by its server, what a server imports it has read from its own queue |
| `Cluster.LoggedServerId` | internal/server/chatRoomHandler.go:162-171 | everything the exchange holds was handed over by a session of the server whose id it carries |
| `Delivery.AtMostOnce` | internal/server/server.go:242-261 | in every reachable state of any cluster no server enqueues one response twice; own responses come only from the local enqueue, foreign ones only from messages its queue delivered |
| `Delivery.ExchangeAtMostOnce` | internal/rabbitmq/server.go:320-359 | re-buffering and draining included, the exchange gets each message at most once, and only what some session said |
| `Delivery.ServersAnswerAlike` | internal/server/server.go:254-255 | the same response has equal message, status and error wherever it is fanned out |
| `Delivery.OrderAgreement` | internal/server/server.go:276-309 | two sessions of a room on one server see the responses they both receive in the same order |
| `Delivery.SessionReceivesOnce` | internal/server/server.go:299-308 | no session is given one response twice |
| `ClusterLedger.QueueLedger` | internal/server/server.go:242-261 | no loss without a trace: for every server and room after any run, copies its queue delivered = foreign events enqueued + lost to a full `Broadcast` + own messages filtered + read before the room existed + lost by the broker |
| `ExactlyOnce.MissingBounded` | internal/server/server.go:242-261 | of the foreign messages a queue has delivered no more are missing from the room than were lost to a full `Broadcast`, read too early or lost by the broker |
| `ExactlyOnce.EnqueuedExactlyOnce` | internal/server/chatRoomHandler.go:147-178 | end to end: with a broker that delivers what it confirms, once the publisher's pipe is empty with all published and another server has read its queue to the end losing nothing, what a session said is enqueued there exactly once, with the answer it got at home |
| `ExactlyOnce.EnqueuedOnceAtHome` | internal/server/chatRoomHandler.go:148-153 | with no local push dropped, what a session said is enqueued at home exactly once, as it was said |
| `RoomChanges.ChangeOf` | internal/server/server.go:242-323 | every step of a cluster leaves a room as it was, creates it, or performs one action of the room protocol on it |
| `Sizing.NothingIsDropped` | server-v2/main.go:22-24 | if a room saw at most u sessions over all servers with at most m texts each and every buffer holds u * (m + 3), then no queue was ever found full, nobody fell back to direct removal and every session's `Send` accepted its whole window |
| `Pipeline.PipelineLinearity` | internal/rabbitmq/server.go:292-359 | each message handed over is in exactly one place; completed calls = outstanding + published + failed + unencodable + dropped; at most one AMQP attempt per message |
| `Pipeline.OutstandingIsBounded` | internal/rabbitmq/server.go:157-180 | outstanding messages never exceed publishChan + tempBuffer + workers + 1 |
| `Pipeline.NeverWedges` | internal/rabbitmq/server.go:305-355 | with one live worker, that worker alone makes room in at most two steps, whether its message is unencodable, refused, published or failed |
| `Pipeline.DrainEmpties` | internal/rabbitmq/server.go:254-265 | from a drain's start to its end, whatever happens in between: tempBuffer ends empty, and its contents with all that was re-buffered behind them have entered publishChan in first-in first-out order, shuffled only with what handlers published, but for what was given up on cancellation |
| `Pipeline.DrainEmptiesInOrder` | internal/rabbitmq/server.go:254-265 | with no re-buffering and no cancellation in between, handlers publishing all the while: what entered publishChan is tempBuffer's contents in order, shuffled with the handlers' messages; exactly those contents if they published nothing |
| `Pipeline.LivePipe.Publish` | internal/rabbitmq/server.go:292-300 | enqueues if there is room and counts a drop if the context is done; with both ready either |
| `Pipeline.LivePipe.Receive` | internal/rabbitmq/server.go:308-309 | a worker takes the oldest message |
| `Pipeline.LivePipe.PublishDirect` | internal/rabbitmq/server.go:320-359 | refines the three outcomes: unencodable, attempted once, refused and re-buffered or dropped |
| `Pipeline.LivePipe.DrainTempBuffer` | internal/rabbitmq/server.go:254-265 | the loop terminates with tempBuffer empty, its contents entered in order, nothing dropped, as a run of steps |
| `Pool.TokenAccounting` | client/ws/pool.go:76-114 | in every interleaving tokens = pooled connections + calls holding one + connections `CloseAll` took; open connections and that loss stay within the size; no release blocks |
| `Pool.LeakedForGood` | client/ws/pool.go:44-51 | each connection `CloseAll` takes costs a slot for good; at size of them no call that misses is ever served again |
| `Pool.ServedIff` | client/ws/pool.go:76-100 | a call that missed can still be served, in some continuation, iff not every slot is lost |
| `Pool.ServedAfterCloseAllIff` | client/ws/pool.go:44-51 | before the call: after `CloseAll` a waiting call can still be served iff the connections pooled and those lost before do not make up the whole size |
| `Pool.CloseAllCanStarveAWaiter` | client/ws/pool.go:44-51 | for every size a reachable full pool with a waiting call, which could be served before `CloseAll` and cannot after it |
| `Pool.ClosingAFullPoolStarvesIt` | client/ws/pool.go:44-51 | `CloseAll` on a full pool leaves nothing open and no acquisition possible in any later state |
| `Pool.OneClientPerKey` | client/ws/pool.go:102-113 | while nobody removes the key all callers for it return one client, pooled and open, however they race |
| `Pool.KeysCollideIff` | client/ws/pool.go:70-72 | two pairs share a key iff they are equal or one user id runs over a colon into the other's room id |
| `Pool.KeyIsInjective` | client/ws/pool.go:70-72 | with user ids free of colons keys are injective |
| `Pool.LivePool.GetOrCreateNewWsClient` | client/ws/pool.go:76-114 | the pooled client, a new pooled one costing a token, or an error with the token returned; a run of steps |
| `Pool.LivePool.InsertOrReuse` | client/ws/pool.go:102-113 | the second look under the lock: somebody else's client wins, the spare is closed and its token returned; otherwise the new one is pooled; a run of steps |
| `Pool.LivePool.Remove` | client/ws/pool.go:54-68 | deletes, closes and releases exactly when the key is pooled; a run of steps |
| `Pool.LivePool.CloseAll` | client/ws/pool.go:44-51 | the loop closes exactly the pooled connections, empties the map and leaves the semaphore alone |
| `Locks.ProgramOrdered` | internal/server/server.go:340-413 | every sequence of the server's critical sections takes `Server.Mu`, then room or handler locks, then `UserRoomMu`, releases all it takes and blocks on channels holding nothing |
| `Locks.ServerNeverDeadlocks` | internal/server/server.go:139-147 | for any number of goroutines, rooms and schedules under writer-preferring read-write locks: if nobody can step everybody is finished holding nothing, and no schedule is endless |
| `Locks.WaitersAreServed` | internal/server/metricsHandler.go:29-55 | whenever a goroutine waits for or holds a lock, some goroutine can take a step that is not coming out of a blocking operation |
| `Locks.WritersExclude` | internal/server/server.go:287-308 | a write-locked lock is held by nobody else |
| `Lag.NothingIsLost` | internal/rabbitmq/server.go:206-216 | lags added = totals swapped out + what is left; the reports exceed the lags of their samples by exactly what was swept out early; no average divides by zero |
| `Lag.ReportsAreExactAtRest` | internal/rabbitmq/server.go:391-398 | once all samples are counted and taken, nothing is left and the reported total is exact, whatever the signs |
| `Lag.ReportsCoverTheirSamples` | internal/rabbitmq/server.go:391-398 | with non-negative lags the reported total is never below the lags of the samples reported |
| `Lag.CoversIffNonNegative` | internal/rabbitmq/server.go:206-216 | for any set of lags that can occur, the reported total covers its samples in every run iff the set holds no negative lag |
| `Lag.SkewedClockUnderreports` | internal/rabbitmq/server.go:213-214 | for every negative lag, a run with no other lag whose reports fall short |
| `Lag.LagMeter.Add` | internal/rabbitmq/server.go:213-214 | both accumulators grow |
| `Lag.LagMeter.Report` | internal/rabbitmq/server.go:394-398 | averages and resets the total iff something was counted |
| `Latency.Timings.Receive` | client/ws/client.go:204-225 | every response counts and is counted under its type, senders of JOINs are remembered, those with a readable timestamp add a sample and keep the running total right; the echo of the user's own LEAVE is the last |
| `Latency.Timings.SendStats` | client/ws/client.go:170-194 | sorts the samples in place (ascending, a permutation) and reports the number of responses, their types and figures that describe the samples; nothing when there are none |
| `Latency.GetOverAllStats` | client/ws/client.go:334-410 | the loops yield figures describing the connections' means, and for each room with reports its number of users, mean and median of their means and message types added up; nothing when there are none |
| `Latency.RunningAccumulates` | client/ws/client.go:204-216 | the reader's running variables always sum up the responses heard |
| `Latency.SortedRanks` | client/ws/client.go:175-189 | position k of the sorted samples is the k-th smallest: at most k samples below it, more than k at most it |
| `Latency.FiguresMakeSense` | client/ws/client.go:184-189 | min <= median <= p95 <= p99 <= max, min <= mean <= max whatever the signs, more than 95% (99%) of the samples are at most p95 (p99) and at most 95% (99%) below it |
| `Latency.FiguresAreUnique` | client/ws/client.go:184-189 | given samples have one set of figures only |
| `Latency.QuotientBetween` | client/ws/client.go:184 | Go's truncating mean stays within integer bounds of the samples |
| `Latency.OverallWithinSamples` | client/ws/client.go:345-370 | the overall figures stay within the bounds of all samples behind the connections' reports |
| `Basics.Quotient` | client/ws/client.go:184 | integer division by a count truncates toward zero |

## Left out

- WebSocket upgrade, deadlines, JSON text, HTTP pages, environment, CSV, logging and queue-depth polling: I/O.
- A first message that is not a JOIN is refused before anything is touched; the model starts after that check and never uses the type of the first message.
- Server without RabbitMQ: not modelled; the handler's publish step is then empty and the uuid it would put in `ServerID` goes nowhere.
- AMQP client internals, credits and `Accept`; gobreaker's own state machine, of which only refusal or execution is kept; the management API.
- Cross-server order and eventual flush of `tempBuffer`: the code promises neither.
- Zero-capacity channels: a buffer size of 0 would make `Broadcast`, `Send`, `publishChan` or `Sem` rendezvous channels in Go, where the model only ever finds them full.
- Machine integers: counters and latency sums are unbounded here; only `Atoi` checks the 64-bit range.
- Models.ValidateTimestamp: `time.Parse` is library code and not modelled; its verdict travels with the timestamp.
- `ClientIp`, request counters and the joined text of `ValidationError`: never read by the modelled parts.
- Pointers: a connection's `Client` is a session id, and `Users` maps to it, so aliasing of `Client` objects beyond identity is not captured.
- RoomProgress.Settles: of a room by itself, where a `Publish` call returns whenever its handler takes that step; ClusterProgress.RoomsSettleUnderBackPressure has it block on a full channel.
- RoomProgress.NobodyIsStranded: likewise.
- RoomLoops.LiveRoom.RemoveUserFromRoom: as the fallback calls it and up to the index update; ServerLoops.LiveServer.RemoveUserFromRoom has the two errors and the index.
- Pipeline.LivePipe.DrainTempBuffer: uses one worker with a closed breaker to make room while it blocks; other interleavings are runs of the machine, of which Pipeline.DrainEmpties speaks.
- Pool.LivePool.GetOrCreateNewWsClient: a call that would block on a full semaphore is not started; Pool.ServedIff says when it can be served.
- RoomLoops.LiveRoom, ServerLoops.LiveServer and Pool.LivePool: each method is one call without interruption; interleavings are runs of the machines they refine.
- Latency.GetOverAllStats: throughputs, which are floating point, are left out.
- Percentile positions use the exact floor of 95n/100 and 99n/100 instead of a floating-point product.
- `sort.Slice` is library code: only its result is modelled.
- `RunFanOutLoadTest`, `maxRooms` and random data generation.
