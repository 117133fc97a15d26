# AnyCable-Go: a verified model of the in-memory engine

A Dafny model of the core of AnyCable-Go, a WebSocket server that passes client commands to an
RPC controller and broadcasts messages to subscribed sessions. It covers the hub and its
channels, the session and its goroutines, the disconnect queue, the node's command handlers, the
RPC retry loop and ticket semaphore, the two pools, the encoding cache and the session
environment. `dafny verify dfyconfig.toml` checks everything.

## How it is built

Code that changes fields step by step is a class with methods and loops. Each method is tied to a
function of the old state, or to a run of a transition system it is one execution of. Where
goroutines meet, the lock regions and channel operations are the steps of such a transition
system, and the theorems quantify over every legal sequence of steps.

| file | content |
|---|---|
| `HubModel.dfy`, `Hub.dfy`, `HubProperties.dfy` | the hub's four maps, the hub object, what every run keeps |
| `HubLoop.dfy` | the hub with its channels: when subscriptions and removals take effect |
| `Broadcast.dfy` | the broadcast task and the encoding cache |
| `SessionModel.dfy`, `Session.dfy` | one session under concurrency, and the session object |
| `DisconnectQueue.dfy`, `Teardown.dfy` | the disconnect queue; all sessions with the queue; the shutdown sweep, alone and among everything else that runs |
| `Registration.dfy` | sessions, the hub's maps and its register channel together |
| `DisconnectDeadlock.dfy` | the remote-disconnect task against the hub loop |
| `Retry.dfy`, `Tickets.dfy` | RPC backoff and semaphore |
| `ConnPool.dfy`, `GoPool.dfy` | connection pool and goroutine pool |
| `Env.dfy`, `Commands.dfy`, `Node.dfy` | session state, the reader's commands, the node's handlers |
| `Basics.dfy` | frames, options, lists without repetition |

## Main results

- The forward index is, in every reachable state, the plain relation of (stream, session, channel)
  triples that a set would hold, although the reverse index is only an over-approximation.
- Over every interleaving of all session goroutines, the throttled loop and Shutdown, the
  controller's Disconnect is called at most once per session.
- The writer hands over the accepted frames in order up to the first close frame, all of them when no
  write fails and it has left; nothing is sent on or closes a closed channel; every operation ends within a fixed number of its own steps.
- A call backs off at most 72 times and 5560 ms. Every series of waits that keeps to the backoff is
  what the loop does for some replies, so both bounds are attained by calls.
- Who is registered, who is listed under which identifier, who gets which stream: each is read off the
  sequence of events the hub has seen, for every run.
- Every connection and every task is in exactly one place at any time.
- A command carries the last value each earlier reply wrote.

## What turned out not to hold, and exactly when it does

Next to each condition stands, where one is needed, a run or an input that fails it.

- The identifier index agrees with the sessions as long as no session comes in or goes out under
  the UID of a session with other identifiers (`AgreesIff`, `AgreesThroughoutIff`). UIDs can come from
  a request header, and one reused UID breaks it (`ReusedUidBreaksAgreement`).
- Removing all sessions empties the hub if and only if at that time only registered ids have lists and each id
  is listed only under the identifiers it carries (`RemovingAllEmptiesIff`). In terms of the run: every id
  subscribed after its last effective removal is registered again, and none is still listed under identifiers
  other than those it was last added with (`RunThenRemovingAllEmptiesIff`). A reply that comes after the removal
  leaves lists that nothing clears unless the id registers again (`LateReplyLeaks`); a reused UID stays under the
  identifiers of its first session (`ReusedUidOutlivesRemoval`).
- A removal leaves no trace if and only if nobody subscribes the session between its two halves
  (`RemovalRacesWithSubscribe`, `SubscribeDuringRemovalLeaks`).
- A session is registered if and only if the last addition or removal the hub has seen of it is an
  addition (`RegisteredIff`). With sessions and hub together: once everything has settled, a disconnected session
  with a UID of its own is registered if and only if its removal was taken before its registration was made
  (`SettledRegisteredIff`), and then for good (`DeadForGood`, `DeadSession`, `DeadRegistration`).
- Once all threads are through, the node was told of a session's end exactly once if some disconnect tested the
  connection while authenticated, and never otherwise (`DisconnectsOnceIff`); a disconnect that runs before the
  authentication is lost (`EarlyDisconnectIsLost`).
- A session gets a stream if and only if the hub has seen it subscribed after the last event that removes it
  (`SubscribedIff`). A started stream survives both channels if and only if, at the moment it is started, no command
  waits that drops it and no removal of its session waits (`StartedStreamSurvivesIff`, `WaitingRemovalLosesStream`).
  A reply that stops and starts one stream loses it if the loop takes the stop after the start
  (`RestartLosesStream`) and keeps it if the loop takes the stop before (`RestartSurvives`).
- After a successful unsubscribe the channel is on a stream only if the reply starts that stream and does so after
  the loop has taken the removal (`UnsubscribeClearsChannel`, `UnsubscribedStaysOnStream`).
- A remote disconnect reaches the registered sessions listed under the identifier when its task runs, provided the
  identifier never left the index since the look-up, and none otherwise (`RemoteDisconnect`). Those are exactly the
  sessions that carry it if and only if the index lists no session registered with others there, in the first
  case, and nobody carries it any more, in the second (`DueRightlyIff`). A client that reconnects in between is
  missed (`ReconnectionIsMissed`); a session that reused a UID is hit (`ForeignerIsReached`).
- The remote-disconnect task and the hub loop come through if and only if the removals in the register channel and
  the connected sessions under the identifier exceed neither the channel nor what the loop can still take off
  it; with registered sessions that is one command (`ComesThroughIff`, `CapacityAndOne`). Otherwise they deadlock,
  unless others disconnect enough of the task's sessions (`EndsOnlyWhenOvertaken`).
- The cache answers as direct encoding would if and only if encoders that share an id send the same
  (`CacheIsDirectIff`, `SharedIdSendsOtherFrame`).
- A rejected subscription is recorded like an accepted one, until an unsubscribe succeeds (`RejectedStaysOpen`).
- Without failures and timeouts, Shutdown of the disconnect queue returns nil if and only if the throttled loop
  took no session after Shutdown counted them (`ShutdownReturnsNilIff`); otherwise it runs into its timeout
  with every session dispatched (`NeedlessTimeout`).
- A run calls a nil factory if and only if a Get comes to its factory call after Close took the lock
  (`NilFactoryIff`, `NilFactoryReachable`).
- In the shutdown sweep no removal waits as long as the pending commands and the sessions still to be removed
  fit the register channel, and they can all be removed only then, whatever else runs (`RemovalsFit`, `CloseAll`,
  `SweepCannotFinish`, `Overcrowded`).
- A writer is stuck for good if and only if the channel was gone when it started (`LateWriterStuckIff`); accepted
  frames are then lost (`LostFrame`). In every other interleaving without a failed write, a writer that has left
  has written everything up to the first close frame (`WriterWritesAll`), and it can always get there once the
  channel is closed (`ClosedChannelIsDrained`).
- Waiting for active calls on shutdown does not wait (`AwaitIdle`).

## Model

| member | source | states |
|---|---|---|
| `Hub.Hub.AddSession` | node/hub.go:198-214 | stores the given session under its UID and lists the UID under its identifiers |
| `Hub.Hub.RemoveSession` | node/hub.go:216-239 | ignores an unknown UID, else unsubscribes everything, unregisters, and drops the UID from the given identifiers |
| `Hub.Hub.UnsubscribeSessionFromAllChannels` | node/hub.go:241-250 | in whatever order channels are taken, prunes every recorded stream and forgets the session's lists |
| `Hub.Hub.UnsubscribeSessionFromChannel` | node/hub.go:252-278 | prunes the streams recorded for one channel, empty rows and streams included, and leaves the lists as they are |
| `Hub.Hub.DropStream` | node/hub.go:262-272 | one round of that loop, nil maps included |
| `Hub.Hub.SubscribeSession` | node/hub.go:280-308 | adds the channel to the row, appends the stream to the list even when it is there |
| `Hub.Hub.UnsubscribeSession` | node/hub.go:310-339 | removes a present channel, leaving an empty residue and the lists untouched |
| `Hub.Hub.FindByIdentifier` | node/hub.go:411-428 | finds a registered session listed under the identifier, fails only when none is |
| `Hub.Hub.DisconnectTask` | node/hub.go:398-408 | reaches every listed registered session once and nothing else |
| `HubModel.PruneOneMore` | node/hub.go:262-272 | working off one more recorded stream is one more drop |
| `HubModel.PruneChannel` | node/hub.go:245-247 | channels may be worked off one after the other, in any order |
| `HubProperties.PruneHas` | node/hub.go:262-272 | unsubscribing removes exactly the listed triples of that session |
| `HubProperties.PruneInRow` | node/hub.go:262-272 | the session's key leaves exactly the listed streams where nothing else of it is left; other sessions keep theirs |
| `HubProperties.ApplyKeepsCovered` | node/hub.go:241-339 | every operation keeps each session key of the forward index, residues included, covered by the reverse index |
| `HubProperties.RunKeepsCovered` | node/hub.go:93-124 | coverage holds in every reachable state |
| `HubProperties.ApplyDenotes` | node/hub.go:198-339 | each operation changes exactly the intended triples and registrations |
| `HubProperties.HubRefinesRelation` | node/hub.go:198-339 | for every run the forward index denotes the plain relation, despite stale and duplicate entries in the reverse index |
| `HubProperties.RemovalLeavesNoTrace` | node/hub.go:216-250 | removing a registered session deletes its id from both stream indexes and changes nothing of any other session |
| `HubProperties.RemovalRacesWithSubscribe` | node/hub.go:216-236 | split at its locks, removal leaves no trace iff the session is not subscribed in between |
| `HubProperties.SubscribeDuringRemovalLeaks` | node/hub.go:216-236 | a subscribe between the two halves leaves an unregistered id on the stream |
| `HubProperties.OnlyRegisteredIff` | node/hub.go:280-301 | unregistered ids stay out of the reverse index iff no unregistered id subscribes |
| `HubProperties.AgreesIff` | node/hub.go:198-236 | a step keeps the identifier index right iff it meets no other identity under its UID |
| `HubProperties.AgreesThroughoutIff` | node/hub.go:198-236 | the same for every state of a run |
| `HubProperties.ReusedUidBreaksAgreement` | node/hub.go:198-214 | two sessions with one UID and different identifiers break it |
| `HubProperties.DistinctIdentifiers` | node/hub.go:183-188 | with agreement the index size is the number of distinct identifiers |
| `HubProperties.RunWithoutSessionsIsEmpty` | node/hub.go:216-250 | an orderly run that ends without sessions ends with four empty maps |
| `HubProperties.RemovingAllEmptiesIff` | node/hub.go:216-250 | removing all sessions empties the hub iff at that time only registered ids have lists and each is listed only under the identifiers it carries |
| `HubProperties.RunTellsIff` | node/hub.go:198-308 | over every run: registered iff the last addition or removal is an addition; listed iff subscribed after the last removal that took effect |
| `HubProperties.StoredIsLastAdded` | node/hub.go:198-214 | over every run: the object stored under an id is the session last added with it |
| `HubProperties.ListsTell` | node/hub.go:241-308 | over every run: the list of a session's channel holds the streams subscribed since the last effective removal, in order, repetitions and stopped ones included |
| `HubProperties.IndexTellsIff` | node/hub.go:198-236 | over every run, reused UIDs included: who carries and who is listed under an identifier, read off the events |
| `HubProperties.CarriedIsIndexed` | node/hub.go:198-236 | whoever carries an identifier is listed under it, over every run |
| `HubProperties.RunThenRemovingAllEmptiesIff` | node/hub.go:216-250 | after every run whatsoever, removing all sessions empties the hub iff no id lingers in the lists and none is misfiled in the index |
| `HubProperties.ReusedUidOutlivesRemoval` | node/hub.go:198-236 | with a reused UID, removing the one session left does not empty the hub |
| `HubProperties.CaptureIsCurrentOrEmpty` | node/hub.go:386-408 | whatever steps come between, the captured inner map is the current one if the identifier never left the index, and empty otherwise |
| `HubProperties.ReconnectionIsMissed` | node/hub.go:386-408 | a client that leaves and comes back in between is carried by the index and not by the captured map |
| `HubLoop.EventHas` | node/hub.go:93-124 | what each command of the loop does to one triple |
| `HubLoop.LoopRefinesRelation` | node/hub.go:93-124 | through all channels and direct calls the forward index is the plain relation of what the hub has seen |
| `HubLoop.SessionRemovalIsFinal` | node/hub.go:97-102 | after the loop takes a session's removal, no state of any continuation has a trace of it until it is subscribed again |
| `HubLoop.RegistrationStays` | node/hub.go:97-102 | a registration with no removal waiting stays until one is pushed |
| `HubLoop.RegisteredIff` | node/hub.go:93-124 | over every run, through channels and direct calls: registered iff the last addition or removal the hub has seen is an addition |
| `HubLoop.SubscribedIff` | node/hub.go:93-124 | over every run: a triple is in the forward index iff it was subscribed after the last event that removes it |
| `HubLoop.RowTellsIff` | node/hub.go:241-339 | over every run, read off the events: which sessions have a key in a stream's row, the empty residues included |
| `HubLoop.StreamTellsIff` | node/hub.go:190-196 | and which streams are counted |
| `HubLoop.DeadRegistration` | node/node.go:204-208 | a removal pushed and taken before the registration: the session stays registered in every continuation without another removal |
| `HubLoop.LeakStays` | node/hub.go:216-222 | lists of an unregistered id are cleared in no continuation that does not register it again |
| `HubLoop.LateReplyLeaks` | node/node.go:381-385 | registered, removed, then subscribed by a late reply: the lists stay |
| `HubLoop.UnsubscribeIsFinal` | node/hub.go:104-111 | after the loop takes an unsubscribe's removal, no state of any continuation has the pair on any stream until it is subscribed again |
| `HubLoop.SubscribePersists` | node/hub.go:93-124 | a stream added with no removal waiting stays until one is pushed |
| `HubLoop.DrainOutcome` | node/hub.go:104-111 | a backlog decides a triple by its last word on it |
| `HubLoop.StartedStreamSurvivesIff` | node/node.go:373-385 | in whatever order both channels are worked off, and whatever others do, a stream survives iff, when it is started, nothing waiting drops it and no removal of its session waits |
| `HubLoop.HandledAtOnceSurvivesIff` | node/node.go:373-385 | if the loop takes nothing while a reply is handled: a started stream survives iff its own reply does not stop it, nothing waiting drops it and no removal of its session waits |
| `HubLoop.RestartSurvives` | node/node.go:373-385 | a reply that stops and starts one stream keeps it if the loop takes the stop in between |
| `HubLoop.RestartLosesStream` | node/node.go:373-385 | the same reply loses it if the loop takes the stop afterwards |
| `HubLoop.WaitingRemovalLosesStream` | node/node.go:373-385 | a reply that stops nothing, with the session's removal waiting: the stream goes |
| `HubLoop.StoppedChannelIff` | node/hub.go:104-111 | after all streams of a channel are stopped, in every continuation that works off the channel: on a stream only if started after the loop took the removal, and, unless the session is removed, if so |
| `Broadcast.EncodingCache.Fetch` | node/encoding_cache.go:22-42 | encodes once per encoder id and answers with that ever after; a failed or nil encoding gives no frame |
| `Broadcast.AnswersAt` | node/encoding_cache.go:22-42 | every fetch gets what the first fetch with the same id made |
| `Broadcast.CacheIsDirectIff` | node/encoding_cache.go:22-42 | cached answers equal direct encoding iff encoders sharing an id send the same |
| `Broadcast.SharedIdSendsOtherFrame` | node/encoding_cache.go:22-42 | two encoders with one id: the second gets the first one's frame |
| `Broadcast.CachedEncodedMessage.Send` | node/session.go:364-374 | the frame sent through the cache is the one the session's encoder would send |
| `Broadcast.StreamSessionsSnapshot` | node/hub.go:439-454 | every session of the row with each of its channels once |
| `Broadcast.SendAll` | node/hub.go:372-381 | one message per channel of the session, through the shared buffer |
| `Broadcast.BroadcastTask` | node/hub.go:354-383 | exactly one send per registered session and channel of the snapshot, with the directly encoded frame, none for a failed or nil encoding |
| `Basics.Listing` | node/node.go:462-471 | each key of the map once, in some order |
| `SessionModel.ActKeepsChannelSafe` | node/session.go:228-290 | the field is nil exactly when the channel is closed, so no send or close hits a closed channel |
| `SessionModel.StepKeepsAccounted` | node/session.go:219-226 | one action of any thread keeps the owed removal and enqueue done or in the hands of one thread |
| `SessionModel.NextKeepsInOrder` | node/session.go:149-162 | written, held and waiting frames are the accepted ones in order after every step |
| `SessionModel.ChannelAndOrder` | node/session.go:149-320 | in every interleaving: channel safety, a prefix of the accepted frames written, only the last of them not data, everything written when the channel ran dry |
| `SessionModel.NothingAfterClose` | node/session.go:296-320 | in every interleaving nothing is written after a close frame or one of unknown type; a text or binary frame that is taken leaves the writer ready, anything else ends it |
| `SessionModel.DisconnectsAtMostOnce` | node/session.go:213-244 | in every interleaving at most one hub removal and one enqueue, none without authentication, exactly one each once disconnected and quiet |
| `SessionModel.AnyDisconnectDisconnectsOnce` | node/session.go:213-244 | once any disconnect of an authenticated session begins, exactly one removal and one enqueue result |
| `SessionModel.DisconnectsOnceIff` | node/session.go:213-244 | in every interleaving with all threads through: one removal and one enqueue iff some step tested the connection while authenticated, none otherwise |
| `SessionModel.RefusedOnlyWhenDisconnecting` | node/session.go:270-290 | in every interleaving a frame is refused only when a disconnect has tested the connection or is about to |
| `SessionModel.LateWriterStuckIff` | node/session.go:148-162 | in every continuation the writer is stuck iff the channel was gone when it started, and then has written nothing |
| `SessionModel.LostFrame` | node/session.go:228-244 | a run that accepts a frame, disconnects and then starts the writer: no continuation writes the frame |
| `SessionModel.WriterWritesAll` | node/session.go:148-162 | in every interleaving nothing is written beyond the first close frame, and without failed writes a writer that has left has written all accepted frames, or all up to a close frame or one of unknown type |
| `SessionModel.ClosedChannelIsDrained` | node/session.go:152-161 | a started writer on a closed channel, holding a frame or not, can always go on to write what is left up to a close frame, and leave |
| `SessionModel.EarlyDisconnectIsLost` | node/session.go:213-226 | a run in which Disconnect goes through before the authentication: the session is connected, the node was not told |
| `SessionModel.ActDecreasesCost` | node/session.go:270-290 | sendFrame, Disconnect, sendClose, sendFrame ends: each action uses up the thread's cost |
| `SessionModel.ThreadTerminates` | node/session.go:213-343 | whatever others do, a thread ends within its cost in its own steps |
| `SessionModel.AloneDisconnectsOnce` | node/session.go:213-226 | run alone, an operation passes on one removal and enqueue iff the session was connected |
| `SessionModel.SendFrameAlone` | node/session.go:270-290 | accepted at the end of the queue, refused by a nil channel, or, on a full one, closing it and disconnecting |
| `SessionModel.DisconnectAlone` | node/session.go:213-217 | the whole state after Disconnect: node told once, close frame last, closed |
| `SessionModel.DisconnectNowAlone` | node/session.go:228-244 | the whole state after disconnectNow: channel closed with its frames still in it |
| `SessionModel.PingAlone` | node/session.go:322-343 | a failed ping disconnects; a closed session or a taken ping changes nothing |
| `Session.Session.SendFrame` | node/session.go:270-290 | the method is its action run to the end, overflow and recursion included |
| `Session.Session.Disconnect` | node/session.go:213-217 | likewise |
| `Session.Session.DisconnectFromNode` | node/session.go:219-226 | likewise |
| `Session.Session.DisconnectNow` | node/session.go:228-244 | likewise |
| `Session.Session.MarkClosed` | node/session.go:246-260 | likewise |
| `Session.Session.SendPing` | node/session.go:322-343 | likewise; disconnected exactly when an open session's ping fails |
| `Session.Session.HandOver` | node/session.go:152-161 | hands over the buffered frames in order up to a close frame, one of unknown type or a failed write, and leaves the rest |
| `Session.Session.SendMessages` | node/session.go:149-162 | hands over buffered frames in order until a failed write, a close frame or an empty channel, then disconnects |
| `DisconnectQueueModel.Conservation` | node/disconnect_queue.go:63-131 | accepted sessions are the called, in-flight and queued ones, taken in order; a Shutdown that returned nil left an empty queue; the loop can return once stopped and only then |
| `DisconnectQueueModel.NoneAcceptedAfterStop` | node/disconnect_queue.go:119-131 | nothing is accepted once stopped |
| `DisconnectQueueModel.ShutdownReturnsNilIff` | node/disconnect_queue.go:79-116 | in every run without failed calls and timeout that comes to an empty queue, Shutdown has returned nil iff the loop took nothing after the count |
| `DisconnectQueueModel.NeedlessTimeout` | node/disconnect_queue.go:90-115 | a run with every session dispatched in which Shutdown still waits, and returns nil in no continuation |
| `DisconnectQueue.DisconnectQueue.Enqueue` | node/disconnect_queue.go:119-131 | appends, drops when stopped, waits when 4096 are queued |
| `DisconnectQueue.DisconnectQueue.Drain` | node/disconnect_queue.go:98-115 | calls the controller for a prefix of the queue, in order, up to the first failed call or the timer; returns nil exactly for all of it |
| `DisconnectQueue.DisconnectQueue.Shutdown` | node/disconnect_queue.go:79-116 | a run of the model; a second call does nothing; an error means a failed call or the timeout |
| `Teardown.ControllerDisconnectsAtMostOnce` | node/node.go:330-353 | over all sessions, threads and both consumers the controller's Disconnect is called at most once per session, only after its one removal and enqueue, and until the queue stops no session is lost |
| `Shutdown.SweepDisconnects` | node/node.go:162-165 | sending and disconnecting passes on one removal and one task iff the session was connected |
| `Shutdown.SweepSends` | node/node.go:162-165 | an open channel with room for two ends with the message, then the close frame 1001 |
| `Shutdown.CloseAll` | node/node.go:152-173 | exactly n removals and n tasks, message and close frame sent where there is room; completes iff the removals fit the register channel, provided the queue has room; where it blocks |
| `Closing.RemovalsFit` | node/node.go:152-173 | with all session threads and queue consumers interleaved: no removal waits while pending commands and sessions to remove fit the register channel, and all are removed only if they do |
| `Closing.SweepCannotFinish` | node/node.go:152-173 | when they do not fit, no interleaving removes them all |
| `Closing.Overcrowded` | node/node.go:152-173 | nodes like that are reachable |
| `Closing.TasksFit` | node/node.go:152-173 | likewise no session waits to be handed over while they fit the disconnect queue |
| `Registration.SettledRegisteredIff` | node/node.go:204-208 | over all sessions, hub and register channel: once settled, a session is registered iff connected or its removal was taken before its registration |
| `Registration.DeadForGood` | node/node.go:204-208 | in the second case it stays registered in every continuation |
| `Registration.DeadSession` | node/node.go:196-208 | a run that gets there |
| `DisconnectDeadlock.ComesThroughIff` | node/hub.go:398-408 | task and loop, run until neither can go on, are through with the channel empty iff the surplus of commands over those the loop can take fits it, else deadlocked |
| `DisconnectDeadlock.CapacityAndOne` | node/hub.go:216-239 | with r removals pending and n sessions: through iff r + n is at most 2049, else the deadlock is reached |
| `DisconnectDeadlock.EndsOnlyWhenOvertaken` | node/hub.go:398-408 | whatever else happens, an oversized task ends only if others disconnect as many of its sessions as are too many |
| `DisconnectDeadlock.RunsToHalt` | node/hub.go:93-124 | task and loop always get to where neither can go on, within a bound |
| `Retry.StreakSum` | rpc/rpc.go:373-389 | the waits of a streak add up to the next wait less the first |
| `Retry.PowerBound` | rpc/rpc.go:386-389 | the power of two stays within 256 and 16 |
| `Retry.CountAgainstTotal` | rpc/rpc.go:373-395 | the number of waits against their sum, resets included |
| `Retry.Bounds` | rpc/rpc.go:340-397 | at most 72 waits and 5560 ms |
| `Retry.LogIsDetermined` | rpc/rpc.go:340-397 | replies determine the waits: two ended series of waits for the same replies are the same |
| `Retry.Replay` | rpc/rpc.go:340-397 | every series of waits that keeps to the backoff is what the loop does for some replies |
| `Retry.AttainBounds` | rpc/rpc.go:340-397 | one call waits 72 times, another 5560 ms |
| `Retry.Run` | rpc/rpc.go:340-397 | ends for every series of replies; waits only after exhausted and unavailable ones, doubling with the same-kind replies right before; the outcome is that of the first reply that is not one of these or comes over the limit |
| `Retry.FailAtOnce` | rpc/rpc.go:355-369 | an error without status or with another code ends the call with it, after the waits of the replies before |
| `Retry.AwaitIdle` | rpc/rpc.go:150-176 | the shutdown wait fails at once while calls are in flight |
| `Tickets.TicketsConserved` | rpc/rpc.go:179-309 | in every run free tickets and calls in flight make up the concurrency, busy is exact, release never waits, the gauge counts the pending callers |
| `ConnPoolModel.PoolPartition` | pool/pool.go:44-150 | in every interleaving each connection is in exactly one place, capacity holds, no closed channel is hit, and after Close and all returns each is closed once |
| `ConnPoolModel.ClosedStartsNothing` | pool/pool.go:83-87 | once Close has taken the lock nothing is made and no Get starts |
| `ConnPoolModel.ClosedChannelEndsGets` | pool/pool.go:91-99 | once the channel is closed no further Get comes to a factory call |
| `ConnPoolModel.NilFactoryIff` | pool/pool.go:83-140 | in every interleaving a nil factory is called iff a Get comes to its factory call after Close took the lock |
| `ConnPoolModel.NilFactoryReachable` | pool/pool.go:83-140 | an interleaving that does |
| `ConnPool.ChannelPool.Select` | pool/pool.go:91-105 | an idle connection, else a new one, else the factory's error |
| `ConnPool.ChannelPool.WrapConn` | pool/pool.go:44-50 | turns a connection in transit into a lease |
| `ConnPool.ChannelPool.Get` | pool/pool.go:83-106 | a connection not leased before, or an error exactly when closed or nothing is made |
| `ConnPool.ChannelPool.Put` | pool/pool.go:108-132 | to the end of the channel while open with room, else closed |
| `ConnPool.ChannelPool.DrainIdle` | pool/pool.go:146-149 | closes what the channel holds, in order |
| `ConnPool.ChannelPool.Close` | pool/pool.go:135-150 | closes all idle connections once; a second call does nothing |
| `ConnPool.ChannelPool.NewChannelPool` | pool/pool.go:53-74 | a pool iff capacities are valid and every initial connection is made |
| `GoPoolModel.NewGoPool` | utils/gopool.go:35-66 | starts its workers iff the size is at least one: a fifth of it within 1 and 1024, with a queue of half of it |
| `GoPoolModel.WorkersConserve` | utils/gopool.go:87-113 | tokens are the live workers, each task is in exactly one place, no worker begins more than 65536, scheduling waits iff tokens and queue are used up |
| `GoPoolModel.LeavesAtThreshold` | utils/gopool.go:99-113 | a worker leaves after exactly 65536 tasks |
| `GoPoolModel.RunWorker` | utils/gopool.go:99-113 | the worker loop runs its first task and the next ones off the queue, at most 65535 of them |
| `Env.MergeTwice` | common/common.go:52-77 | two merges in turn are one merge of the override |
| `Env.MergeInto` | common/common.go:53-59 | the loop, in any key order, sets and deletes key by key |
| `Env.FoldIsLastWrite` | common/common.go:52-77 | a fold keeps of each key the last value written unless it is empty |
| `Env.EnvIsFold` | node/node.go:387-401 | connection and channel state are the folds of the earlier replies' updates, per channel |
| `Env.CommandCarriesLastWrites` | protocol/protocol.go:107-146 | a command carries exactly those states, none for a channel never updated |
| `Env.BuildDisconnectEnv` | protocol/protocol.go:115-133 | every channel's state encoded under its identifier, nil states passed on as nil |
| `Env.SessionEnv.MergeConnectionState` | common/common.go:52-60 | merges into the connection state alone |
| `Env.SessionEnv.MergeChannelState` | common/common.go:65-77 | merges into one channel's state, creating it if missing |
| `Env.SessionEnv.MergeReply` | node/node.go:387-401 | the state part of a reply |
| `Env.SessionEnv.MergeEnv` | node/session.go:102-116 | merges both parts of another environment |
| `Commands.RunIsDisciplined` | node/node.go:223-320 | clean subscribe and unsubscribe calls alternate per channel, performs come only in between, the record is the open channels |
| `Commands.RecordedIff` | node/node.go:223-284 | over every run: a channel is recorded iff of its subscribes and unsubscribes answered SUCCESS or FAILURE the last is a subscribe |
| `Commands.RejectedStaysOpen` | node/node.go:223-320 | after a FAILURE answer the channel stays recorded, open to performs and closed to subscribes in every continuation without a clean unsubscribe; an error records nothing |
| `Commands.FinalDisconnect` | node/node.go:336-346 | the final call lists exactly the open channels, each once |
| `Node.NodeSession.Authenticate` | node/node.go:196-220 | only SUCCESS registers; any other outcome disconnects; an error skips the reply's state, broadcasts and transmissions |
| `Node.NodeSession.HandleCommandReply` | node/node.go:368-412 | the whole effect of a reply on hub, channel, state, broadcasts and transmissions |
| `Node.RepliesFoldConnection` | node/node.go:387-401 | after any series of replies the connection state is the fold of the connection states they carry |
| `Node.RepliesFoldChannel` | node/node.go:387-401 | and each channel's state the fold of the channel states carried for it |
| `Node.RepliesSend` | node/node.go:396-412 | transmissions and broadcasts are theirs, in order |
| `Node.RepliesDisconnectIff` | node/node.go:368-372 | the session is disconnected iff one of them says so |
| `Node.RepliesStartAndStop` | node/node.go:373-385 | the hub has the streams they start, the channel the stops they ask for |
| `Node.NodeSession.StartStreams` | node/node.go:381-385 | subscriptions reach the hub at once, in order |
| `Node.NodeSession.QueueRemovals` | node/node.go:373-379 | one removal for all streams, or one per stopped stream |
| `Node.NodeSession.Subscribe` | node/node.go:223-250 | an error iff already recorded, no reply or status ERROR; recorded otherwise; the reply is handled whenever there is one |
| `Node.NodeSession.Unsubscribe` | node/node.go:253-284 | an error iff not recorded, no reply or status ERROR; otherwise the record goes and all streams stop |
| `Node.NodeSession.Perform` | node/node.go:287-320 | an error iff not recorded, data that is no string, no reply or status ERROR |
| `Node.UnsubscribeClearsChannel` | node/node.go:253-284 | over interleavings: after a successful unsubscribe and the backlog the channel is on a stream only if the reply started it after the loop took the removal |
| `Node.UnsubscribedStaysOnStream` | node/node.go:253-284 | a run in which it is |
| `Node.UnsubscribeAtOnceClears` | node/node.go:253-284 | if the loop takes nothing meanwhile, the channel is on no stream, not even one the reply starts |
| `Node.LookupSession` | node/node.go:139-141 | with agreement succeeds iff a registered session carries the identifier; what it finds is the session last added with its UID |
| `Node.RemoteDisconnect` | node/hub.go:386-409 | reaches exactly the registered sessions the index lists when the task runs, if the identifier never left the index since the look-up, and none otherwise |
| `Node.DueRightlyIff` | node/hub.go:386-409 | over every run, read off its events: exactly the sessions carrying the identifier iff whoever is listed and registered was last added with it, or, once the identifier left, nobody carries it |
| `Node.DueUnderAgreement` | node/hub.go:386-409 | with the index in agreement, exactly the carriers if the identifier never left |
| `Node.ForeignerIsReached` | node/hub.go:386-409 | after a UID was reused, a session that does not carry the identifier is reached |

## Left out

- `Registration.SettledRegisteredIff`: speaks of a session whose UID no other session has; what a reused UID does to the hub is in `HubProperties` alone.
- `HubLoop.StartedStreamSurvivesIff`: leaves out additions waiting next to a removal of the session, which the hub's unused `AddSubscription` alone could push; `SubscribedIff` covers them.
- The remote-disconnect task's pushes to the disconnect queue, which its own loop works off, are not part of `DisconnectDeadlock`.
- Hub operations are atomic, although `unsubscribeSession` looks before it takes the write lock; `RemovalRacesWithSubscribe` alone splits a removal.
- `Hub.Hub.DisconnectTask`: takes the captured map as a value and lists the sessions it reaches, in place of the calls on them; what the map holds by then is `CaptureIsCurrentOrEmpty`.
- `Node.UnsubscribeClearsChannel`: speaks of runs in which no other command about the channel is pushed after the removal; the session's reader, which would push it, handles one reply at a time.
- `Node.NodeSession.QueueRemovals`: pushes without waiting; the capacity of the hub's channels is in `HubLoop`.
- `Node.NodeSession.HandleCommandReply`: is one step on the hub, without the loop in between, and does not model that a failed encoding drops a transmission or that a push to the broadcast channel can wait; `StartedStreamSurvivesIff` and `UnsubscribeClearsChannel` cover the interleavings.
- `Env.CommandCarriesLastWrites`: speaks of environments made by the constructor, whose state maps are never nil; the builders take nil ones too.
- What pings and the direct close of `disconnectNow` put on the wire, past the channel, is not ordered against the writer.
- `SessionModel.ThreadTerminates`: counts steps; waiting for the mutex, the socket or a full node channel is not bounded.
- `DisconnectQueue.DisconnectQueue.Enqueue`: does not hold the mutex while it waits for room, so the model also has runs in which Shutdown goes first.
- `DisconnectQueue.DisconnectQueue.Shutdown`: is one run of the model, without the loop in between; `Conservation` and `ShutdownReturnsNilIff` cover every interleaving.
- `Session.Session.SendMessages`: goes over the frames already buffered; frames that arrive while it writes are in `SessionModel`.
- `Shutdown.CloseAll`: runs the sweep alone; `RemovalsFit` and `TasksFit` cover every interleaving.
- The filling of the ticket channel on start; `TicketsConserved` begins with it full.
- Throttling, timers and real delays are steps or oracles; the floor in 1000/Rate is not modelled.
- Redis and HTTP subscribers, the HTTP server, TLS, WebSocket upgrade, gRPC dialing and connectivity state.
- JSON and protobuf encoding and parsing, taken as functions.
- Ordering of broadcasts to one stream, which several workers run.
- Metrics other than the pending gauge, logging, statistics, configuration and command-line code.
