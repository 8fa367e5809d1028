# Karo robot SDK: a verified model of its client engine

The SDK keeps one WebSocket connection to a robot. A single control thread runs every handler
(user calls, responses, pushes, timers, transport closes), so the client is a state machine of atomic
steps; two more threads, the socket thread and the callback dispatcher, have step systems of their own.
The project models:

| file | what it models |
|---|---|
| `Types.dfy` | error codes and their categories, connection and subscription states, decoded messages |
| `Engine.dfy` | the control thread: a state, one function per handler, steps and runs |
| `EngineInvariant.dfy` | the inductive invariant, part by part |
| `EngineKernel.dfy`, `EngineSubscriptions.dfy`, `EngineSteps.dfy` | every handler keeps it, so every run does |
| `EngineBarrier.dfy`, `EngineProgress.dfy`, `EngineRecovery.dfy` | what a step can do in the reconnect barrier, when the barrier can complete, recovery of a lost connection |
| `EngineHistory.dfy`, `EngineMemory.dfy` | histories only grow; what alone moves the remembered stop, confirmations and last sign of life |
| `EngineTheorems.dfy`, `EngineAnswers.dfy` | the properties of runs; what a reported success means |
| `EngineServing.dfy`, `EngineHeartbeat.dfy`, `EnginePingTimeout.dfy` | one step of a connection in use; the heartbeat over runs: sound, detecting, or without a timer; which ping timeouts make it work |
| `EngineFaults.dfy`, `EngineWitnesses.dfy` | where the handlers run into undefined behaviour, exactly when, and the runs that get there |
| `EngineFate.dfy`, `EngineVerdicts.dfy` | which inputs end the session or lose the connection and what everybody is told then; how a connection attempt ends |
| `EngineTelling.dfy`, `EngineReplies.dfy` | what becomes of one subscription; what every call is answered |
| `EnginePings.dfy`, `EngineQuiet.dfy` | the pings behind every deadline; where the heartbeat does not run |
| `EngineStranded.dfy`, `EngineNewcomers.dfy` | connection attempts that are stranded; subscriptions that are never sent |
| `RobotImpl.dfy` | the class with the control thread's fields and one method per handler, each proved against `Engine` |
| `Stream.dfy` | one subscription: buffer, sequence numbers, gap reports, status stream; the record in place |
| `StreamDelivery.dfy` | which frames are handed over and which gaps reported, said of the pushes alone |
| `Delivery.dfy` | how notes reach the user: through the dispatcher, or frames at once |
| `Heartbeat.dfy` | idle timer, ping deadline, miss count |
| `HzWindow.dfy`, `RateLimiter.dfy`, `Backoff.dfy` | the 60-second counter, token bucket and watchdog, exponential backoff |
| `WriteQueue.dfy`, `WriteCompletion.dfy` | the socket's write queue; when it disconnects and what its callers are told |
| `Dispatcher.dfy`, `Json.dfy` | the callback queue, the JSON string printer |

How it is built. `Engine.Run` is a function of the options and a sequence of inputs. The environment is
in the inputs: the event, the time passed, which requests the socket takes, and the order in which the
subscription table is walked. A state carries its own history (trace of states, requests per connection,
confirmed requests, values each promise was set to, notes each user was given), which handlers only
extend. Every run-level result follows from `RunKeeps`. A step that hits undefined behaviour sets
`fault`, after which nothing is claimed; `EngineFaults` says exactly when that happens.

What the proofs found in the code, each kept as it is in the model:

- A transport close, or a fatal acknowledgement, while the replayed emergency stop is unanswered calls the
  replay's callback, which closes the transport again over the same table (src/robot_impl.cpp:613-623,
  1904-1911). It never returns. Some run gets there unless reconnects are disabled.
- A subscribe refused by the socket during the walk over the table, with no attempt left, ends the session and
  clears the table under the walk (src/robot_impl.cpp:851-862, 512-517). Some run gets there whenever the
  attempts are limited.
- The idle timer is armed at the handshake, and an expiry outside Ready does not arm it again
  (src/robot_impl.cpp:513, 1737-1738). A barrier that outlasts one heartbeat interval therefore leaves a Ready
  connection without a heartbeat: its silence is never detected.
- Options with ping_timeout >= heartbeat_interval are accepted (src/robot_impl.cpp:167-170), but each idle tick arms
  the ping deadline anew (src/robot_impl.cpp:1777): above the interval it never passes and silence is never detected,
  at the interval it need not be.
- Unsubscribing while a resubscribe is outstanding leaves the pending counter too high by one
  (src/robot_impl.cpp:1215-1223), and that connection then never becomes Ready.
- A handshake timeout drops the socket without a transition or a retry (src/robot_impl.cpp:546-560).
- In Inline mode frames overtake the status notes that wait in the dispatcher
  (src/robot_impl.cpp:1129-1131, 1163-1166): a user can be given a frame before the stream has started.
- After an opening for which the server promised number 1, frames lost before the first one that arrives are not
  reported: position 0 is taken for no position (src/robot_impl.cpp:1097-1099).
- A task call or an unsubscribe whose response reports failure together with code Ok settles as a success
  (src/robot_impl.cpp:1241, 1491-1496). CancelTask, PauseTask, ResumeTask and Unsubscribe pass it on as one; the
  two CreateNavigationTask calls go on to decode the empty payload and report InternalError
  (src/robot_impl.cpp:1557-1567).
- API.md:195 calls Reconnecting the state in which subscriptions are restored. A subscription made after
  the reconnect handshake and before Ready is not sent (src/robot_impl.cpp:743-745); it stays Pending for
  the rest of that connection.
- API.md:155 gives -1 for unlimited reconnects; the code takes any negative number so (src/robot_impl.cpp:1872).

## Model

| member | source | states |
|---|---|---|
| `EngineSteps.RunKeeps` | src/robot_impl.cpp:203-245 | Every run of the control thread, whatever the order of user calls, responses, pushes, timers and transport closes, keeps the one inductive invariant `EngineInvariant.Inv` (connection machine, request table, subscription table, barrier, emergency stop, heartbeat) up to its first fault. |
| `EngineSteps.StepKeeps` | src/robot_impl.cpp:581-643 | One atomic step from any state that satisfies the invariant, with any input, satisfies it again or faults. |
| `EngineTheorems.ReadyMeansRestored` | src/robot_impl.cpp:529-541 | Barrier: when a step takes a reconnect to Ready, no subscribe is outstanding, every subscription restored by the reconnect is Active, later ones are unsent, and an engaged stop was confirmed on this connection. |
| `EngineTheorems.PendingIsOutstanding` | src/robot_impl.cpp:851-862 | In every reachable barrier state the pending counter is the number of outstanding subscribes plus the subscriptions that left with theirs open; it never rests at zero without a stop still pending. |
| `EngineTheorems.PendingCountsDepartures` | src/robot_impl.cpp:1194-1223 | Over any stretch of a run inside one barrier the counter exceeds the outstanding subscribes by exactly the number of unsubscribe calls that hit an outstanding one; it is exact if there were none. |
| `EngineBarrier.BarrierStep` | src/robot_impl.cpp:864-1084 | What one arbitrary step can do inside the barrier: stay with no more work left (strictly less after a matched acknowledgement), settle it, which takes that nothing left early, or lose the connection. |
| `EngineProgress.CompletesIffNothingAbandoned` | src/robot_impl.cpp:927-935 | A reachable barrier can still become Ready on its connection if and only if no subscription was unsubscribed while its subscribe was outstanding: an unsubscribe in that window makes this connection wait for ever. |
| `EngineProgress.AbandonedNeverReady` | src/robot_impl.cpp:1215-1223 | The impossible half: after such an unsubscribe no continuation, however long, reaches Ready on the same connection. |
| `EngineProgress.BarrierCompletes` | src/robot_impl.cpp:1075-1083 | The possible half: otherwise a sequence of answers is constructed that takes this connection to Ready. |
| `EngineRecovery.RecoveryIsPossible` | src/robot_impl.cpp:1869-1892 | No reachable TransientFailure is a dead end: from each one some sequence of inputs leads back to Ready without a fault. |
| `EngineRecovery.WalkAsksAll` | src/robot_impl.cpp:851-862 | After a resubscription walk whose requests are all taken, every subscription has been asked for again on this connection, an event subscription with a position for the frame just after the last one handed over, if replay is on, and every other from scratch; each may fall back once and will be told Resumed if it was paused or ever flowed. |
| `EngineRecovery.ReconnectAsksAll` | src/robot_impl.cpp:531-541 | An accepted reconnect handshake leads to Ready at once if there is nothing to restore, and otherwise to the barrier with every subscription requested again from its position, each counted once, and an engaged stop sent again on this connection. |
| `EngineTheorems.StopIsRestored` | src/robot_impl.cpp:1894-1950 | Emergency-stop safety over whole runs: in Ready, if the last stop request acknowledged to a user engaged it, an emergency_stop(true) went out on this very connection and some input of the run answered it with success; so a failed, timed-out or unsent replay never leads to Ready. |
| `EngineMemory.RunRemembers` | src/robot_impl.cpp:1426 | The remembered stop intent is the one of the last acknowledged stop request of the run, and the last sign of life is the clock of its last inbound message, computed from the inputs alone. |
| `EngineMemory.StepRemembers` | src/robot_impl.cpp:645-665 | No handler but the completion of an acknowledged stop request moves the intent, and a request counts as confirmed exactly when a response answers it with success. |
| `EngineTheorems.ConfirmedWasAnswered` | src/robot_impl.cpp:652-664 | Every confirmed request was answered with success by some input of the run. |
| `EngineTheorems.PromisesAreSetOnce` | src/robot_impl.cpp:1344-1367 | Every call of CmdVel, EmergencyStop, InvokeRpc, Ping and synchronous Unsubscribe that ran is answered at most once, and is unanswered exactly while one entry of the request table, and only one, holds its promise. |
| `EngineTheorems.PromisesAreKept` | src/robot_impl.cpp:1322-1342 | A promise once set keeps its value for the rest of the run. |
| `EngineAnswers.SuccessIsEarned` | src/robot_impl.cpp:1329-1342 | Whoever is told that a call succeeded, some input of the run earned it: a response to the very request that holds the call's promise, reporting success (any answer for a ping), or an unsubscribe of a topic nobody is subscribed to. Timeouts, refused sends, transport closes, Fatal and Close only ever report failure. |
| `EngineAnswers.GainsIffEarned` | src/robot_impl.cpp:1414-1428 | One step, from any reachable state: a call gains a success if and only if the input earns it. |
| `EngineAnswers.StepEarns` | src/robot_impl.cpp:652-664 | An input that earns it gives the waiting call this one value, a success. |
| `EngineAnswers.FailureIsReportedAsSuccess` | src/robot_impl.cpp:1491-1496 | A response that reports failure with the code Ok, to a task call or an unsubscribe, settles the waiting call as a success. |
| `EngineAnswers.FailedTaskSucceeds` | src/robot_impl.cpp:1491-1496 | A run in which that happens. |
| `EngineReplies.StepAnswers` | src/robot_impl.cpp:1311-1342 | What every waiting call is told, for every step from every reachable state: Cancelled by Close; the code that ends the session or the reason that loses the connection; Timeout when its own timer fires; its own response's failure, the outer level first, or its success (a ping takes any response for one, a task call needs a payload); and nothing otherwise. |
| `EngineReplies.NewCallAnswers` | src/robot_impl.cpp:1296-1304 | A new call is told Disconnected outside Ready and TransportFailure if the socket refuses it; otherwise it waits, with its own request sent on this connection. |
| `EngineReplies.NewUnsubscribeAnswers` | src/robot_impl.cpp:1209-1269 | The same for a synchronous unsubscribe, which succeeds at once for an unknown topic. |
| `EngineFate.StepFate` | src/robot_impl.cpp:599-643 | The fate of a connection in one step, from every reachable state after Connect, with the causes said of the input. The session ends exactly if a subscribe is refused with AuthFailed, AuthCnNotAllowed, AuthSerialRevoked, AuthTokenInvalid, AuthTokenExpired or UnsupportedVersion. The connection is lost exactly for: a reported close; an acknowledgement timeout of an outstanding subscribe; a heartbeat declared dead or refused by the socket; a failed or late stop replay; a refused subscribe; a resubscribe refused with SessionTokenInvalid, SessionTokenExpired, HandshakeRequired, TransportFailure or Timeout. Then every waiting call and every subscription is told that reason, timers stop, and the retry is armed or the session ends. Any other input changes at most the one call it completes and the one subscription it is about. |
| `EngineFate.CloseShuts` | src/robot_impl.cpp:211-245 | The user's Close, in any state: every waiting call and every subscription is told Cancelled, and nothing is armed any more. |
| `EngineVerdicts.ConnectVerdict` | src/robot_impl.cpp:395-475 | How the first connection attempt ends: refused with one of those six codes it ends the session with that code, refused with any other it is retried while attempts are left; a handshake that cannot be encoded ends the session; else the handshake is on its way. |
| `EngineVerdicts.RetryVerdict` | src/robot_impl.cpp:1880-1891 | The same for a reconnect attempt, counted as the attempt that was armed. |
| `EngineVerdicts.HandshakeVerdict` | src/robot_impl.cpp:485-502 | A handshake answered with a failure, or without its payload (InternalError), ends the session for those six codes and is retried for all others. |
| `EngineVerdicts.FirstReadyAsksAll` | src/robot_impl.cpp:515-527 | On the first Ready every subscription made before it has been requested from scratch on this connection, if the socket takes the requests. |
| `EngineTheorems.NobodyWaitsOutsideReady` | src/robot_impl.cpp:613-623 | Outside Ready every call has been answered exactly once; the table holds at most the handshake of the connection being set up or the replayed stop of the barrier. |
| `EngineTheorems.TransitionsAreLegal` | src/robot_impl.cpp:267-284 | The trace of states entered in any run makes only the documented transitions, the retry counter is the number of entries into Reconnecting since the last Ready, and the reconnect count the number of times a reconnect reached Ready. |
| `EngineTheorems.TerminalStatesAreFinal` | src/robot_impl.cpp:203-245 | Shutdown is absorbing and Fatal is left only to Shutdown, over whole runs. |
| `EngineTheorems.RetriesAreBounded` | API.md:155 | Between steps TransientFailure has the retry timer armed for the next attempt and no other state has; with a limit of n at most n entries into Reconnecting happen without a Ready, and after the n-th the machine does not rest in TransientFailure. |
| `EngineTheorems.LossIsFatalIffSpent` | src/robot_impl.cpp:1869-1876 | Losing the connection ends in Fatal if and only if the attempts since the last Ready have used up the limit, and in TransientFailure otherwise; either way every open call has been answered once. |
| `EngineTheorems.AcksAreBounded` | src/robot_impl.cpp:982-1009 | The replay fallback terminates: inside one barrier of N subscriptions at most 2N acknowledgements are handled, whatever they say and in whatever order. |
| `EngineTheorems.AtMostTwoSubscribes` | src/robot_impl.cpp:1001-1008 | A subscription is requested at most twice on one connection, the second time only as the fallback. |
| `EngineTheorems.StreamsAreWellFormed` | src/robot_impl.cpp:1154-1167 | In every run the notes raised for every subscription, live or gone, are a well-formed story: frames and gaps only while open, a pause between two openings, nothing after the end, which comes exactly when it leaves the table. |
| `EngineTheorems.DispatchedUsersSeeTheStory` | src/robot_impl.cpp:1132-1137 | In Dispatched mode, in every interleaving with the dispatcher, its other tasks and its shutdown, the user of every subscription of every run has been told a beginning of that story, itself well formed. |
| `Delivery.DispatchedInOrder` | src/dispatcher.cpp:17-62 | In Dispatched mode what the user has been told and what waits is, in order, what was raised, and all of it while the dispatcher runs. |
| `Delivery.InlineInOrderIff` | src/robot_impl.cpp:1129-1131 | In Inline mode the user is told everything in order at every moment if and only if no frame is raised while a status note of its subscription still waits in the dispatcher or was dropped by it. |
| `EngineWitnesses.InlineUserIsMisled` | src/robot_impl.cpp:1129-1131 | A run whose user in Inline mode is told the first frame before the start of the stream. |
| `EngineTheorems.LossesAreAccounted` | src/robot_impl.cpp:1089-1115 | Loss accounting across any number of reconnects: base + frames delivered + losses reported equals the last sequence number, and the delivered numbers are strictly increasing and never beyond it. |
| `EngineTheorems.LossesAgainstPromise` | src/robot_impl.cpp:1097-1099 | The same account against the number the server promised at the opening: frames, reported losses and unreported losses reach from it to the last number, and losses go unreported exactly when the promise was 0 or 1 and the first numbered frame is beyond 1. |
| `EngineTheorems.RaceIsInvisible` | src/robot_impl.cpp:677-688 | The race of frames with the acknowledgement, below, for every subscription a run leaves pending. |
| `EngineTheorems.NotesAreKept` | src/robot_impl.cpp:1162-1166 | What a user has been told is only extended: the subscription is still there with a longer log, or left closed with a longer log. |
| `EngineTelling.FlowingIsHandedAll` | src/robot_impl.cpp:667-698 | Over any stretch of any run in which its connection goes on, a flowing subscription is handed exactly the pushes for its topic: all of them, or of an event stream those that are unnumbered or numbered beyond the position and every push before, each counted once, with a gap exactly where numbers are missing. |
| `StreamDelivery.FlowHandsOver` | src/robot_impl.cpp:1086-1137 | The same for one subscription and any sequence of pushes; nothing is counted as dropped. |
| `StreamDelivery.GapsAreExact` | src/robot_impl.cpp:1101-1108 | Each gap stands right before the frame that skips numbers and covers exactly those above the last number told and below the frame; every such frame has its gap. |
| `StreamDelivery.TelemetryIsPlain` | src/robot_impl.cpp:1117-1118 | A telemetry stream adds to its log the pushes, in order, and nothing else. |
| `StreamDelivery.NothingElseIsLost` | src/robot_impl.cpp:677-698 | From a pending subscription on: of the frames before and after the accepting acknowledgement the user is handed those the buffer kept and those that came later, all of them or all that run ahead of the promised position. |
| `EngineTelling.AcceptedTells` | src/robot_impl.cpp:1011-1073 | What an accepting acknowledgement tells, in every reachable state: Resumed if the subscription was paused or a replay was asked for, Started otherwise; the loss if a replay was asked for and the server goes on at or after the number asked for; then exactly the buffered frames beyond the promised position. |
| `EngineTelling.AcknowledgementTells` | src/robot_impl.cpp:895-1026 | What any matched acknowledgement does: refused or rejected for good, the subscription is closed with the code, written out for every reason; a refused replay is asked for once more from scratch; accepted, it flows. |
| `EngineTelling.AcknowledgementStopsTimer` | src/robot_impl.cpp:871-883 | An acknowledgement, matched or stale, stops its own timer. |
| `EngineTelling.LeavesIff` | src/robot_impl.cpp:1226-1241 | In a step that neither ends the session nor loses the connection a subscription leaves the table if and only if the input is a posted unsubscribe (Ok), one without a ready connection (Disconnected), an answered one (its code), or a final refusal or rejection (its code); it is closed with that code as its last word. |
| `EngineTelling.PostedUnsubscribeExits` | src/robot_impl.cpp:1171-1200 | A posted unsubscribe closes and removes its subscription at once in every state; the request goes out exactly if the connection is ready and open, takes it, and was not asked before. |
| `EngineTelling.AnsweredUnsubscribeExits` | src/robot_impl.cpp:1229-1242 | A synchronous unsubscribe that is answered closes and removes the subscription with the answered code. |
| `EngineTelling.NothingAfterClose` | src/robot_impl.cpp:1236-1239 | Over runs: a closed subscription stays as it is, and nothing is ever told after its last word. |
| `EngineTelling.SubscribeTells` | src/robot_impl.cpp:729-746 | A new subscription is forgotten if its user is gone, refused with TopicAlreadySubscribed if the topic is taken, and otherwise recorded; on a ready connection it is requested from scratch at once. |
| `EngineTheorems.RunOnward` | src/robot_impl.cpp:267-270 | A longer run extends every history of a shorter one: trace, promises, request log, confirmations, subscription logs. |
| `EngineHistory.StepOnward` | src/robot_impl.cpp:599-643 | No handler rewrites any of these histories. |
| `EngineHeartbeat.DeadMeansSilent` | src/robot_impl.cpp:1802-1841 | Heartbeat soundness in runs: the connection is declared dead only when nothing was heard for interval + max(1, max_missed_pings) ping timeouts. |
| `EngineHeartbeat.IdleArmedIff` | src/robot_impl.cpp:1737-1752 | On a connection in use, with a positive interval, the idle timer is armed if and only if no idle expiry since its handshake was handled outside Ready or after an interval of silence with no open socket, as counted from the inputs of the run. |
| `EngineHeartbeat.SilenceEndsReady` | src/robot_impl.cpp:1737-1800 | Heartbeat detection over runs: with ping_timeout < interval and exact timers, a connection that has lost no idle expiry cannot stay Ready through more than 1 + max(1, max_missed_pings) intervals without an inbound message, whatever else happens meanwhile. |
| `EngineHeartbeat.SilenceIsDeclaredDead` | src/robot_impl.cpp:1802-1841 | Once nothing more arrives on such a connection, every maximal schedule of its due timers has at most 2 max(1, max_missed_pings) + 2 of them and ends with the heartbeat declaring it dead, within 1 + max(1, max_missed_pings) intervals of the last message. |
| `EnginePingTimeout.SilenceEndsIff` | src/robot_impl.cpp:1773-1800 | Silence on such a connection always ends after boundedly many timers if and only if ping_timeout < interval; the options allow either. |
| `EnginePingTimeout.LongPingDeclaresNothing` | src/robot_impl.cpp:1776-1781 | In a run with exact timers and ping_timeout above the interval, no connection whose idle timer was never lost is ever declared dead. |
| `EngineHeartbeat.SlowBarrierIsDeaf` | src/robot_impl.cpp:1737-1738 | A run whose reconnect barrier outlasts one interval ends in Ready, without a fault, with neither heartbeat timer armed. |
| `EngineHeartbeat.DeafStaysDeaf` | src/robot_impl.cpp:1723-1735 | From such a state, whatever happens, the connection stays without heartbeat timers as long as it lasts and is never declared dead. |
| `EnginePings.DeadlineMeansPing` | src/robot_impl.cpp:1754-1788 | Over runs: whenever a ping deadline is armed on a connection in use, a heartbeat ping went out on this connection after the last inbound message and is unanswered in the table. |
| `EnginePings.DeadMeansAsked` | src/robot_impl.cpp:1802-1812 | Over runs: a connection is declared dead only after at least max(1, max_missed_pings) heartbeat pings since the last inbound message. |
| `EnginePings.IdleTickAsks` | src/robot_impl.cpp:1737-1800 | An idle tick of a ready connection after an interval of silence, with the socket open, sends a ping or loses the connection. |
| `EngineQuiet.RunIsHushed` | src/robot_impl.cpp:1723-1727 | Over runs: no heartbeat timer runs without a connection in use, and none ever runs with an interval of zero. |
| `EngineServing.ServingStep` | src/robot_impl.cpp:1843-1851 | One arbitrary step of a connection in use loses it, or keeps it on the same socket with a heartbeat that only messages and its own two timers have changed. |
| `EngineServing.ServingBegins` | src/robot_impl.cpp:508-541 | A connection comes into use only by an accepted answer to its handshake, which starts its heartbeat. |
| `EngineFaults.CloseOverflowsIff` | src/robot_impl.cpp:1904-1911 | Re-entry on close: losing the transport recurses without end if and only if a reconnect barrier still waits for the replayed stop; in every other state it does not fault. |
| `EngineFaults.AbortOverflowsIff` | src/robot_impl.cpp:352-361 | The same, for ending the session. |
| `EngineFaults.WalkDanglesIff` | src/robot_impl.cpp:851-862 | The resubscription walk is left on a cleared table if and only if the socket refuses one of its requests and no reconnect attempt is left. |
| `EngineFaults.HandshakeFaultsIff` | src/robot_impl.cpp:508-541 | Exactly when handling the answer to a handshake faults, first connection and reconnect alike. |
| `EngineFaults.OnlyTheseFault` | src/robot_impl.cpp:599-643 | A faulting step does one of two things: it overflows the stack while the stop replay of a barrier is in flight, or it answers a handshake and leaves a walk on a cleared table. |
| `EngineFaults.OverflowReachableIff` | src/robot_impl.cpp:1904-1911 | Some run overflows the stack if and only if the options allow a reconnect; the eight-input run is given. |
| `EngineFaults.OverflowRun` | src/robot_impl.cpp:613-623 | That run: connect, engage the stop, lose the connection, reconnect, lose it again before the replay is answered. |
| `EngineWitnesses.DanglingReachableIff` | src/robot_impl.cpp:851-862 | Some run leaves a walk on a cleared table if and only if the options limit the reconnect attempts; for every limit the run is constructed: subscribe, refused connections until the last attempt, a handshake, a refused subscribe. |
| `EngineWitnesses.StuckReachableIff` | src/robot_impl.cpp:1215-1223 | Some run reaches a barrier that can never complete on its connection if and only if the options allow a reconnect. |
| `EngineWitnesses.AbandoningRun` | src/robot_impl.cpp:1194-1223 | That run: reconnect, and unsubscribe while the resubscribe is unanswered. |
| `EngineStranded.HandshakeTimeoutStrands` | src/robot_impl.cpp:546-560 | A handshake that times out leaves no socket, no request and no retry, in an unchanged connection state. |
| `EngineStranded.StrandsIff` | src/robot_impl.cpp:546-560 | A step strands a connection attempt that was not stranded if and only if it is the timeout of its handshake. |
| `EngineStranded.StrandedStays` | src/robot_impl.cpp:482-485 | From there nothing but a late close report, a late acknowledgement timer or the user's Close changes the connection state. |
| `EngineNewcomers.NewcomerNeverSent` | src/robot_impl.cpp:743-745 | A subscription made after the reconnect handshake and before Ready is not requested on that connection, however long the connection goes on serving, in the barrier and in Ready. |
| `EngineNewcomers.NewcomerStaysUnsent` | src/robot_impl.cpp:743-745 | No single step sends it. |
| `Robot.RobotImpl.Handle` | src/robot_impl.hpp:174-245 | One atomic step on the fields does exactly what `Engine.Step` specifies, up to the first fault, and keeps the invariant. |
| `Robot.RobotImpl.RunControlLoop` | src/robot_impl.cpp:259-265 | The control thread as a loop over its inputs ends with the fields of `Engine.Run`, so every theorem about runs holds of it. |
| `Robot.RobotImpl.OnTransportClose` | src/robot_impl.cpp:599-643 | The loops of the close handler over subscriptions and requests, with their re-entrant callbacks, against the specification, for every depth of stack. |
| `Robot.RobotImpl.FailAll` | src/robot_impl.cpp:613-623 | Calling back every request in flight while the table is unchanged: each promise set once, or, with a replay in the table of a live connection, a stack overflow however deep the stack. |
| `Robot.RobotImpl.CallBack` | src/robot_impl.cpp:1904-1911 | One completion callback called with an error, including the replay's nested transport close. |
| `Robot.RobotImpl.AbortToFatal` | src/robot_impl.cpp:340-377 | The end of a session in place against its specification. |
| `Robot.RobotImpl.DoReconnect` | src/robot_impl.cpp:1869-1892 | Arming the retry, or giving up, in place. |
| `Robot.RobotImpl.EstablishConnection` | src/robot_impl.cpp:379-577 | A connection attempt in place: refused, failing to encode, refused handshake, or waiting for its answer. |
| `Robot.RobotImpl.CompleteHandshake` | src/robot_impl.cpp:479-541 | The handshake callback in place, with the walk over waiting subscriptions or the opening of the barrier. |
| `Robot.RobotImpl.SendSubscribe` | src/robot_impl.cpp:797-849 | Sending one subscribe in place, with its timer, and the transport close if the socket refuses it. |
| `Robot.RobotImpl.ResubscribeAllAfterReconnect` | src/robot_impl.cpp:851-862 | The resubscription loop over the table, with the dangling iterator of a walk whose table was cleared. |
| `Robot.RobotImpl.HandleSubscribeAck` | src/robot_impl.cpp:864-1084 | The acknowledgement handler in place: unknown, stale, refused, rejected, falling back and accepted. |
| `Robot.RobotImpl.HandleSdkResponse` | src/robot_impl.cpp:645-665 | A response in place: the entry leaves the table and its callback runs. |
| `Robot.RobotImpl.DoEStopReplay` | src/robot_impl.cpp:1894-1950 | The stop replay in place. |
| `Robot.RobotImpl.UnsubscribeSync` | src/robot_impl.cpp:1203-1269 | The synchronous unsubscribe in place. |
| `Robot.RobotImpl.UnsubscribeAsync` | src/robot_impl.cpp:1171-1200 | The posted unsubscribe in place. |
| `Robot.RobotImpl.SubscribeInternal` | src/robot_impl.cpp:729-746 | The posted subscribe in place. |
| `Robot.RobotImpl.Call` | src/robot_impl.cpp:1296-1370 | The posted half of a request call in place: one new promise, answered at once or held by one table entry. |
| `Robot.RobotImpl.OnIdleTimerExpired` | src/robot_impl.cpp:1737-1800 | The idle timer in place. |
| `Robot.RobotImpl.OnPingDeadlineExpired` | src/robot_impl.cpp:1802-1841 | The ping deadline in place. |
| `Robot.RobotImpl.Close` | src/robot_impl.cpp:211-245 | Closing the session in place: every request answered with Cancelled, every subscription closed. |
| `Stream.RaceInvisible` | src/robot_impl.cpp:677-688 | Frames that overtake the accepting acknowledgement are seen exactly as if the acknowledgement had come first and the frames the buffer kept had followed; only the drop count differs, by a stated amount. |
| `Stream.BufferKeeps` | src/robot_impl.cpp:677-688 | While pending, the buffer is exactly the last (DropOldest) or first (DropNewest) queue_size frames, and every other frame is counted as dropped. |
| `Stream.DrainDelivers` | src/robot_impl.cpp:1139-1152 | The filter of stale frames in the drain changes nothing but the drop count. |
| `Stream.JudgeFlows` | src/robot_impl.cpp:1086-1115 | Handing over any frame keeps the account of an open stream balanced and in order; the frame itself is the last note, unless an event stream has already passed its number. |
| `Stream.OpenKeeps` | src/robot_impl.cpp:1028-1071 | An accepting acknowledgement opens the stream with a balanced account: one with a gap count extends the old account, any other restarts it. |
| `Stream.ResumeContinues` | src/robot_impl.cpp:1043-1066 | The answer to a replay request: if the server goes on at or after the number asked for, the loss account continues and exactly the numbers in between are reported lost; if it has fallen back, the account starts anew and nothing is reported. |
| `Stream.AcceptKeeps` | src/robot_impl.cpp:1028-1073 | An accepting acknowledgement with everything buffered before it keeps the invariant of the slot. |
| `Stream.OnPushKeeps` | src/robot_impl.cpp:667-698 | A push in any state keeps the invariant of the slot and its state. |
| `Stream.PauseKeeps` | src/robot_impl.cpp:603-611 | A pause keeps the invariant and the position for a replay, empties the buffer, and is told unless the subscription was paused already. |
| `Stream.SubSlot.DeliverPushToSub` | src/robot_impl.cpp:1086-1137 | Delivery in place: the new position and notes, and one count in the rate window exactly when the frame reaches the user. |
| `Stream.SubSlot.DrainPendingBuffer` | src/robot_impl.cpp:1139-1152 | The drain loop in place, with one count in the rate window for each frame handed over. |
| `Stream.SubSlot.HandlePush` | src/robot_impl.cpp:667-698 | A push in place, and one count in the rate window exactly when its frame reaches the user. |
| `Stream.SubSlot.HandleAccepted` | src/robot_impl.cpp:1011-1073 | The accepting half of the acknowledgement in place, telemetry and event, and one count in the rate window for each buffered frame it hands over. |
| `Stream.SubSlot.constructor` | src/subscription_impl.hpp:26-66 | The fields of a new subscription record. |
| `Heartbeat.DeadOnlyAfterSilence` | src/robot_impl.cpp:1802-1818 | Declaring a connection dead takes interval + max(1, max_missed_pings) ping timeouts of silence. |
| `Heartbeat.SilentStep` | src/robot_impl.cpp:1777-1799 | In silence the next due timer fires within 1 + max(1, max_missed_pings) intervals of the last message, and either declares the connection dead or leaves strictly fewer timers to fire before that. |
| `Heartbeat.StepsAreSound` | src/robot_impl.cpp:1723-1735 | Start, stop, inbound message, idle tick and missed deadline all keep the timing invariant behind both. |
| `HzWindow.HzBuckets.Slide` | src/robot_impl.cpp:312-330 | After bringing the window to a clock reading, bucket s mod 60 is the number of deliveries in second s for each of the last 60 seconds, across gaps of any length. |
| `HzWindow.HzBuckets.Record` | src/robot_impl.cpp:1123-1124 | A delivery is counted in its second and nowhere else. |
| `HzWindow.HzBuckets.Total` | src/robot_impl.cpp:1999-2002 | The bucket sum is the number of deliveries of the last 60 seconds according to the full log. |
| `HzWindow.BucketsCoverWindow` | src/robot_impl.cpp:1999-2002 | The 60 buckets partition the window: their counts add up to the count over the log. |
| `RateLimiter.GrantBound` | src/rate_limiter.cpp:27-40 | From a full bucket, n grants ending in a grant satisfy n(1 - epsilon) <= burst + rate (last - start), for attempts at any times, even out of order. |
| `RateLimiter.PotentialFalls` | src/rate_limiter.cpp:27-40 | Tokens minus rate times the last time never rise, and fall by at least 1 - epsilon at a grant. |
| `RateLimiter.GrantsAreApart` | src/rate_limiter.cpp:27-40 | With burst 1 any two grants of a sequence of attempts are at least (1 - epsilon) / rate apart, whatever the clock did in between. |
| `RateLimiter.SpacingOfGrants` | src/rate_limiter.cpp:27-40 | With burst 1 and a nondecreasing clock, the next attempt after a grant and any refusals is granted if and only if the time since that grant has earned 1 - epsilon. |
| `RateLimiter.BurstIsGranted` | src/rate_limiter.cpp:27-40 | From a full bucket any number of attempts up to the burst is granted at once, each for one token. |
| `RateLimiter.RefusalsOnlyRefill` | src/rate_limiter.cpp:31-36 | Refused attempts leave no trace: the bucket is as if refilled once. |
| `RateLimiter.TokenBucket.TryAcquire` | src/rate_limiter.cpp:27-40 | One attempt in place. |
| `RateLimiter.OneReportPerFeed` | src/rate_limiter.cpp:75-83 | Since the last feed the watchdog reports exactly once, at the first late check. |
| `RateLimiter.Watchdog.CheckAt` | src/rate_limiter.cpp:75-83 | One check in place. |
| `RateLimiter.Watchdog.FeedAt` | src/rate_limiter.cpp:55-61 | One feed in place. |
| `Backoff.ExpDelay` | src/robot_impl.cpp:1853-1859 | The early-exit doubling loop computes min(max, base * 2^attempt) for a non-negative base. |
| `Backoff.NextBackoff` | src/robot_impl.cpp:1853-1867 | The delay is the whole milliseconds of d (1 - jr draw), d being that minimum and jr the ratio or 0.05 if that is more, so between floor((1 - jr) d) and d; it is never negative. |
| `Backoff.CappedMonotone` | src/robot_impl.cpp:1853-1859 | A later attempt never waits less, before jitter. |
| `WriteQueue.WritesInOrderPromisesOnce` | src/ws_client.cpp:329-402 | In every run of the socket thread at most one write is outstanding and it is the queue head, buffers reach the stream in enqueue order, a write's promise is set once when it is settled and never otherwise, and the close callback fires at most once. |
| `WriteQueue.ClosingOnlyShrinks` | src/ws_client.cpp:463-477 | Once closing is set every step leaves a suffix of the queue. |
| `WriteQueue.CloseFrameAfterDrain` | src/ws_client.cpp:479-500 | The close frame goes out only when every write ever queued has been put on the stream and completed. |
| `WriteQueue.NextKeeps` | src/ws_client.cpp:329-500 | Every step of the socket thread keeps the invariant behind these. |
| `WriteQueue.Client.Process` | src/ws_client.cpp:347-402 | The loop that fails queued writes of a closed socket or starts the next one, in place. |
| `WriteQueue.Client.EnqueueTask` | src/ws_client.cpp:329-345 | Enqueueing in place. |
| `WriteQueue.Client.WriteCompleted` | src/ws_client.cpp:360-402 | The completion handler of a write in place. |
| `WriteCompletion.DisconnectsIff` | src/ws_client.cpp:376-396 | In every run: the connection is reported lost by exactly two things, a read error and the error of a write nobody waits for, and closed without a report only by the end of the closing handshake; the write reported was not settled before. |
| `WriteCompletion.CallersAreToldRight` | src/ws_client.cpp:376-390 | In every run: a waiting caller is told that its write was sent if and only if the stream reported its success before the deadline, and that it timed out if and only if the stream reported on it after the deadline. |
| `WriteCompletion.WriteIsTakenIff` | src/ws_client.cpp:329-345 | In every run: a write is taken exactly while the socket is open and no close was asked for, and put on the stream at once if it is idle; otherwise a waiting caller is told that it failed. |
| `WriteCompletion.CloseFrameIff` | src/ws_client.cpp:463-500 | In every run: the close frame goes out exactly when the first close request, or the drain it began, finds the socket open and the stream idle. |
| `Dispatcher.Fifo` | src/dispatcher.cpp:17-62 | In every interleaving of posts, shutdown and worker turns, what was executed followed by what is queued is exactly what was posted before the shutdown, in order. |
| `Dispatcher.PerSubscriptionOrder` | src/dispatcher.cpp:48-62 | So each subscription's callbacks run in the order its notes were raised, and completely once the queue is empty. |
| `Dispatcher.TurnsRun` | src/dispatcher.cpp:48-62 | The worker makes progress: n turns run the next n tasks, or all that wait, even after a shutdown. |
| `Dispatcher.TaskQueue.Turn` | src/dispatcher.cpp:48-62 | One turn of the worker in place; it ends only after shutdown with everything executed. |
| `Json.UnescapeEscape` | src/diagnostics.cpp:11-36 | Round trip: unescaping (section 7 of RFC 8259) the escaped form of any byte string gives it back. |
| `Json.EscapeIsPrintable` | src/diagnostics.cpp:11-36 | The escaped form has no byte below 0x20. |
| `Json.ScanQuoted` | src/diagnostics.cpp:38-40 | A string scanner at the opening quote of printed output, followed by any text, stops exactly at the printed closing quote and returns the printed value. |
| `Json.QuotedIsPrefixFree` | src/diagnostics.cpp:38-40 | Printed strings form a prefix code: equal texts that begin with a printed string began with the same string and go on alike. |
| `Json.EscapeJsonString` | src/diagnostics.cpp:11-36 | The loop with its branch table produces the escaped form, and unescaping its output gives back its input. |
| `Json.OutStream.AppendQuoted` | src/diagnostics.cpp:38-40 | Appending a quoted string leaves a tail that scans back to it in full. |

## Left out

- Robot.RobotImpl: the subscription table holds slot values, which the methods replace entry by entry; the aliasing of a slot between table, facade and timers is not modelled. `Stream.SubSlot` shows the record changed in place.
- Robot.RobotImpl.FailAll: a promise set twice would throw; the model appends to the promise's values instead and proves there is never a second.
- EngineTheorems.AtMostTwoSubscribes: counts the requests of one subscription record; a topic unsubscribed and subscribed again is a new record with a new count.
- EngineStranded.StrandedStays: does not claim that a close report of the dropped socket arrives; the code that closes a socket from this side does not promise one.
- Engine: sockets, TLS, resolver and codec. A connection attempt is an error code, an encoding failure or an open socket; responses and pushes arrive decoded. Encoding is taken not to throw, except for the handshake.
- Engine: each handler reads the clock once; request numbers and sequence numbers do not wrap at 2^64.
- Engine: cancelled timers do not run; timers otherwise run at any later time. A stale timer of an earlier connection is the same event.
- Engine: delivery semantics are an input of Subscribe instead of a lookup in the robot info of the last handshake; they are fixed at that moment, as in the code.
- Engine: the checks user calls make before they are posted (Ready, dispatcher thread, rate limit) are left out; only calls that reach the control thread are counted. They would add easy members.
- Engine: histograms, counters of bytes and errors, last error, log lines, reason texts and the diagnostics snapshot, which no handler branches on.
- Stream: payload decoding and the user callbacks themselves; a frame counts as delivered when it is handed to the callback or the dispatcher.
- Delivery: one subscription's view at a time; the mode is the same for all notes of a subscription, as it is in the code.
- Backoff, RateLimiter: reals instead of floating point, integer ticks instead of clock types; the random draw is any number in [0, 1).
- Backoff: the delay's place in the retry timer; the engine lets the timer fire at any time.
- Dispatcher, WriteQueue: mutexes, condition variables and thread joins; posts after the loops have ended.
- WriteQueue: the read side, ping frames, and the connection attempt.
- Json: number formatting and the layout of the diagnostics document.
- Option validation, except that a queue has room for at least one frame; certificate conversion, name tables and the Robot forwarding wrappers: easy members only.
- Server behaviour: pushes, acknowledgements and responses are arbitrary.
