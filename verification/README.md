# The control-channel client: a model and its proofs

The control channel is a client of a small message protocol over a websocket. Its
`Session` is shared by three threads: the caller inside `Join`, the io thread that handles
inbound messages and dispatched lambdas, and the heartbeat controller. They communicate
through three single-assignment promises (`joined_`, `leaved_`, `pong_received_`), a session
id that gates sending, and a transport that can come and go.

| module | what it holds |
|---|---|
| Faults, JsonValues, Promises | exceptions, JSON values and their conversions, write-once promises |
| SessionModel | the session as a labelled step system: `Do`, `Step`, `Exec`, `Run`, `Tally` |
| SessionMoves | what each step may change, the relation the invariants are proved against |
| SessionSafety | lifecycle, heartbeat bookkeeping, who resolves `leaved_`, wire log |
| ProcessEnd | exactly which steps end the process |
| SessionTiming | timed runs: dead-peer bound, what `Join` returns, when `Listen` ends |
| Progress | timed runs go on: what must happen in time does happen; a Leave under a running heartbeat |
| RefusedPings | what becomes of the process after a PING the transport refuses |
| Punctuality | how early the heartbeat may act: PINGs keep their distance, a peer that answers in time is never declared dead |
| MessageLaws | what one inbound message does, on its elements and the protocol's numbers |
| WireContents | what is on the wire, message by message, and how much of it |
| CallReplies | the replies on the wire against the calls received |
| PromiseDiscipline | orderly runs never write a promise twice |
| SessionWitnesses, PunctualWitness, FailureWitnesses | concrete runs: sharp bounds, hypotheses that are met, failures that are reached |
| TransportModel | `open_`, `done_`, `connected_`, the queued connections and the client thread of the transport |
| Attachment | the two-way pointers between sessions and transports |
| Protocol | the typed codec of protocol.hpp and protocol_details.hpp |
| Messages, ControlChannel | the mutable objects, each method tied to a step of the models |
| EndToEnd | session and codec on the same wire |
| Spike | the state-machine spike with its two threads |

A schedule is a sequence of labels; `Exec` gives the state it reaches and `Run` says that
every label was enabled. A theorem about all `Run`s covers every interleaving. Counts such
as "accepted PONGs" are tallies over the schedule, not variables of the model.
`ControlChannel.Session.Drive` and `Spike.WebsocketEndpoint.Interleave` run the objects
under any schedule and end in the state `Exec` (or `After`) gives, so the theorems hold of
the objects; along such a run the attached transport has handed over exactly the messages the
session logged since it was attached.

## Assumptions

- One io thread. Inbound messages and dispatched lambdas are atomic on it; a lambda is
  queued because `asio::dispatch` is called from another thread. Caller and heartbeat steps
  fall anywhere between them.
- The io thread is the client thread, a `std::thread` over `client_t::run`
  (include/barbarossa/websocket_transport.ipp:200), and nothing in its function catches: an
  exception that escapes a message, a payload or a dispatched lambda ends the process, and so
  does one that escapes the heartbeat thread or an assignment to a joinable `std::thread`.
  `EndsProcess` names all of these steps. The state after an exception on the client thread
  holds the partial effects of the step, and schedules may go on from it, as they would under
  a caller that catches; theorems over all runs then cover both. `crashed` marks the ends
  after which no schedule goes on.
- A Leave comes from any thread; src/main.cpp:88-92 calls it from a signal handler on the io
  context, that is on the client thread. Whether `client_.close` reports an error is a
  parameter of the step, and `StopClient` being `noexcept`, such an error and a failing join
  terminate the process.
- `wait_for` does not report a timeout early. A spurious wakeup of the condition variable is
  a label of its own (`WakesSpuriously`); `TimedRun` excludes it.
- `TimedRun`: the clock advances only while every thread is blocked and no dispatched lambda
  is waiting, and never past a pending timeout.
- Registered functions return a value or throw. The websocket reports success or an error
  for each send; both are parameters of the step.
- The transport's callbacks come in any order; an open or fail callback needs a queued
  connection and a close callback a live one. Where a theorem needs the client thread to end
  only after a close or fail callback it says so (`ThreadOutlivesConnection`). The io context
  belongs to the application: src/main.cpp:91-132 stops it on a signal or an error and runs
  it once more when the session is over. `Caused` says of a history that every callback has
  a thread to run on.
- JSON integers are unbounded in the model and are reduced to 32 bits where the client
  converts them; a floating value outside the target type is `Undefined`, as in C++.

## Where code and documentation disagree

The model follows the code.

- `PongMessage` writes tag 4 although 5 is declared (include/barbarossa/protocol.hpp:390-393),
  so the session rejects it as a PING, which ends the process (`EndToEnd.CodecPongEndsProcess`).
- The flow described at include/barbarossa/session.ipp:20-25 promises a ProtocolError for
  other messages and a NetworkError for transport problems. ERROR, PUBLISH, PUBLISHED and
  unknown types are ignored, and a failed HELLO reaches Join as a plain `std::exception`.
- The destructor's comment (include/barbarossa/websocket_transport.ipp:33-35) wants to join
  the thread of a connection the server closed; the code joins only while `done_` is unset,
  see `TransportModel.ServerCloseLeavesThread`.

## Properties that fail, and exactly when

- The heartbeat can die silently: in a surviving run exactly when a spurious wakeup stopped it
  and nobody offered `leaved_` an outcome (`SilentDeathExactly`, `SilentDeathWhenWoken`).
- The process can end. A step of the session ends it if and only if it is in one of six
  classes (`ProcessEnd.WhatEndsTheProcess`): a rejection on the client thread (`Rejects`:
  unreadable payloads and fields, message types the session does not take, calls it cannot
  answer, a ping without a session id), a second write of a promise (`Collides`), a WELCOME
  with a heartbeat thread present (`ReplacesThread`), a Leave without a transport
  (`LeavesNoTransport`), a Leave on the client thread whose transport is not open
  (`LeavesClosed`), a Leave that has to stop the client and cannot, because the websocket does
  not close or the thread is the client thread itself or was joined before (`CannotStop`).
  Each is reached: `RejectedHello`, `DuplicatePong`, `LatePong`, `LeaveAgain`,
  `SecondWelcome`, `LeaveWithoutTransport`, `LeaveTooEarly`, `LeaveOnClientThread`.
- An event of the transport ends the process if and only if a callback signals `connected_` a
  second time or a Disconnect cannot stop the client
  (`TransportModel.WhatEndsTheProcess`). So a transport outlives one answer, open or fail, and
  no more (`LaterAnswersEndTheProcess`, `OneAnswer`): every answered retry of a failed or
  finished connection is fatal (`RetryIsFatal`, `RetryAfterFailure`).
- Leave does not stop the heartbeat: with `leaved_` resolved and no further PONG the process
  crashes within 44 s (`LeavingStartsTheClock`, `LeavingCrashes`, `LeaveThenSilence`).
- A PING the transport refuses ends the process, in every timed run. At once, on the client thread, unless both
  `pong_received_` and `leaved_` were unwritten (`RefusalEffect`); and after a refusal over an
  empty `pong_received_` the process is never more than 20 s from a crash (`RefusedPingBound`)
  that every surviving run still has ahead of it (`RefusedPingCrashes`, `RefusedPingRun`).
  Only were the exception caught, a controller whose promise held true before it timed out
  would complete its cycle, and no other (`RefusedPingSurvived`, `RefusedOverTrue`).
- A silent peer goes unnoticed for up to 44 s, not 24 s, when its last PONG came outside a
  wait window (`DeadPeerBound`, `DeadPeerBoundIsSharp`, `DeadPeerBoundInWindow`).
- A transport can be connected twice: exactly when a Disconnect came back and an open callback
  ran after it, both with `done_` unset (`ConnectedTwiceExactly`). The application has to stop,
  restart and run the io context itself (`ConnectedTwice`), and that open callback throws out
  of its `run` (`ReopeningThrows`), which src/main.cpp:132 does not catch; while the process
  survives, no transport is connected twice (`ConnectedOnceWhileSurviving`).
- A transport whose connection is done can be brought to a safe destruction if and only if a
  Disconnect began before the close or fail callback (`SafeDestructionExactly`); after a plain
  server close it cannot (`ServerCloses`).
- A transport's handler need not hold the transport: this breaks exactly at an `Attach` whose
  `OnAttach` throws (`MutualUnlessHalfAttached`, `TwoTransports`).
- Encoding is not injective: exactly a Ping and a Pong with the same details collide
  (`EncodingCollides`).
- The spike's Handler can miss the end of a connection, exactly by writing Greeted on a stale
  read (`OutOfDisconnected`, `MissedDisconnect`). If nothing more comes from the connection it
  then leaves if and only if the HELLO was reported undelivered, and otherwise polls for ever
  (`PollsForeverExactly`, `PollsForever`, `UndeliveredHello`).

## Model

| member | source | states |
|---|---|---|
| SessionSafety.HeartbeatInvRun | include/barbarossa/session.ipp:277-346 | in every non-crashed run the controller's control point fixes the state of the pong promise: its future is taken exactly from the wait to the reset, true is held while resetting, false while failing or expired, and an expired controller has reported TimeoutError |
| SessionSafety.GetNeverSeesAnException | include/barbarossa/session.ipp:330-339 | pong_received_ is only ever given values, so the NetworkError handler around get() is unreachable |
| SessionSafety.StoppedExactlyWhenWoken | include/barbarossa/session.ipp:286-292 | the controller left its loop at the sleep if and only if the run contains a spurious wakeup |
| SessionSafety.UnresolvedExactly | include/barbarossa/session.ipp:98-342 | leaved_ is unresolved if and only if no empty message, Leave, refused ping over an empty promise or timeout report occurred, a tally that never looks at leaved_ |
| SessionSafety.LeavedHoldsFirstOutcome | include/barbarossa/session.ipp:98-342 | leaved_ always holds the first outcome of the run, as decided by a definition that never looks at leaved_: ProtocolError for an empty message, true for a Leave, NetworkError for a refused ping, TimeoutError for the controller's report |
| SessionSafety.SilentDeathExactly | include/barbarossa/session.ipp:281-343 | a surviving controller that timed out has reported TimeoutError; one has left its loop with leaved_ unresolved if and only if it was woken and nobody offered leaved_ an outcome |
| SessionWitnesses.SilentDeathWhenWoken | include/barbarossa/session.ipp:286-292 | a spurious wakeup does end the controller with leaved_ unresolved |
| SessionSafety.LeavedResolvedElsewhere | include/barbarossa/session.ipp:306-335 | once anyone else resolved leaved_, it keeps that outcome and the controller never leaves through its timeout branch in a surviving process |
| ProcessEnd.WhatEndsTheProcess | include/barbarossa/session.ipp:98-342 | at every point of every run a step ends the process if and only if a condition on message, phase, link, registry, promises and thread holds: rejected on the client thread, written over a written promise, a second heartbeat thread, or a Leave without transport, on the client thread with a closed one, or with a client it cannot stop |
| FailureWitnesses.RejectedHello | include/barbarossa/session.ipp:149-151 | a HELLO received by a session attached to an open transport ends the process |
| FailureWitnesses.LeaveWithoutTransport | include/barbarossa/session.ipp:98-104 | Leave before any attach ends the process |
| FailureWitnesses.LeaveOnClientThread | include/barbarossa/websocket_transport.ipp:253-273 | Leave on the client thread of a joined session terminates in the join, in a timed run |
| FailureWitnesses.LeaveAgain | include/barbarossa/session.ipp:98-104 | a second Leave, on the client thread, ends the process at its write of leaved_ |
| FailureWitnesses.LeaveTooEarly | include/barbarossa/session.ipp:98-104 | Leave on the client thread before the transport is open ends the process |
| FailureWitnesses.SecondWelcome | include/barbarossa/session.ipp:208-222 | a second Join answered by a second WELCOME ends the process, in a timed run |
| FailureWitnesses.DuplicatePong | include/barbarossa/session.ipp:236-239 | two PONGs within one cycle end the process on the client thread |
| FailureWitnesses.LatePong | include/barbarossa/session.ipp:317-327 | a PONG between the end of the wait and the write of false ends the process on the heartbeat thread |
| SessionSafety.ListenReportsLeaved | include/barbarossa/session.ipp:119-122 | a Listen that ended returned the value leaved_ holds or threw its exception, for good, or threw future_already_retrieved |
| SessionSafety.ListenAgreement | include/barbarossa/session.ipp:119-122 | a waiting Listen that comes back returns normally if the first outcome of the run is a value and throws exactly that outcome if it is an exception |
| SessionSafety.JoinThrowsItsResult | include/barbarossa/session.ipp:87-96 | the call of Join throws what it finishes with, and returns normally otherwise |
| SessionSafety.CreditConservation | include/barbarossa/session.ipp:236-342 | accepted PONGs equal completed cycles plus the one held, dispatched PINGs equal completed cycles plus the one in flight, so they differ by at most one, unsolicited and late PONGs included |
| SessionSafety.PhaseChanges | include/barbarossa/session.ipp:182-226 | every Join leads to ESTABLISHING, every WELCOME consumed there to ESTABLISHED, no other step changes the state: CLOSED never again, CLOSING never |
| SessionSafety.OneHeartbeat | include/barbarossa/session.ipp:208-226 | a surviving run consumes one WELCOME exactly when the heartbeat has started, a second one crashes, and the session id changes at most once |
| SessionSafety.OneJoinWaits | include/barbarossa/session.ipp:49-96 | of any number of Joins one waits; every later one throws future_already_retrieved |
| SessionSafety.WireShape | include/barbarossa/session.ipp:193-275 | in every run the wire log is HELLO* (PING or RESULT or ERROR)*, and HELLO* while the id is zero |
| SessionSafety.SessionMessagesFollowWelcome | include/barbarossa/session.ipp:193-226 | every message other than HELLO was sent after a consumed WELCOME with a non-zero id |
| SessionTiming.DeadPeerBound | include/barbarossa/session.ipp:277-346 | with a running heartbeat and no accepted PONG, leaved_ is resolved within 44 s in every timed run |
| SessionTiming.DeadPeerBoundInWindow | include/barbarossa/session.ipp:298-343 | 24 s suffice when every accepted PONG arrived inside a wait window |
| Punctuality.PingsKeepDistance | include/barbarossa/session.ipp:286-302 | in every run two PINGs are dispatched at least 20 s apart, and the first at least 20 s after the WELCOME |
| Punctuality.NextPing | include/barbarossa/session.ipp:281-343 | in a timed run the next PING follows 20 to 24 s after the last |
| Punctuality.WaitLasts | include/barbarossa/session.ipp:322-328 | in every run the wait for a PONG times out 4 s after it began and not earlier |
| Punctuality.LivePeerIsNeverDeclaredDead | include/barbarossa/session.ipp:277-346 | in a timed run whose transport takes every PING and whose peer answers each in less than 4 s, the controller never times out, never stores false, never reports TimeoutError and never ends the process |
| PunctualWitness.PunctualCycle | include/barbarossa/session.ipp:277-343 | such a run exists: its PING is answered, the cycle completes and the next sleep ends |
| SessionWitnesses.DeadPeerBoundIsSharp | include/barbarossa/session.ipp:281-342 | a run with 44 s of silence and leaved_ unresolved |
| SessionTiming.ListenEndsAfterSilence | include/barbarossa/session.ipp:119-122 | a Listen that was waiting when the last PONG was accepted has ended 44 s later |
| Progress.TimeGoesOn | include/barbarossa/session.ipp:49-346 | every surviving timed run has a timed continuation, by the client's own threads alone, that reaches any later time or crashes before it |
| Progress.SilenceIsNoticed | include/barbarossa/session.ipp:277-346 | if the peer falls silent under a running heartbeat, every surviving timed run goes on to a crash or to a resolved leaved_ and an ended Listen, at any time past 44 s |
| Progress.LeavingStartsTheClock | include/barbarossa/session.ipp:98-105 | with leaved_ resolved under a running heartbeat and no further accepted PONG, no timed run survives more than 44 s |
| Progress.LeavingCrashes | include/barbarossa/session.ipp:98-105 | and from every such run the client alone goes on to a crash within these 44 s |
| FailureWitnesses.LeaveThenSilence | include/barbarossa/session.ipp:98-105 | a run that joins, leaves from another thread and crashes within 44 s |
| RefusedPings.RefusalEffect | include/barbarossa/session.ipp:300-313 | a PING the transport refuses stores false and leaves leaved_ resolved over an empty promise, changes neither promise over a full one, and ends the process at once if and only if pong_received_ or leaved_ was already written |
| RefusedPings.RefusedPingBound | include/barbarossa/session.ipp:300-338 | at every point of a timed run after a ping refused over an empty promise, the run has crashed or is still heading for the second write of leaved_ and is not past 20 s |
| RefusedPings.RefusedPingCrashes | include/barbarossa/session.ipp:300-338 | every such run that survives goes on, by the client's own threads alone, to a crash within 20 s of the refusal |
| RefusedPings.RefusedPingSurvived | include/barbarossa/session.ipp:300-342 | after any refused ping some timed continuation completes the heartbeat cycle if and only if the promise held true before the wait timed out |
| FailureWitnesses.RefusedPingRun | include/barbarossa/session.ipp:300-338 | a timed run from the start through a refused ping to its crash |
| FailureWitnesses.RefusedOverTrue | include/barbarossa/session.ipp:300-313 | a timed run whose refused ping finds the promise true: the lambda throws, and the controller could complete its cycle |
| SessionTiming.JoinedHoldsFirstAnswer | include/barbarossa/session.ipp:64-85 | joined_ always holds the first answer of the run, as decided by a definition that never looks at joined_ |
| SessionTiming.JoinAgreement | include/barbarossa/session.ipp:87-96 | Join returns or throws the first answer if there is one; otherwise TimeoutError, exactly 16 s after it began to wait, and only if nothing answered before |
| SessionTiming.EarlyAnswerIsNotMissed | include/barbarossa/session.ipp:87-95 | once answered, the clock does not move until the waiting Join has finished |
| SessionTiming.EstablishedForGood | include/barbarossa/session.ipp:208-226 | in a one-Join run, after Join returned n the state stays ESTABLISHED with id n through every later step |
| CallReplies.RegistryIsLatest | include/barbarossa/session.ipp:124-127 | operations_ holds the latest registration of every name |
| CallReplies.RepliesMatchCalls | include/barbarossa/session.ipp:241-275 | the RESULT and ERROR messages on the wire are the in-order replies owed to the well-formed CALLs received while attached, connected and joined: one each, from the latest registered function, or ERR_NO_SUCH_OPERATION |
| CallReplies.ReplyKeepsRequestId | include/barbarossa/session.ipp:244-270 | a reply carries the request id of its call if and only if that id is an int32 |
| MessageLaws.CallReads | include/barbarossa/session.ipp:244-246 | a CALL is read if and only if it has four elements, a number second and a string third; its arguments are the fourth element |
| MessageLaws.CallIsAnswered | include/barbarossa/session.ipp:250-261 | a CALL [10, id, name, arguments] of a registered function puts exactly [11, id, result] on the wire, the result being that of the function on these arguments, or throws what the function throws |
| MessageLaws.UnknownCallIsRefused | include/barbarossa/session.ipp:262-273 | a CALL of an unknown name puts exactly [9, 10, id, ERR_NO_SUCH_OPERATION, {}] on the wire |
| MessageLaws.CallCannotBeAnswered | include/barbarossa/session.ipp:193-206 | with no transport, a closed one, no session or a failed send, the error of the first that is missing is thrown and nothing changes |
| MessageLaws.WelcomeEstablishes | include/barbarossa/session.ipp:208-226 | a first [2, id] establishes the session under that id, starts the sleep and answers Join |
| MessageLaws.AbortAnswersJoin | include/barbarossa/session.ipp:228-234 | [3, reason] fails joined_ with that reason, in any phase, once |
| MessageLaws.PongFulfils | include/barbarossa/session.ipp:236-239 | [5] gives true to pong_received_, once |
| MessageLaws.OtherTypes | include/barbarossa/session.ipp:147-180 | of all other types 1, 4 and 11 are rejected and every other passes without a trace |
| MessageLaws.TruncatesTowardsZero | include/barbarossa/message.ipp:38-45 | a floating value converts to the integer towards zero |
| MessageLaws.ConvertsToInt32 | include/barbarossa/message.ipp:38-45 | which values convert to int32 and uint32, and to what modulo 2^32 |
| WireContents.WireIsWritten | include/barbarossa/session.ipp:52-85 | in every run each message on the wire is [1, realm] with the realm of some Join, [4, {}], or a reply |
| WireContents.EveryTaskIsSentOnce | include/barbarossa/session.ipp:64-85 | HELLOs and PINGs on the wire equal the tasks run while the link took them, and tasks run or queued equal the tasks dispatched |
| WireContents.NothingSentWhileDown | include/barbarossa/session.ipp:193-206 | the wire grows only over a link that is open and not done, in a task or a message, when the websocket takes it |
| PromiseDiscipline.NoPromiseWrittenTwice | include/barbarossa/session.ipp:49-342 | with one Join, a connection that stays up, one answer to HELLO, PONGs that each answer an unanswered PING, and as many PONGs as PINGs when a wait ends, no interleaving writes a promise twice |
| PromiseDiscipline.OrderlyNeverFails | include/barbarossa/session.ipp:49-342 | in such a run nothing crashes and leaved_ stays unresolved |
| PromiseDiscipline.OrderlyEndsExactly | include/barbarossa/session.ipp:137-275 | in such a run a step ends the process if and only if it is a rejection, never for a promise or a thread |
| SessionWitnesses.OrderlyCycle | include/barbarossa/session.ipp:277-343 | such a run exists and completes a heartbeat cycle |
| TransportModel.ConnectedOnce | include/barbarossa/websocket_transport.ipp:44-86 | over any calls and callbacks IsConnected is false, then true, then false for good, if the client thread outlives the connection |
| TransportModel.ConnectedTwiceExactly | include/barbarossa/websocket_transport.ipp:44-86 | over every history a transport is connected, not connected and connected again if and only if a Disconnect returned and an open callback followed, both with done_ unset |
| TransportModel.ConnectedTwice | include/barbarossa/websocket_transport.ipp:44-64 | a run with two Connects, the second of which queues its connection and throws, that connects one transport twice; every callback in it has a thread to run on, and the last one ends the process |
| TransportModel.ReopeningThrows | include/barbarossa/websocket_transport.ipp:206-212 | in every history the open callback that connects a transport again throws promise_already_satisfied |
| TransportModel.ConnectedOnceWhileSurviving | include/barbarossa/websocket_transport.ipp:44-86 | over any calls and callbacks that do not end the process no transport is connected twice |
| TransportModel.WhatEndsTheProcess | include/barbarossa/websocket_transport.ipp:73-80 | an event ends the process if and only if connected_ is written and it is an open callback, or a fail callback with open_ unset, or it is a Disconnect on the client thread of a transport that is not open, or one that has to stop the client and cannot |
| TransportModel.LaterAnswersEndTheProcess | include/barbarossa/websocket_transport.ipp:206-238 | in every surviving history an open or fail callback ends the process if and only if one came before it |
| TransportModel.OneAnswer | include/barbarossa/websocket_transport.ipp:206-238 | a surviving history contains at most one open or fail callback |
| TransportModel.RetryIsFatal | include/barbarossa/websocket_transport.ipp:56-69 | a Connect that queues a connection after an earlier one took the future throws, and whatever answers after it ends the process |
| TransportModel.RetryAfterFailure | include/barbarossa/websocket_transport.ipp:223-238 | the run of a failed connection tried again |
| TransportModel.ConnectAgreement | include/barbarossa/websocket_transport.ipp:57-69 | one Connect ever waits, and it returns normally exactly when the first open or fail callback was an open |
| TransportModel.ConnectOutcome | include/barbarossa/websocket_transport.ipp:44-64 | logic_error when open, system_error when initialisation fails, future_already_retrieved when an earlier Connect waited, otherwise it waits |
| TransportModel.ConnectionsAreConserved | include/barbarossa/websocket_transport.ipp:44-238 | queued connections are pending or answered, opened ones live or closed, in every history |
| TransportModel.FlagsFollowEvents | include/barbarossa/websocket_transport.ipp:206-273 | open_ is set exactly when an open callback came after every returned Disconnect, done_ exactly when a close or a fail callback that did not throw occurred |
| TransportModel.DisconnectDisconnects | include/barbarossa/websocket_transport.ipp:73-80 | a Disconnect that comes back leaves the transport not connected, one that throws found it so and changes nothing |
| TransportModel.ServerCloseLeavesThread | include/barbarossa/websocket_transport.ipp:32-41 | a connection ended before Disconnect began leaves a joinable thread for ever, so destruction terminates |
| TransportModel.SafeDestructionExactly | include/barbarossa/websocket_transport.ipp:32-41 | once done, some continuation reaches a safe destruction if and only if a Disconnect is waiting for the thread or has joined it |
| TransportModel.ServerCloses | include/barbarossa/websocket_transport.ipp:215-220 | Connect, open, return and a server close lead to a transport that cannot be destroyed |
| Attachment.AlwaysBacked | include/barbarossa/websocket_transport.ipp:106-128 | after any sequence of Attach and Detach, throwing ones included, the handler of a session's transport is that session |
| Attachment.NoSharedTransport | include/barbarossa/websocket_transport.ipp:106-128 | no transport is held by two sessions |
| Attachment.MutualUnlessHalfAttached | include/barbarossa/websocket_transport.ipp:110-115 | from agreeing pointers a command keeps them agreeing if and only if it is not an attach that throws after storing the handler |
| Attachment.MutualRun | include/barbarossa/websocket_transport.ipp:106-128 | without such attaches both pointers agree after every command |
| Attachment.AttachStores | include/barbarossa/websocket_transport.ipp:106-116 | an attach succeeds exactly when both are free, makes them point at each other and touches nobody else |
| Attachment.DetachResets | include/barbarossa/websocket_transport.ipp:119-128 | a detach succeeds exactly when the transport has a handler that has a transport, takes away exactly these two pointers, and otherwise changes nothing |
| Attachment.DetachUndoesAttach | include/barbarossa/websocket_transport.ipp:106-128 | attach then detach restores every pointer, and the pair can be attached again |
| Attachment.DetachFrees | include/barbarossa/websocket_transport.ipp:119-128 | as long as no attach stopped half-way, every attached transport can be detached, and it and its session are free afterwards |
| Attachment.TwoTransports | include/barbarossa/websocket_transport.ipp:106-116 | one session attached to two transports leaves both handlers and one transport pointer |
| Attachment.StrandedTransport | include/barbarossa/websocket_transport.ipp:119-128 | a transport whose handler has no transport can be neither attached nor detached |
| Attachment.DetachingHalfAttached | include/barbarossa/session.ipp:129-135 | detaching a half-attached transport takes the session's other transport away and strands it |
| Protocol.ToJson | include/barbarossa/protocol.hpp:103-107 | every to_json appends exactly the encoding of its message |
| Protocol.CodecRoundTrip | include/barbarossa/protocol.hpp:485-503 | from_json after to_json gives the message with null details replaced by {}, and that form round-trips unchanged |
| Protocol.DecodedIsStable | include/barbarossa/protocol.hpp:109-117 | whatever decodes has non-null details and re-encodes to something that decodes to the same message |
| Protocol.DecodeReads | include/barbarossa/protocol.hpp:109-117 | from_json needs as many elements as to_json pushes and ignores the tag and whatever follows them |
| Protocol.EncodingCollides | include/barbarossa/protocol.hpp:324-393 | two messages have the same encoding if and only if they are equal or a Ping and a Pong with the same details |
| Protocol.Discriminated | include/barbarossa/protocol.hpp:20-45 | the encoded tag is the declared one for every kind but Pong, which carries PING |
| Protocol.DetailsToJson | include/barbarossa/protocol_details.hpp:63-68 | adds the four members and keeps all others |
| Protocol.NestedDetailsRoundTrip | include/barbarossa/protocol_details.hpp:63-75 | details survive both levels of encoding, also when merged over other members |
| Messages.Message.constructor | include/barbarossa/message.ipp:14 | n null fields |
| Messages.Message.Move | include/barbarossa/message.ipp:18 | the new message takes the fields, the old one is left with none |
| Messages.Message.Assign | include/barbarossa/message.ipp:20-28 | move assignment; self-assignment changes nothing |
| Messages.Message.GetField | include/barbarossa/message.ipp:30-36 | the field at an index, or out_of_range |
| Messages.Message.SetField | include/barbarossa/message.ipp:47-54 | changes exactly one field, or throws out_of_range and changes none |
| Messages.ToArray | include/barbarossa/websocket_transport.ipp:89-93 | the array has the message's fields in order |
| Messages.FromArray | include/barbarossa/websocket_transport.ipp:298-302 | the message has the array's elements in order and no SetField is out of range |
| Messages.RoundTrip | include/barbarossa/websocket_transport.ipp:89-93 | sent and received again, every message has the same fields |
| Messages.ArrayRoundTrip | include/barbarossa/websocket_transport.ipp:291-304 | received and sent again, every array is the same |
| ControlChannel.Transport.Connect | include/barbarossa/websocket_transport.ipp:44-64 | Connect up to the wait: throws when open and when initialisation fails; when the future was taken before it throws with the connection already queued |
| ControlChannel.Transport.StopClient | include/barbarossa/websocket_transport.ipp:253-273 | returns at once when done; terminates when the websocket does not close or the thread cannot be joined by its caller; otherwise begins to wait |
| ControlChannel.Transport.OnClientFail | include/barbarossa/websocket_transport.ipp:223-238 | signals connected_ only before the connection was open, and then sets done_ |
| ControlChannel.Transport.SendMessage | include/barbarossa/websocket_transport.ipp:89-103 | hands over the message's fields, or throws NetworkError |
| ControlChannel.Transport.RecvMessage | include/barbarossa/websocket_transport.ipp:279-305 | gives the handler exactly the array's elements; a text that does not parse throws, values that are not arrays and everything without a handler are dropped; what the handler sends in answer reaches its transport |
| ControlChannel.Transport.Attach | include/barbarossa/websocket_transport.ipp:106-116 | performs the attach step of the link model on the real pointers |
| ControlChannel.Transport.Detach | include/barbarossa/websocket_transport.ipp:119-128 | performs the detach step of the link model on the real pointers |
| ControlChannel.ManageLinks | include/barbarossa/websocket_transport.ipp:106-128 | any sequence of commands on any objects ends in the state the link model computes |
| ControlChannel.Session.SendMessage | include/barbarossa/session.ipp:193-206 | hands exactly the message to the transport, or throws for a missing or closed transport, a missing session, a failed send, in this order, and hands over nothing |
| ControlChannel.Session.OnMessage | include/barbarossa/session.ipp:137-180 | dispatches on the message type, the whole new state and outcome |
| ControlChannel.Session.ProcessWelcomeMessage | include/barbarossa/session.ipp:208-226 | state and heartbeat are set before field 1 is read, the whole new state and outcome |
| ControlChannel.Session.ProcessCallMessage | include/barbarossa/session.ipp:241-275 | result, error or exception of a CALL, the whole new state and outcome |
| ControlChannel.Session.RunPing | include/barbarossa/session.ipp:300-313 | the lambda the heartbeat dispatches: a NetworkError or one of its subclasses gives false to pong_received_ and, sliced to NetworkError, an outcome to leaved_ |
| ControlChannel.Session.MoveCaller | include/barbarossa/session.ipp:64-95 | the later control points of Join |
| ControlChannel.Session.Leave | include/barbarossa/session.ipp:98-105 | resolves leaved_, and then the transport does and throws what its Disconnect does and throws; undefined without a transport, termination where Disconnect terminates |
| ControlChannel.Session.MoveHeartbeat | include/barbarossa/session.ipp:281-343 | one control point of HearbeatController |
| ControlChannel.Session.Drive | include/barbarossa/session.ipp:31-346 | under every schedule the session object reaches the state the step system computes, and the attached transport has sent exactly what the session logged since it was attached |
| EndToEnd.SendNoSuchOperation | include/barbarossa/session.ipp:266-273 | the ERROR built field by field is the codec's ErrorMessage on the wire and decodes to it, for every request id |
| EndToEnd.SendHeartbeatPing | include/barbarossa/session.ipp:294-296 | the heartbeat's PING is the codec's PingMessage() |
| EndToEnd.SessionHelloLacksDetails | include/barbarossa/protocol.hpp:109-112 | the session's two-field HELLO is out of range for the codec's decoder |
| EndToEnd.WelcomeAcrossCodecs | include/barbarossa/session.ipp:224-225 | a codec WELCOME with signed id n establishes the session with n modulo 2^32 |
| EndToEnd.CodecPongIsRejected | include/barbarossa/protocol.hpp:390-393 | the session rejects the codec's PONG as a PING and changes nothing |
| EndToEnd.CodecPongEndsProcess | include/barbarossa/websocket_transport.ipp:279-305 | in every session that is still running that rejection ends the process |
| EndToEnd.CodecPeerLooksDead | include/barbarossa/protocol.hpp:390-393 | against a peer that writes with the codec, leaved_ is resolved within 24 s whenever the heartbeat runs, should the process outlive its PONGs or get none |
| Spike.HellosBoundedByOpens | spikes/statemachine/websocket.hpp:192-197 | HELLO attempts never exceed open callbacks |
| Spike.RegisteredByWelcome | spikes/statemachine/websocket.hpp:140-156 | Registered is entered only from Greeted, after a HELLO attempt and after a message arrived that carries the type WELCOME and decodes |
| Spike.WelcomeRegisters | spikes/statemachine/websocket.hpp:140-156 | a message read in Greeted leads to Registered if and only if it is a WELCOME that decodes, wherever the Handler's steps fall |
| Spike.EscapesExactly | spikes/statemachine/websocket.hpp:140-171 | an exception ends the websocket thread exactly at a text that does not parse, and at a type, WELCOME or ABORT read in Greeted that cannot be read |
| Spike.LeavesExactly | spikes/statemachine/websocket.hpp:188-228 | Handler leaves its loop exactly at a poll of Disconnected and after a HELLO or PING whose sending failed |
| Spike.PollThenHelloThenGreeted | spikes/statemachine/websocket.hpp:192-197 | a poll of Connected is followed by one HELLO attempt and the write of Greeted, whatever the callbacks do meanwhile |
| Spike.StateIsLastWrite | spikes/statemachine/websocket.hpp:116-138 | open, close and fail callbacks, the Handler's Greeted and the WELCOME's Registered write the state, and nothing else does |
| Spike.OutOfDisconnected | spikes/statemachine/websocket.hpp:116-138 | without a new open, the only way out of Disconnected is the Handler's stale write of Greeted |
| Spike.StaysDisconnected | spikes/statemachine/websocket.hpp:208-212 | a Handler without a stale read finds Disconnected at every later poll |
| Spike.EndIsNoticed | spikes/statemachine/websocket.hpp:208-226 | and its next step leaves the loop, unless that step sends the PING it was about to send |
| Spike.MissedDisconnect | spikes/statemachine/websocket.hpp:186-215 | with a stale read the state is Disconnected until that write and never after, and the Handler never takes its Disconnected branch |
| Spike.PollsForeverExactly | spikes/statemachine/websocket.hpp:186-228 | after a connection ended under a stale read, with nothing more coming from it, the Handler writes Greeted and then has left if and only if the HELLO was reported undelivered; otherwise it polls Greeted at every later point |
| Spike.PollsForever | spikes/statemachine/websocket.hpp:186-228 | for every n a run from the start, with HELLO sent before the connection ends, in which Handler has polled n times after it and not left |
| Spike.UndeliveredHello | spikes/statemachine/websocket.hpp:216-221 | the run with HELLO sent after the connection ended and reported undelivered: Handler leaves |
| Spike.PingCadence | spikes/statemachine/websocket.hpp:198-207 | after n polls that observed Registered, n / 31 pings were attempted and timeout is n % 31, in every interleaving |
| Spike.WebsocketEndpoint.MoveCallback | spikes/statemachine/websocket.hpp:149-171 | the read of the state and the write of Registered, two steps of OnMessage; what reading the message throws escapes |
| Spike.WebsocketEndpoint.Handler | spikes/statemachine/websocket.hpp:181-229 | the loop's HELLOs, pings and counter as functions of the states observed; it stops exactly at the first iteration that observes Disconnected or sends a HELLO or a PING that is not delivered |
| Spike.WebsocketEndpoint.Interleave | spikes/statemachine/websocket.hpp:116-229 | the endpoint object reaches the state the step system computes, under every interleaving |

## Left out

- MoveHeartbeat: the `while (true)` loop of HearbeatController is taken apart at its control
  points, because the io thread runs between them; `Drive` puts the points back in sequence.
- RecvMessage: parsing and printing JSON text is nlohmann code that is not part of this model;
  a payload is the value its text parses to, or none. Binary frames, which are dropped, do not
  occur.
- Decode: a from_json that throws half-way leaves a partly assigned target, which its only
  caller discards; the target is not modelled.
- MoveCallback: an element past the end of an array, and a type outside the enumeration, are
  undefined behaviour when the spike reads a message; they count as exceptions there.
- Session's destructor, which joins the heartbeat thread.
- The transport destructor appears as a condition (`DestructionIsSafe`) and not as a step.
- Threads, sockets, TLS and asio's queue beyond what the assumptions state.
- Constructors and setters of the message classes, logging, error texts, src/main.cpp.
- States that only docs/controlchannel.md names; no code implements them.
