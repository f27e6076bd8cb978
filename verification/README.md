# A model of cercall

cercall is a C++ library for calls to a remote service: a client object sends a function name and
arguments, the service object runs the function, and the result comes back to a closure of the caller.
Messages carry no call ids.  A result finds its closure by the function name alone, which works only because
the client lets one call of a function travel at a time and queues the others, and because the service
refuses a second call while one is pending.  This project models that protocol and proves what it is for.

Everything runs on one thread (README.md:49), so every handler is one atomic step.  User code that is run
from a handler is modelled as further steps.  That loses nothing: `dispatch_result` makes all its changes
before it runs the closure (include/cercall/client.h:378-384), and `dispatch_func` makes none after it calls
the service function (include/cercall/service.h:359-374).

## Layers

- `bytes.dfy`, `codec.dfy`, `serialization.dfy`: bytes, a prefix codec for the values that calls carry,
  results and errors, the messages of calls, results and events, and the dictionary of service functions.
- `messenger.dfy`, `link.dfy`: framing by a 4-byte length, its incremental parser, the class `Messenger`
  with its read loop, and the link of messages that a byte stream becomes.
- `client.dfy`: the class `CallQueue`; `ClientModel`, one function for each thing that can happen to a
  client; `ClientRuns`, what holds in all runs of a client, whatever its service and its network do.
- `service.dfy`: the same for the service, for any type of client identity.
- `interface.dfy`: the functions of one interface: their full names and that of its events, the dictionary
  that the service builds of them, and the way of a call to its function, of a result to its closure and of an
  event to the listeners.
- `incoming.dfy`: what the messages that arrive together do, one after the other, to a client or the service:
  just that many steps of the whole system.
- `endpoints.dfy`: the classes `BasicStreamTransport`, `Client` and `Service`.  Each method is proved to take
  exactly the step of `ClientModel` or `ServiceModel` named in its contract, through all callbacks: a write
  that fails closes the transport, and that comes back to the service as `OnDisconnected`.
- `transport.dfy`: the life cycle of the client's TCP transport, as a state machine with theorems on all its
  runs, and the class `ClientTcpTransport` proved against it.
- `system.dfy`: any number of clients and one service, joined by links; the steps are those of `ClientModel`
  and `ServiceModel`, so that the classes take steps of this system.  `invariant.dfy` proves the invariant
  of all its reachable states; `theorems.dfy`, `faults.dfy`, `drain.dfy` and `events.dfy` hold the results.
- `closures.dfy`: the system with service code that calls any closure it was ever given, any number of times.
- `endings.dfy`: what becomes of the calls of a client whose read ended, by an error or by its own close.
- `liveness.dfy`: which connections are live, which clients read and which the service has, told from the steps.

A call is identified, in the proofs only, by its place in the logs of accepted, served, answered and
completed calls of one client and function.

## What the proofs found

- A receive error that leaves the transport open (EAGAIN, EINTR) fails the calls in flight although the
  service still holds them.  After that the service's "operation in progress" reply can occur
  (`Boundaries.CallInProgressIsReached`).
- A call that is too long for the header is refused at once when it would be written at once, but not when
  it is queued.  When the result of the call before it comes, the exception loses that result: its closure is
  off the map and is not run, the long call stays at the front of its queue with none in flight, and as the
  exception leaves the read loop before the next read, the client is deaf from then on
  (`ClientRuns.LossIsReached`, `Boundaries.ResultLostIsReached`).
- These are the only error branches that a run can take.  Exactly when is `Faults.FaultsExactly`; with receive
  errors that all close the transport, and calls that fit, none is taken (`Faults.NoErrorBranch`).
- A client without a read in progress, by either of the two, never completes a call again, neither those it
  has made nor those it still makes (`Endings.NeverRunsAgain`).  Only a call whose own write fails runs its
  closure, and that write closes the transport.  A newer call goes out before the queued ones
  (`ClientRuns.CallsOvertaken`, `ClientRuns.OvertakingIsReached`).
- Results reach their own calls if and only if no service closure is called while a newer call of its
  function and client is pending (`ServiceClosures.OwnResults`).  `ServiceClosures.StaleIsDelivered` is the
  run of two calls where the second client closure is run with the result of the first service closure.
- When a client closes its own connection, the closures of the calls in flight are left alone, and never
  run, if and only if the close aborts a read in progress.  A close from inside a closure does not: the read
  that is started next, on the closed socket, fails, and runs them all with that error (`Endings.OwnClose`).
- `close()` during an open is lost: the open goes on as if it had not been (`TransportRuns.EarlyClose`).  An
  `open()` during an asynchronous open lets the listener be told of two connections, against the assertion in
  `open()` (`TransportRuns.TwoOpens`); nor does the code keep a closed transport from being opened again, if
  the connect completes with success all the same (`TransportRuns.OpenedAgain`).
- `stop()` does nothing at all unless the acceptor is open (`Endpoints.Service.Stop`).
- transport.h:47 says that the transport is closed after `on_connection_error`.  The code does not close it
  for a recoverable error, and the model follows the code.

## Model

| member | source | states |
|---|---|---|
| SystemTheorems.NameOnlyCorrelation | include/cercall/client.h:178-204 | In every reachable state of any number of clients and a service: while nothing failed on a connection, a function is in `myClosures` iff exactly one token for it exists among requests in transit, pending calls and results in transit, otherwise none does; after failures, while the client reads, there is never a second one |
| SystemTheorems.EndToEnd | include/cercall/client.h:373-388 | In every run, whatever fails: the i-th closure of a function that ran with a result is that of the i-th accepted call, the service ran that call with its arguments, and the result is the i-th that the service gave |
| SystemTheorems.TypedEndToEnd | include/cercall/details/functiondict.h:75-124 | The same through the codec: the service function sees the argument values of the call, and the closure sees the result value of the service closure |
| SystemTheorems.RefinesFifo | include/cercall/service.h:339-403 | Every step of the system, of any client, function or kind, is for each reading client and function a step of one simple queue (accept, serve, answer, complete, all in order) or none |
| SystemTheorems.WireOrder | include/cercall/client.h:190-214 | While a client reads, the calls that the service ran and those in transit are just the messages the client wrote, of all functions together and in the order of writing |
| SystemTheorems.ErrorBranches | include/cercall/service.h:390-393 | If service closures are called at most once, no run reaches "closure not found", "already delivered" or "not found in function dictionary"; a call in progress is refused, and a result lost, only for a client that does not read afterwards; exactly when is `Faults.FaultsExactly` |
| Faults.FaultsExactly | include/cercall/service.h:345-361 | A run takes no error branch iff the service never took up a call of a function and client whose earlier closure it still had to call, and no client got a result in front of a queued call that is too long |
| Faults.RefusedIffHeld | include/cercall/service.h:345-358 | In every reachable state, a call taken up is refused iff the closure of an earlier call of that function and client was not called yet |
| Faults.NoErrorBranch | include/cercall/service.h:351-358 | If every receive error closes and every call fits, no run at all reaches any error branch, whatever else fails |
| Faults.OneRequest | include/cercall/service.h:345-361 | Without a receive error that leaves the transport open, a client has at most one call of a function in transit or pending, and none that is not in flight while it can call, also after it closed, broke or lost a result |
| Boundaries.CallInProgressIsReached | include/cercall/asio/basicstreamtransport.h:148-159 | The run that reaches the refusal of a call in progress through a recoverable receive error, for every function and arguments that fit |
| Boundaries.ResultLostIsReached | include/cercall/client.h:376-384 | The run that loses a result to a queued call that is too long: the closure is not run, and the client stops reading |
| ServiceClosures.OwnResults | include/cercall/service.h:381-403 | In every run in which service code calls any closure it was given, any number of times, and whatever fails: the j-th completed call gets the result of the j-th closure call that was taken; every call gets the result of its own closure iff no closure is called while a newer call of its function and client is pending |
| ServiceClosures.OnceIsOwn | include/cercall/service.h:389-402 | If each closure is called at most once, every call gets the result of its own closure and no closure call is refused |
| ServiceClosures.StaleIsDelivered | include/cercall/service.h:389-402 | The run of two calls in which the first service closure is called twice: the second client closure runs with the first's result, and the call of the second service closure is refused |
| ServiceClosures.Simulated | include/cercall/service.h:364-368 | Every run with closures called in any way is, but for the refused calls, a run of the system, so that all its theorems hold there |
| ServiceClosures.UseIsAnswer | include/cercall/service.h:389-402 | In every state of the invariant a closure call is the answer of the pending call, or is refused without effect |
| Endings.NeverRunsAgain | include/cercall/asio/basicstreamtransport.h:148-159 | From any state in which a client has no read in progress, in all continuations no call is completed with a result or an error, calls in flight and queued stay, and one closure at most is run: that of a call whose own write fails and closes the transport, with the error of that write |
| Endings.OwnClose | include/cercall/asio/basicstreamtransport.h:103-120 | After a client's own close its calls in flight are left alone iff the close aborts a read in progress; otherwise the failing read runs every closure with that error |
| Endings.ReadErrorIsStep | include/cercall/asio/basicstreamtransport.h:148-159 | For every read error, what the receive handler does to a client is a step of the whole system, after which no read is in progress |
| SystemInvariant.Reachable | include/cercall/service.h:301-403 | The invariant of the whole system (settled calls agree in all four logs, one token, plausible links, which faults are possible) in every reachable state, whatever fails |
| SystemInvariant.ResultGood | include/cercall/client.h:373-388 | Delivering a result keeps that invariant for every function, and a result that arrives always finds its closure |
| SystemInvariant.ServeOnTrack | include/cercall/service.h:339-379 | Taking up a call changes just the track of its function and client: request gone, call served and pending, or refused |
| Liveness.LiveExactly | include/cercall/asio/basicstreamtransport.h:85-159 | In every run: a connection is live iff no step harmed it (a write that failed, an exception of the client, a close, a read error, a disconnect, each told from the state it met); a client reads iff no read error and no exception ended its read; the service has a client in its map iff it never disconnected and no result or refusal to it failed to be written |
| Drain.StepDecreases | include/cercall/client.h:373-388 | Every deliver, serve or answer step strictly decreases 4 queued + 3 requests + 2 pending + results (one-way calls and events weighed too), even when its write fails |
| Drain.RestOrStep | include/cercall/service.h:339-403 | A live connection at which no such step is possible is at rest: there is no deadlock before all is done |
| Drain.DrainCompletes | include/cercall/details/callqueue.h:75-80 | From every reachable state, without new calls and failing writes: at most that many steps are possible, and when none is left at a connection that was live, every accepted closure was run once, in the order of acceptance, with the archive of its call's answer, unless a result was lost to a queued call that is too long |
| Events.EventFidelity | include/cercall/service.h:315-326 | In every run: the events of the broadcasts made while the service had the client in its map, told from the steps of the run, are those that the client's listeners were handed followed by those in transit, in order; a client not yet connected got none |
| Events.EventsDoNotMatter | include/cercall/client.h:338-364 | Leaving all events out of a run gives a run with the same calls, results, pending calls and faults |
| ClientRuns.Conservation | include/cercall/client.h:183-203 | In every run of a client, with write failures, connection errors and calls of any length: each acceptance of a closure is in flight, queued, completed with a result, completed with an error or lost, just one of them, and no closure runs twice; something is lost iff a result comes while the call queued behind it is too long |
| ClientRuns.Admission | include/cercall/client.h:183-203 | In every reachable state calls in flight and queued never exceed MaxCallsInProgress, and on an open transport `send_call` throws, changing nothing, iff they have reached it (also for limit 1) or the call would be written at once and is too long; its write fails iff the transport is open, the function not in flight, the call fits and the socket fails, and then it closes the transport, runs the closure of that call with the error of the socket, and nothing else changes |
| ClientRuns.RefusedExactly | include/cercall/client.h:183-191 | In every run the closures that were run at once are those of the calls whose own write failed, in order, each with the error of its own write |
| ClientRuns.OneWayExactly | include/cercall/client.h:209-214 | In every run nothing of a one-way function is in flight or queued, and what was written of it is just the arguments of its calls made on an open transport, that fit and whose write succeeded, in order |
| ClientRuns.Fifo | include/cercall/client.h:378-384 | Re-entrant FIFO: in runs without connection error, calls made at any time, also from closures: acceptance, wire and completion follow one order per function, and a non-empty queue has a call in flight, iff no result came while the call queued behind it was too long |
| ClientRuns.CallsOvertaken | include/cercall/client.h:293-306 | In every run: wire order is acceptance order up to and except exactly when a call is written while others wait with none in flight, which needs a connection error or a lost result before |
| ClientRuns.OvertakingIsReached | include/cercall/client.h:293-306 | The run that overtakes: two calls, a receive error that leaves the transport open, and a third call that is written before the second |
| ClientRuns.LossIsReached | include/cercall/client.h:376-384 | The run that loses a result without any error of the connection, and the third call that then overtakes the second |
| ClientRuns.ConnectionErrorReachesAll | include/cercall/client.h:286-306 | Connection-error dispatch: `myClosures` ends empty, queues are unchanged, every closure in flight ran exactly once more and decodes exactly the error from the one `Result<void>` message, iff the code is not 0 or its type is void |
| ClientRuns.ApplyOnLane | include/cercall/client.h:178-204 | Whatever happens to a client touches the calls of one function only, as the per-function machine says |
| ClientModel.FailAllOf | include/cercall/client.h:300-305 | The loop over the closure map runs each closure once, whatever order the map is walked in |
| ServiceRuns.PendingCalls | include/cercall/service.h:301-312 | Over all interleavings of accept, dispatch, duplicate dispatch, answer and disconnect: at most one entry per function and client, and dispatched calls = pending + answered + failed + dropped |
| ServiceRuns.RefusedExactly | include/cercall/service.h:339-403 | A closure call is refused iff every dispatched call is settled, a call message iff one is not, and a refusal changes no pending call |
| Framing.FramingRoundTrip | include/cercall/details/messenger.h:62-122 | Whatever non-empty payloads are written and however the stream is cut, the handler gets a prefix of them, in order and whole; less than a complete header or message stays unread; all bytes in, all payloads out |
| Framing.AnySegmentation | include/cercall/details/messenger.h:62-105 | Processing the bytes in one call or in any number of calls leaves the same state and the same delivered messages, for every stream, also a malformed one |
| Framing.FrameIsRead | include/cercall/details/messenger.h:113-122 | What the writer's header announces is what the reader takes off the stream |
| Framing.HeaderHolds | include/cercall/details/messenger.h:113-120 | The header announces the length of a message iff it is at most 2^32 - 1 |
| Framing.EmptyMessageEnds | include/cercall/details/messenger.h:68-82 | A message announced as empty is an exception: all messages before it are delivered, and nothing behind it |
| Messenger.Messenger.Read | include/cercall/details/messenger.h:62-105 | The read loop ends, computes exactly the parser's result, bytes read and bytes left add up to the bytes given, and unless it throws one read is outstanding for just what is awaited |
| Messenger.Messenger.Step | include/cercall/details/messenger.h:68-98 | One round of the loop against the parser, up to the call of the handler: what was taken, and whether a read is in progress |
| Messenger.Messenger.InitTransport | include/cercall/details/messenger.h:56-60 | Starts the first read, for a header |
| Messenger.ReadChannel.GetReadData | include/cercall/transport.h:119-129 | Hands out as many bytes as were asked for, and the same bytes again until the next read |
| Messenger.PutHeader | include/cercall/details/messenger.h:113-120 | Fills the reserved header in place, leaving the payload; refuses, unchanged, exactly what is too long |
| Link.LinkCarriesMessages | include/cercall/client.h:338-352 | Messages written to a stream, cut anyhow, reach the other handler as a prefix of the messages, in order, name and archive unchanged; this is the link of the whole system |
| Link.WriteAppends | include/cercall/details/messenger.h:113-122 | One write appends one frame to the stream of the messages sent |
| Incoming.IncomingIsDeliver | include/cercall/client.h:308-352 | What a client does with messages that arrive together is what the whole system does in that many Deliver steps, and it reads on unless one of them ended in an exception |
| Incoming.IncomingIsServe | include/cercall/service.h:262-294 | What the service does with messages of a client that arrive together is what the whole system does in that many Serve steps, and it stops exactly where one of them is an exception (unknown function, unreadable arguments, a refusal too long to write) or loses the client |
| Incoming.ArrivedCall | include/cercall/service.h:339-379 | The bytes of a call of any function of the interface that is not pending call that function with the arguments of the call; a two-way call is pending afterwards, a one-way call changes nothing, and the service reads on |
| Incoming.ArrivedOtherwise | include/cercall/service.h:359-378 | A name not in the dictionary is an exception that changes nothing; arguments that cannot be read are an exception, and a two-way call is pending all the same |
| Incoming.Unreadable | include/cercall/service.h:262-270 | A payload that holds no name is an exception on either side, which changes nothing, and nothing that arrived behind it is handled |
| Incoming.InProgressIsRead | include/cercall/service.h:345-358 | The refusal of a call in progress is read by the closure of any result type, as error 115 with the type's default value |
| Incoming.InterfaceIsConfig | include/cercall/client.h:251-252 | Client and service of one interface fulfil what the whole system assumes of its names iff no function is called broadcast_event |
| Interfaces.FullNamesDiffer | include/cercall/client.h:314-327 | Functions of one interface have the same full name iff they have the same name, and none but broadcast_event has that of the events |
| Interfaces.DictFinds | include/cercall/service.h:247-257 | Each full name is registered to the function that was added last under that name |
| Interfaces.DictOnly | include/cercall/service.h:247-257 | No other name is registered |
| Interfaces.EventsAreNoCalls | include/cercall/service.h:190 | If no function is called broadcast_event, the name of the events is not in the dictionary |
| Interfaces.CallReachesFunction | include/cercall/client.h:314-327 | From the call of a function by its own name to the entry that the service registered under its name: that function is called, with the same arguments |
| Interfaces.ResultReachesClosure | include/cercall/service.h:381-397 | The message of a result carries the function's name, and the closure reads that result from it |
| Interfaces.EventReachesListeners | include/cercall/service.h:315-326 | The message of an event carries the name that the client knows events by, and the event unchanged |
| Messages.MsgRoundTrip | include/cercall/cereal/serialization.h:123-137 | The name and the archive of a message are read back, and bytes that are read back are those of that message |
| Codec.RoundTrip | include/cercall/cereal/serialization.h:139-143 | A value of any type is read back from its encoding, whatever follows, consuming just its own bytes |
| Codec.Canonical | include/cercall/cereal/serialization.h:139-143 | The converse: bytes that decode are the encoding of what was read |
| Results.ResultRoundTrip | include/cercall/cereal/types.h:33-68 | `Result<T>` and `Result<void>` are read back, value only without error; the exact condition under which nothing is lost |
| Results.ErrorRoundTrip | include/cercall/cereal/types.h:70-84 | Code and message of an error are read back |
| Results.ErrorIsTypeAgnostic | include/cercall/cereal/types.h:43-68 | A `Result<void>` message is read as a `Result<T>` with that error iff the code is not 0 or T is void |
| FunctionDictionary.CallRoundTrip | include/cercall/details/functiondict.h:75-124 | Serializing a call, reading its name, looking the function up and collecting its arguments calls that function with the same arguments in the same order and consumes the whole message |
| FunctionDictionary.CallsAreTyped | include/cercall/details/functiondict.h:91-101 | Conversely no message makes the dictionary call a function with arguments not of its types or not in the message |
| FunctionDictionary.ArgsRoundTrip | include/cercall/boost/serialization.h:63-78 | Arguments serialized one by one are collected one by one, whatever was collected before |
| TypeUtil.RemoveLastType | include/cercall/details/typeutil.h:30-67 | The accumulator recursion drops exactly the last type of a parameter list |
| TypeUtil.RemoveLastPriv | include/cercall/details/typeutil.h:41-60 | What each specialisation contributes for any types collected so far |
| FunctionDictionary.FunctionDict.AddFunction | include/cercall/details/functiondict.h:176-208 | Registers the argument types without the closure, or all of them for a one-way function |
| FunctionDictionary.FunctionDict.IsOneWay | include/cercall/details/functiondict.h:216-232 | The flag of a registered function; an unknown name is an error |
| FunctionDictionary.FunctionDict.CallFunction | include/cercall/details/functiondict.h:210-214 | The call made, or the error, for a name and archive, and what stays in the stream |
| FunctionDictionary.FunctionDict.DeserializeArgs | include/cercall/details/functiondict.h:91-101 | The recursive collector consumes the stream as the collecting function says |
| Serialization.Streams.SerializeCall | include/cercall/cereal/serialization.h:71-86 | Reset, header place, name, arguments in order |
| Serialization.Streams.SerializeCallResult | include/cercall/cereal/serialization.h:88-104 | Reset, header place, name, result |
| Serialization.Streams.SerializeEvent | include/cercall/cereal/serialization.h:106-121 | Reset, header place, name, event |
| Serialization.Streams.DeserializeCall | include/cercall/cereal/serialization.h:123-137 | The name is read off and the archive stays in the stream |
| CallQueues.CallQueue.CanEnqueue | include/cercall/details/callqueue.h:40-54 | A call fits iff fewer than the limit wait; never with limit 0 |
| CallQueues.CallQueue.EnqueueCall | include/cercall/details/callqueue.h:56-62 | The call goes to the back of its function's queue, other queues stay |
| CallQueues.CallQueue.IsEnqueued | include/cercall/details/callqueue.h:64-73 | A call waits, and the limit is not 0 |
| CallQueues.CallQueue.DequeueCall | include/cercall/details/callqueue.h:75-80 | The call at the front leaves its queue, other queues stay |
| Endpoints.Client.SendCall | include/cercall/client.h:177-204 | The step of the client machine, with all six outcomes: written, enqueued, write failed (closure run at once with the error), not open, limit exceeded, too long |
| Endpoints.Client.SendOneWay | include/cercall/client.h:209-214 | The step of the client machine for a one-way call, or refused exactly when it is too long |
| Endpoints.Client.SendNext | include/cercall/client.h:194-199 | The queued call is written and in flight, even if its write failed; a call that is too long throws and stays queued |
| Endpoints.Client.DispatchResult | include/cercall/client.h:373-388 | The step of the client machine: closure removed, next queued call sent, closure run; or one of two exceptions, that of a queued call too long losing the closure |
| Endpoints.Client.DispatchEvent | include/cercall/client.h:354-364 | Every listener gets the event once, in the order of registration |
| Endpoints.Client.HandleMessage | include/cercall/client.h:338-352 | From the bytes of a message: an event, a result, one of the exceptions, or unreadable |
| Endpoints.Client.OnIncomingData | include/cercall/client.h:308-312 | The bytes that arrived are parsed and each message is handled as it is read, in order, until one ends in an exception, handlers that close the transport or fail a write included; one read is outstanding afterwards, none after an exception |
| Endpoints.Client.HandleRecv | include/cercall/asio/basicstreamtransport.h:148-164 | All that follows when a read completes: the messages are handled, or the read-error step is taken |
| Endpoints.Client.constructor | include/cercall/client.h:91-98 | The start of the client machine, with its messenger awaiting a header |
| Endpoints.Client.OnConnectionError | include/cercall/client.h:243-306 | The loop over `myClosures` is the machine's connection error step, for the order in which the map was walked |
| Endpoints.Client.WriteMsg | include/cercall/client.h:183-191 | The bytes on the wire are always the frames of the messages sent |
| Endpoints.Client.Close | include/cercall/client.h:140-145 | Closing leaves calls in flight and queued as they are, and notifies once |
| Endpoints.Client.OnConnected | include/cercall/client.h:228-232 | From the connection on, one read is outstanding, for a header |
| Endpoints.BasicStreamTransport.Close | include/cercall/asio/basicstreamtransport.h:103-120 | OPEN to CLOSED with one notification, on which a service forgets the transport; otherwise nothing |
| Endpoints.BasicStreamTransport.Write | include/cercall/asio/basicstreamtransport.h:85-101 | Written and unchanged, or not connected and unchanged, or failed and closed with the callback made |
| Endpoints.BasicStreamTransport.Open | include/cercall/asio/basicstreamtransport.h:132-142 | Open and one on_connected; a client then reads |
| Endpoints.BasicStreamTransport.HandleRecv | include/cercall/asio/basicstreamtransport.h:148-172 | The transport's part, for every error, state and listener: what the listener is told, the state reached, that no read is in progress after an error, that a client takes its read-error step, and that a service forgets the transport exactly when it closes |
| Endpoints.WriteMessageWithHeader | include/cercall/details/messenger.h:113-122 | A write of the frame of the payload behind the header place, with all that a failing write sets off; refused, changing nothing, exactly when too long |
| Endpoints.Service.OnClientAccepted | include/cercall/service.h:260-280 | The client is in the map, open, notified, with one read outstanding; other clients stay |
| Endpoints.Service.ReadFailed | include/cercall/asio/basicstreamtransport.h:148-159 | A read error of a client, a peer that is gone above all: the map stays consistent, the client leaves it by the disconnect step and is told once, or stays if the error is recoverable |
| Endpoints.Service.Start | include/cercall/service.h:91-97 | The acceptor is open afterwards |
| Endpoints.Service.AddFunction | include/cercall/service.h:247-257 | The dictionary of the functions added so far becomes that of those and this one, under its full name |
| Endpoints.Service.OnDisconnected | include/cercall/service.h:301-312 | The client leaves the map and its listener is cleared; pending calls stay |
| Endpoints.Service.FindPendingCall | include/cercall/service.h:328-337 | Finds an entry for the function and client iff there is one |
| Endpoints.Service.DispatchFunc | include/cercall/service.h:339-379 | The step of the service machine: unknown, refused with a reply on the wire, or called with the arguments of the message or ended by their being unreadable, pending in both cases; the map stays consistent also when the reply's write fails; an exception, changing nothing, exactly when the reply is too long |
| Endpoints.Service.OnIncomingData | include/cercall/service.h:288-294 | The bytes of a client are parsed and its calls taken up as they are read, in order, until one ends in an exception or takes the client along; one read is outstanding afterwards, none after an exception |
| Endpoints.Service.SendResult | include/cercall/service.h:381-403 | The step of the service machine: refused, sent, dropped, or failed and disconnected by the re-entrant callback; the exact bytes written and notifications made; a result that is too long changes nothing and leaves the call pending |
| Endpoints.Service.WriteToClient | include/cercall/service.h:395-397 | A failing write removes just that client, through close and on_disconnected |
| Endpoints.Service.CloseClients | include/cercall/service.h:108-110 | The loop ends with the map empty; every former client is CLOSED, without listener, notified once |
| Endpoints.Service.Stop | include/cercall/service.h:103-112 | With an open acceptor that loop; otherwise nothing |
| Endpoints.Service.Broadcast | include/cercall/service.h:315-326 | Each connected client is written the event exactly once, or none is, exactly when it is too long |
| TransportRuns.OneOpenAtATime | include/cercall/asio/clienttcptransport.h:61-106 | With one open in progress at a time: state only NEW, OPEN, CLOSED in that direction, on_connected and on_disconnected each at most once and in that order, every completed asynchronous open ran its closure once |
| TransportRuns.LifeCycle | include/cercall/asio/basicstreamtransport.h:103-142 | In all runs: the open() assertion never fails iff at most one connection was notified, then notifications are just what the state says; successes reported are connections made; each closure ran once unless its open is in progress |
| TransportRuns.EachIsTold | include/cercall/asio/clienttcptransport.h:38-106 | In every run, read off its events: the closure of an open is run with the end of that open and nothing else (success iff its connect succeeded, else false with the error of its own resolve or connect, or with error 106 if the transport was not NEW); each synchronous open returns whether it connected; the listener is told every connection, disconnection, error (but the abort after a close) and arrival of data, in order |
| TransportRuns.EarlyClose | include/cercall/asio/basicstreamtransport.h:103-106 | In every run a close before the connection is made is lost: whatever comes after it comes as if it had not been made |
| TransportRuns.TwoOpens | include/cercall/asio/clienttcptransport.h:38-59 | A run in which an open during an open fails the assertion on an OPEN transport and notifies of two connections |
| TransportRuns.OpenedAgain | include/cercall/asio/clienttcptransport.h:96-106 | A run of the library's code, for any completion, in which a CLOSED transport is OPEN again |
| ClientTransport.ClientTcpTransport.OpenSync | include/cercall/asio/clienttcptransport.h:38-59 | The synchronous open takes the step of the life cycle and returns what it records; the client then reads, or was told the error and failed its calls in flight |
| ClientTransport.ClientTcpTransport.OpenAsync | include/cercall/asio/clienttcptransport.h:61-79 | Starts to resolve, or runs the closure at once with "already connected" |
| ClientTransport.ClientTcpTransport.HandleResolve | include/cercall/asio/clienttcptransport.h:83-94 | Fails the open with listener and closure told, or goes on to connect |
| ClientTransport.ClientTcpTransport.HandleConnect | include/cercall/asio/clienttcptransport.h:96-106 | Fails the open, or opens and runs the closure with success, the client told or reading accordingly; the assertion in open() fails exactly when a connect succeeds on a transport that is not NEW |
| ClientTransport.ClientTcpTransport.HandleRecv | include/cercall/asio/basicstreamtransport.h:148-164 | The receive handler takes the step of the life cycle |
| ClientTransport.ClientTcpTransport.Close | include/cercall/asio/basicstreamtransport.h:103-120 | The close takes the step of the life cycle |

## Left out

- Asio sockets, resolver and acceptor: operating-system I/O; their answers are parameters of the steps, and the stream is a sequence of bytes.
- An exception of the resolver in the synchronous open (include/cercall/asio/clienttcptransport.h:44) is not part of this model.
- Archives: the formats of Cereal and Boost are replaced by one prefix codec for 32-bit integers, booleans, strings, vectors and pairs; archives that are kept and reused are not modelled.
- include/cercall/boost/types.h: the same layout as the Cereal version.
- Messenger.PutHeader: writes the header in one fixed byte order, on both sides, where the code copies the native one.
- Incoming.IncomingIsServe: a refusal that is too long to be written changes the whole system as one that is written; the service reads no more of that client, and no name of a function comes near that length.
- Endpoints.Service.Broadcast: a write that fails inside it erases from the map that is being walked; writes are assumed to succeed.
- Events.EventFidelity: assumes that the writes of a broadcast succeed, since one that fails erases from the map that is being walked; polymorphic events, which the first listener takes over, are left out.
- Endpoints.Client.OnConnectionError: the closures that it runs make no calls while its loop runs.
- Endpoints.Service.DispatchFunc: exceptions thrown by a service function, which leave its call pending, are not modelled.
- Endpoints.Service.OnIncomingData: says nothing of the read loop after a failing reply removed the client, and with it the messenger whose loop is running.
- Endpoints.BasicStreamTransport.HandleRecv: the listener's part of a read that succeeds is `OnIncomingData`; requires a listener for a read that succeeds, as the code asserts (include/cercall/asio/basicstreamtransport.h:161); a read that completed just before a service closed the transport has none.
- A recoverable receive error, or an exception, on the side of the service: the service reads no more from that client; in the whole system that is a run in which it takes up none of its calls.
- Connecting: the client's connect and the service's accept are one step, so events that are broadcast between the two are left out.
- ClientTransport.ClientTcpTransport.HandleConnect: stops where the assertion in open() fails; what a build without assertions does then is in `TransportModel` only.
- SystemTheorems.ErrorBranches: client and service were built from one interface, no function is named broadcast_event, and the identity of a transport is not used again.
- A listener that is taken off a client transport during an open: the completion handlers use the listener without a check.
- Drain.DrainCompletes: calls of a client that does not read any more are not claimed to complete; `Endings.NeverRunsAgain` proves that they do not.
- Error categories: only code and message travel.
- Thread checks, logging, memory lifetime, macros and overload selection.
- The order of the pending-call multimap between entries of different functions: the class keeps one sequence and searches all of it.
- The example services, the Python binding and the tests.
