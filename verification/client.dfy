/** Bounded per-function FIFO queues of calls that wait for the call in flight. */
module CallQueues {
  import opened ByteStrings
  import opened Results
  import opened Messages

  /** A user closure: which one it is, and the T of its Closure<T>. */
  datatype Closure = Closure(id: nat, result: ResultType)

  /** A call that was accepted: the archive of its arguments, and the closure that awaits its result. */
  datatype Call = Call(args: Bytes, closure: Closure)

  type Queues = map<Bytes, seq<Call>>

  function QueueOf(queues: Queues, name: Bytes): seq<Call> {
    if name in queues then queues[name] else []
  }

  class CallQueue {
    const limit: nat
    var myQueueMap: Queues

    constructor (limit: nat)
      ensures this.limit == limit && myQueueMap == map[]
    {
      this.limit := limit;
      myQueueMap := map[];
    }

    method CanEnqueue(name: Bytes) returns (can: bool)
      ensures can <==> |QueueOf(myQueueMap, name)| < limit
    {
      if limit == 0 {
        can := false;
      } else if name !in myQueueMap {
        can := true;
      } else {
        can := |myQueueMap[name]| < limit;
      }
    }

    method EnqueueCall(name: Bytes, call: Call)
      modifies this
      ensures myQueueMap == old(myQueueMap)[name := QueueOf(old(myQueueMap), name) + [call]]
    {
      if name !in myQueueMap {
        myQueueMap := myQueueMap[name := []];
      }
      myQueueMap := myQueueMap[name := myQueueMap[name] + [call]];
    }

    method IsEnqueued(name: Bytes) returns (waiting: bool)
      ensures waiting <==> limit != 0 && QueueOf(myQueueMap, name) != []
    {
      if limit == 0 {
        waiting := false;
      } else if |myQueueMap| == 0 || name !in myQueueMap {
        waiting := false;
      } else {
        waiting := |myQueueMap[name]| > 0;
      }
    }

    /** The front call; running it is left to the client, which is all that its action does. */
    method DequeueCall(name: Bytes) returns (call: Call)
      requires QueueOf(myQueueMap, name) != []
      modifies this
      ensures call == QueueOf(old(myQueueMap), name)[0]
      ensures myQueueMap == old(myQueueMap)[name := QueueOf(old(myQueueMap), name)[1..]]
    {
      call := myQueueMap[name][0];
      myQueueMap := myQueueMap[name := myQueueMap[name][1..]];
    }
  }
}

/** What both ends know of a connection. */
module Connections {
  import opened Codec
  import opened Results
  import opened Messages
  import opened Serialization
  import opened Framing

  datatype State = NEW | OPEN | CLOSED

  /** What a transport tells its listener. */
  datatype Note = Connected | Disconnected | ConnectionFailed(e: Error) | IncomingData(len: nat)

  /** The error a write on a transport that is not open returns (ENOTCONN). */
  const NOT_CONNECTED := Error(107, "socket not connected")

  /** EAGAIN (EWOULDBLOCK is the same number) and EINTR: the socket need not be closed. */
  predicate IsRecoverable(code: int) {
    code == 11 || code == 4
  }

  /** The code a read completes with when its socket was closed under it (ECANCELED). */
  const OPERATION_ABORTED := 125

  /** The code of a read that is started on a socket already closed (EBADF). */
  const BAD_DESCRIPTOR := 9

  /** The frame of a message, header included, is short enough for the header to announce it. */
  predicate CanWrite(m: Msg) {
    HEADER_SIZE + |EncodeMsg(m)| <= MAX_SIZE - HEADER_SIZE
  }
}

/** The client as a state machine on values: one function for each thing that can happen to it. */
module ClientModel {
  import opened Wrappers
  import opened ByteStrings
  import opened Results
  import opened Messages
  import opened Connections
  import opened CallQueues

  /** A closure was run on an archive that holds its result. */
  datatype Invocation = Invocation(closure: Closure, archive: Bytes)

  datatype ClientState = ClientState(
    limit: nat,                                // MaxCallsInProgress
    phase: State,                              // of the transport
    closures: map<Bytes, Closure>,             // in flight
    queues: Queues,
    accepted: seq<Named<Call>>,                // two-way calls, in the order send_call took them
    sent: seq<Msg>,                            // messages written to the transport
    invoked: seq<Named<Invocation>>,           // closures run with a result message
    failed: seq<Named<Invocation>>,            // closures run with a connection error
    lost: seq<Named<Invocation>>,              // closures that were not run although their result came
    refused: seq<Named<(Closure, Error)>>,     // closures run at once because the call was not written
    events: seq<Bytes>)                        // events handed to the listeners

  function Start(limit: nat): ClientState {
    ClientState(limit, NEW, map[], map[], [], [], [], [], [], [], [])
  }

  /** `ec` is what the socket answers, with code 0 for success; any other answer closes the transport. */
  function Write(s: ClientState, m: Msg, ec: Error): (ClientState, Error) {
    if s.phase != OPEN then (s, NOT_CONNECTED)
    else if ec.code != 0 then (s.(phase := CLOSED), ec)
    else (s.(sent := s.sent + [m]), NO_ERROR)
  }

  /** The last three outcomes are exceptions. */
  datatype SendOutcome = Written | Enqueued | WriteFailed | NotOpen | LimitExceeded | CallTooLong

  /** A call that is too long is refused if it would be written now, but not if it is queued. */
  function SendCall(s: ClientState, name: Bytes, call: Call, ec: Error): (ClientState, SendOutcome) {
    if s.phase != OPEN then (s, NotOpen)
    else if name !in s.closures then
      if !CanWrite(Named(name, call.args)) then (s, CallTooLong)
      else
        var (s1, err) := Write(s, Named(name, call.args), ec);
        if err.code != 0 then (s1.(refused := s1.refused + [Named(name, (call.closure, err))]), WriteFailed)
        else
          (s1.(closures := s1.closures[name := call.closure], accepted := s1.accepted + [Named(name, call)]), Written)
    else if 0 < s.limit && |QueueOf(s.queues, name)| < s.limit - 1 then
      (s.(queues := s.queues[name := QueueOf(s.queues, name) + [call]],
          accepted := s.accepted + [Named(name, call)]), Enqueued)
    else (s, LimitExceeded)
  }

  function SendOneWay(s: ClientState, name: Bytes, args: Bytes, ec: Error): (ClientState, SendOutcome) {
    if s.phase != OPEN then (s, NotOpen)
    else if !CanWrite(Named(name, args)) then (s, CallTooLong)
    else
      var (s1, err) := Write(s, Named(name, args), ec);
      (s1, if err.code != 0 then WriteFailed else Written)
  }

  /** The call at the front of the queue has a message that can be written. */
  predicate NextFits(s: ClientState, name: Bytes) {
    QueueOf(s.queues, name) != [] ==> CanWrite(Named(name, s.queues[name][0].args))
  }

  /** The queued call is written, and is in flight whether or not that succeeded. */
  function SendNext(s: ClientState, name: Bytes, ec: Error): ClientState
    requires QueueOf(s.queues, name) != []
  {
    var call := s.queues[name][0];
    var s1 := Write(s, Named(name, call.args), ec).0;
    s1.(closures := s1.closures[name := call.closure], queues := s1.queues[name := s1.queues[name][1..]])
  }

  /** The last two are exceptions: no closure awaits the result, or the call queued behind it is too long. */
  datatype Dispatched = Ran | NotAwaited | Lost

  /** The exception of a queued call that is too long comes before the closure that was found is run. */
  function DispatchResult(s: ClientState, name: Bytes, archive: Bytes, ec: Error): (ClientState, Dispatched) {
    if name !in s.closures then (s, NotAwaited)
    else
      var run := Named(name, Invocation(s.closures[name], archive));
      var s1 := s.(closures := s.closures - {name});
      if s.limit <= 1 || QueueOf(s.queues, name) == [] then (s1.(invoked := s1.invoked + [run]), Ran)
      else if !NextFits(s, name) then (s1.(lost := s1.lost + [run]), Lost)
      else
        var s2 := SendNext(s1, name, ec);
        (s2.(invoked := s2.invoked + [run]), Ran)
  }

  /** A dispatch closes the transport exactly when it has a next call to write and cannot. */
  lemma DispatchPhase(s: ClientState, n: Bytes, archive: Bytes, ec: Error)
    ensures
      var next := s.phase == OPEN && n in s.closures && 1 < s.limit && QueueOf(s.queues, n) != [] && NextFits(s, n);
      DispatchResult(s, n, archive, ec).0.phase == if next && ec.code != 0 then CLOSED else s.phase
  {
  }

  /** A message from the service: an event, or the result of a call. */
  function HandleMessage(s: ClientState, broadcast: Bytes, m: Msg, ec: Error): (ClientState, Dispatched) {
    if m.name == broadcast then (s.(events := s.events + [m.item]), Ran)
    else DispatchResult(s, m.name, m.item, ec)
  }

  /** An order in which the closure map can be walked. */
  predicate IsOrder(order: seq<Bytes>, names: set<Bytes>) {
    && (forall i, j | 0 <= i < j < |order| :: order[i] != order[j])
    && (forall n | n in order :: n in names) && (forall n | n in names :: n in order)
  }

  lemma {:induction false} OrderExists(names: set<Bytes>) returns (order: seq<Bytes>)
    ensures IsOrder(order, names)
  {
    if names == {} {
      order := [];
    } else {
      var name :| name in names;
      var before := OrderExists(names - {name});
      order := before + [name];
    }
  }

  function FailAll(closures: map<Bytes, Closure>, order: seq<Bytes>, archive: Bytes): seq<Named<Invocation>>
    requires forall n | n in order :: n in closures
  {
    if order == [] then []
    else
      var n := order[|order| - 1];
      FailAll(closures, order[..|order| - 1], archive)
      + if n == [] then [] else [Named(n, Invocation(closures[n], archive))]
  }

  /** Every closure in flight is run on the one archive that holds the error; queued calls stay. */
  function ConnectionError(s: ClientState, archive: Bytes, order: seq<Bytes>): ClientState
    requires IsOrder(order, s.closures.Keys)
  {
    s.(failed := s.failed + FailAll(s.closures, order, archive), closures := map[])
  }

  /** A read completed with an error.  The abort that follows a close is passed over in silence. */
  function ReadFailed(s: ClientState, ec: Error, order: seq<Bytes>): ClientState
    requires IsOrder(order, s.closures.Keys)
  {
    if ec.code == OPERATION_ABORTED && s.phase == CLOSED then s
    else
      var failed := ConnectionError(s, EncodeResult(Result(ec, None)), order);
      if IsRecoverable(ec.code) then failed else Close(failed)
  }

  function Close(s: ClientState): ClientState {
    s.(phase := if s.phase == OPEN then CLOSED else s.phase)
  }

  function Open(s: ClientState): ClientState {
    s.(phase := if s.phase == NEW then OPEN else s.phase)
  }

  lemma {:induction false} FailAllOf(closures: map<Bytes, Closure>, order: seq<Bytes>, archive: Bytes, name: Bytes)
    requires name != []
    requires forall n | n in order :: n in closures
    requires forall i, j | 0 <= i < j < |order| :: order[i] != order[j]
    ensures Of(name, FailAll(closures, order, archive))
         == if name in order then [Invocation(closures[name], archive)] else []
  {
    if order != [] {
      var before, last := order[..|order| - 1], order[|order| - 1];
      assert forall n :: n in order <==> n in before || n == last by {
        assert order == before + [last];
      }
      assert last !in before;
      FailAllOf(closures, before, archive, name);
      if last != [] {
        OfAppend(name, FailAll(closures, before, archive), Named(last, Invocation(closures[last], archive)));
      } else {
        assert FailAll(closures, order, archive) == FailAll(closures, before, archive);
      }
    }
  }
}

/** A client seen through one function: its functions do not touch each other's calls. */
module Lanes {
  import opened Wrappers
  import opened ByteStrings
  import opened Results
  import opened Messages
  import opened Connections
  import opened CallQueues
  import opened ClientModel

  datatype Lane = Lane(
    accepted: seq<Call>,
    flying: Option<Closure>,
    queue: seq<Call>,
    sent: seq<Bytes>,
    invoked: seq<Invocation>,
    failed: seq<Invocation>,
    lost: seq<Invocation>)

  function LaneOf(s: ClientState, name: Bytes): Lane {
    Lane(
      Of(name, s.accepted),
      if name in s.closures then Some(s.closures[name]) else None,
      QueueOf(s.queues, name),
      Of(name, s.sent),
      Of(name, s.invoked),
      Of(name, s.failed),
      Of(name, s.lost))
  }

  /** Calls in flight and queued. */
  function Load(l: Lane): nat {
    (if l.flying.Some? then 1 else 0) + |l.queue|
  }

  /** `fits`: the message of the call can be written. */
  function CallLane(limit: nat, phase: State, l: Lane, call: Call, fits: bool, ec: Error): Lane {
    if phase != OPEN then l
    else if l.flying.None? then
      if !fits || ec.code != 0 then l
      else
        l.(flying := Some(call.closure), accepted := l.accepted + [call], sent := l.sent + [call.args])
    else if 0 < limit && |l.queue| < limit - 1 then
      l.(queue := l.queue + [call], accepted := l.accepted + [call])
    else l
  }

  function OneWayLane(phase: State, l: Lane, args: Bytes, fits: bool, ec: Error): Lane {
    if phase == OPEN && fits && ec.code == 0 then l.(sent := l.sent + [args]) else l
  }

  function NextLane(phase: State, l: Lane, ec: Error): Lane
    requires l.queue != []
  {
    l.(flying := Some(l.queue[0].closure), queue := l.queue[1..],
       sent := if phase == OPEN && ec.code == 0 then l.sent + [l.queue[0].args] else l.sent)
  }

  /** `fits`: the message of the next queued call, if there is one, can be written. */
  function ResultLane(limit: nat, phase: State, l: Lane, archive: Bytes, fits: bool, ec: Error): Lane {
    if l.flying.None? then l
    else if 1 < limit && l.queue != [] && !fits then
      l.(flying := None, lost := l.lost + [Invocation(l.flying.value, archive)])
    else
      var l1 := if limit <= 1 || l.queue == [] then l.(flying := None) else NextLane(phase, l, ec);
      l1.(invoked := l.invoked + [Invocation(l.flying.value, archive)])
  }

  function ErrorLane(l: Lane, archive: Bytes): Lane {
    if l.flying.None? then l
    else l.(flying := None, failed := l.failed + [Invocation(l.flying.value, archive)])
  }

  lemma WriteOf(s: ClientState, m: Msg, ec: Error, name: Bytes)
    ensures Of(name, Write(s, m, ec).0.sent)
         == if m.name == name && s.phase == OPEN && ec.code == 0 then Of(name, s.sent) + [m.item] else Of(name, s.sent)
  {
    OfAppend(name, s.sent, m);
  }

  lemma WrittenOnLane(s: ClientState, n: Bytes, call: Call, name: Bytes)
    requires s.phase == OPEN && n !in s.closures && CanWrite(Named(n, call.args))
    ensures LaneOf(SendCall(s, n, call, NO_ERROR).0, name)
         == if n == name then CallLane(s.limit, s.phase, LaneOf(s, name), call, true, NO_ERROR) else LaneOf(s, name)
  {
    OfAppend(name, s.accepted, Named(n, call));
    OfAppend(name, s.sent, Named(n, call.args));
  }

  lemma EnqueuedOnLane(s: ClientState, n: Bytes, call: Call, ec: Error, name: Bytes)
    requires s.phase == OPEN && n in s.closures
    ensures LaneOf(SendCall(s, n, call, ec).0, name)
         == if n == name then CallLane(s.limit, s.phase, LaneOf(s, name), call, true, ec) else LaneOf(s, name)
  {
    OfAppend(name, s.accepted, Named(n, call));
  }

  lemma CallOnLane(s: ClientState, n: Bytes, call: Call, ec: Error, name: Bytes)
    ensures LaneOf(SendCall(s, n, call, ec).0, name)
         == if n == name then CallLane(s.limit, s.phase, LaneOf(s, name), call, CanWrite(Named(n, call.args)), ec)
            else LaneOf(s, name)
  {
    if s.phase == OPEN {
      if n in s.closures {
        EnqueuedOnLane(s, n, call, ec, name);
      } else if CanWrite(Named(n, call.args)) && ec.code == 0 {
        WrittenOnLane(s, n, call, name);
        assert SendCall(s, n, call, ec).0 == SendCall(s, n, call, NO_ERROR).0;
      }
    }
  }

  lemma OneWayOnLane(s: ClientState, n: Bytes, args: Bytes, ec: Error, name: Bytes)
    ensures LaneOf(SendOneWay(s, n, args, ec).0, name)
         == if n == name then OneWayLane(s.phase, LaneOf(s, name), args, CanWrite(Named(n, args)), ec)
            else LaneOf(s, name)
  {
    WriteOf(s, Named(n, args), ec, name);
  }

  lemma NextOnLane(s: ClientState, n: Bytes, ec: Error, name: Bytes)
    requires QueueOf(s.queues, n) != []
    ensures LaneOf(SendNext(s, n, ec), name)
         == if n == name then NextLane(s.phase, LaneOf(s, name), ec) else LaneOf(s, name)
  {
    WriteOf(s, Named(n, s.queues[n][0].args), ec, name);
  }

  lemma InvokedOnLane(s: ClientState, n: Bytes, inv: Invocation, name: Bytes)
    ensures LaneOf(s.(invoked := s.invoked + [Named(n, inv)]), name)
         == var l := LaneOf(s, name); if n == name then l.(invoked := l.invoked + [inv]) else l
  {
    OfAppend(name, s.invoked, Named(n, inv));
  }

  lemma LostOnLane(s: ClientState, n: Bytes, run: Invocation, name: Bytes)
    ensures LaneOf(s.(lost := s.lost + [Named(n, run)]), name)
         == var l := LaneOf(s, name); if n == name then l.(lost := l.lost + [run]) else l
  {
    OfAppend(name, s.lost, Named(n, run));
  }

  lemma ResultOnLane(s: ClientState, n: Bytes, archive: Bytes, ec: Error, name: Bytes)
    ensures LaneOf(DispatchResult(s, n, archive, ec).0, name)
         == if n == name then ResultLane(s.limit, s.phase, LaneOf(s, name), archive, NextFits(s, n), ec)
            else LaneOf(s, name)
  {
    if n in s.closures {
      var s1, run := s.(closures := s.closures - {n}), Invocation(s.closures[n], archive);
      if s.limit <= 1 || QueueOf(s.queues, n) == [] {
        InvokedOnLane(s1, n, run, name);
      } else if !NextFits(s, n) {
        LostOnLane(s1, n, run, name);
      } else {
        NextOnLane(s1, n, ec, name);
        InvokedOnLane(SendNext(s1, n, ec), n, run, name);
      }
    }
  }

  lemma ErrorOnLane(s: ClientState, archive: Bytes, order: seq<Bytes>, name: Bytes)
    requires name != [] && IsOrder(order, s.closures.Keys)
    ensures LaneOf(ConnectionError(s, archive, order), name) == ErrorLane(LaneOf(s, name), archive)
  {
    FailAllOf(s.closures, order, archive, name);
    OfConcat(name, s.failed, FailAll(s.closures, order, archive));
    assert Of(name, s.failed) + [] == Of(name, s.failed);
  }
}

/** What every client keeps, whatever its users, its transport and the service do. */
module ClientRuns {
  import opened Wrappers
  import opened ByteStrings
  import opened Results
  import opened Messages
  import opened Connections
  import opened CallQueues
  import opened ClientModel
  import opened Lanes
  import opened Framing

  datatype Event =
    | Opened
    | Closed
    | Called(name: Bytes, call: Call, ec: Error)
    | CalledOneWay(name: Bytes, args: Bytes, ec: Error)
    | Received(m: Msg, ec: Error)
    | Broken(archive: Bytes, order: seq<Bytes>)

  datatype Config = Config(limit: nat, oneWay: set<Bytes>, broadcast: Bytes)

  /** Full function names are never empty, and a name is either one-way or not. */
  predicate Enabled(cfg: Config, s: ClientState, e: Event) {
    match e
    case Called(name, _, _) => name != [] && name !in cfg.oneWay
    case CalledOneWay(name, _, _) => name in cfg.oneWay
    case Broken(_, order) => IsOrder(order, s.closures.Keys)
    case _ => true
  }

  function Apply(cfg: Config, s: ClientState, e: Event): ClientState
    requires Enabled(cfg, s, e)
  {
    match e
    case Opened => Open(s)
    case Closed => Close(s)
    case Called(name, call, ec) => SendCall(s, name, call, ec).0
    case CalledOneWay(name, args, ec) => SendOneWay(s, name, args, ec).0
    case Received(m, ec) => HandleMessage(s, cfg.broadcast, m, ec).0
    case Broken(archive, order) => ConnectionError(s, archive, order)
  }

  /** The state after a run, None when an event of the run was not possible. */
  function Run(cfg: Config, es: seq<Event>): Option<ClientState> {
    if es == [] then Some(Start(cfg.limit))
    else
      match Run(cfg, es[..|es| - 1])
      case None => None
      case Some(s) => if Enabled(cfg, s, es[|es| - 1]) then Some(Apply(cfg, s, es[|es| - 1])) else None
  }

  predicate LaneNextFits(l: Lane, name: Bytes) {
    l.queue != [] ==> CanWrite(Named(name, l.queue[0].args))
  }

  /** The same event as one function sees it. */
  function LaneApply(cfg: Config, limit: nat, phase: State, l: Lane, e: Event, name: Bytes): Lane {
    match e
    case Called(n, call, ec) =>
      if n == name then CallLane(limit, phase, l, call, CanWrite(Named(n, call.args)), ec) else l
    case CalledOneWay(n, args, ec) => if n == name then OneWayLane(phase, l, args, CanWrite(Named(n, args)), ec) else l
    case Received(m, ec) =>
      if m.name == name != cfg.broadcast then ResultLane(limit, phase, l, m.item, LaneNextFits(l, name), ec) else l
    case Broken(archive, _) => ErrorLane(l, archive)
    case _ => l
  }

  lemma ApplyOnLane(cfg: Config, s: ClientState, e: Event, name: Bytes)
    requires name != [] && Enabled(cfg, s, e)
    ensures LaneOf(Apply(cfg, s, e), name) == LaneApply(cfg, s.limit, s.phase, LaneOf(s, name), e, name)
  {
    match e
    case Called(n, call, ec) => CallOnLane(s, n, call, ec, name);
    case CalledOneWay(n, args, ec) => OneWayOnLane(s, n, args, ec, name);
    case Received(m, ec) => ResultOnLane(s, m.name, m.item, ec, name);
    case Broken(archive, order) => ErrorOnLane(s, archive, order, name);
    case _ =>
  }

  lemma LimitStays(cfg: Config, s: ClientState, e: Event)
    requires Enabled(cfg, s, e)
    ensures Apply(cfg, s, e).limit == s.limit
  {
  }

  // ---- conservation and the admission bound ----

  function CountCalls(c: Closure, calls: seq<Call>): nat {
    if calls == [] then 0
    else CountCalls(c, calls[..|calls| - 1]) + if calls[|calls| - 1].closure == c then 1 else 0
  }

  function CountRuns(c: Closure, invs: seq<Invocation>): nat {
    if invs == [] then 0
    else CountRuns(c, invs[..|invs| - 1]) + if invs[|invs| - 1].closure == c then 1 else 0
  }

  /** How often `c` is in flight or queued, and how often it was run with a result or an error. */
  function CountWaiting(c: Closure, l: Lane): nat {
    (if l.flying == Some(c) then 1 else 0) + CountCalls(c, l.queue)
  }

  function CountCompleted(c: Closure, l: Lane): nat {
    CountRuns(c, l.invoked) + CountRuns(c, l.failed)
  }

  predicate Conserved(limit: nat, l: Lane, c: Closure) {
    && CountCalls(c, l.accepted) == CountWaiting(c, l) + CountCompleted(c, l) + CountRuns(c, l.lost)
    && |l.accepted| == Load(l) + |l.invoked| + |l.failed| + |l.lost|
    && (l.queue == [] || |l.queue| + 1 <= limit)
  }

  lemma CountCallsAppend(c: Closure, calls: seq<Call>, call: Call)
    ensures CountCalls(c, calls + [call]) == CountCalls(c, calls) + if call.closure == c then 1 else 0
  {
    assert (calls + [call])[..|calls|] == calls;
  }

  lemma {:induction false} CountCallsFront(c: Closure, calls: seq<Call>)
    requires calls != []
    ensures CountCalls(c, calls) == (if calls[0].closure == c then 1 else 0) + CountCalls(c, calls[1..])
  {
    var k := |calls| - 1;
    if k > 0 {
      CountCallsFront(c, calls[..k]);
      assert calls[1..][..k - 1] == calls[..k][1..];
    }
  }

  lemma CountRunsAppend(c: Closure, invs: seq<Invocation>, inv: Invocation)
    ensures CountRuns(c, invs + [inv]) == CountRuns(c, invs) + if inv.closure == c then 1 else 0
  {
    assert (invs + [inv])[..|invs|] == invs;
  }

  lemma CallConserves(limit: nat, phase: State, l: Lane, call: Call, fits: bool, ec: Error, c: Closure)
    requires Conserved(limit, l, c)
    ensures Conserved(limit, CallLane(limit, phase, l, call, fits, ec), c)
  {
    var l1 := CallLane(limit, phase, l, call, fits, ec);
    if l1 != l {
      CountCallsAppend(c, l.accepted, call);
      assert CountCalls(c, l1.accepted) == CountCalls(c, l.accepted) + if call.closure == c then 1 else 0;
      if l.flying.Some? {
        CountCallsAppend(c, l.queue, call);
      }
    }
  }

  lemma LostConserves(limit: nat, l: Lane, run: Invocation, c: Closure)
    requires Conserved(limit, l, c) && l.flying == Some(run.closure)
    ensures Conserved(limit, l.(flying := None, lost := l.lost + [run]), c)
  {
    CountRunsAppend(c, l.lost, run);
  }

  lemma RanConserves(limit: nat, l: Lane, run: Invocation, c: Closure)
    requires Conserved(limit, l, c) && l.flying == Some(run.closure)
    ensures Conserved(limit, l.(flying := None, invoked := l.invoked + [run]), c)
  {
    CountRunsAppend(c, l.invoked, run);
  }

  lemma NextConserves(limit: nat, phase: State, l: Lane, ec: Error, c: Closure)
    requires Conserved(limit, l, c) && l.flying.None? && l.queue != []
    ensures Conserved(limit, NextLane(phase, l, ec), c)
  {
    CountCallsFront(c, l.queue);
  }

  lemma ResultConserves(limit: nat, phase: State, l: Lane, archive: Bytes, fits: bool, ec: Error, c: Closure)
    requires Conserved(limit, l, c)
    ensures Conserved(limit, ResultLane(limit, phase, l, archive, fits, ec), c)
  {
    if l.flying.Some? {
      var run := Invocation(l.flying.value, archive);
      LostConserves(limit, l, run, c);
      RanConserves(limit, l, run, c);
      if 1 < limit && l.queue != [] {
        NextConserves(limit, phase, l.(flying := None, invoked := l.invoked + [run]), ec, c);
      }
    }
  }

  lemma ErrorConserves(limit: nat, l: Lane, archive: Bytes, c: Closure)
    requires Conserved(limit, l, c)
    ensures Conserved(limit, ErrorLane(l, archive), c)
  {
    if l.flying.Some? {
      CountRunsAppend(c, l.failed, Invocation(l.flying.value, archive));
    }
  }

  lemma StepConserves(cfg: Config, limit: nat, phase: State, l: Lane, e: Event, name: Bytes, c: Closure)
    requires Conserved(limit, l, c)
    ensures Conserved(limit, LaneApply(cfg, limit, phase, l, e, name), c)
  {
    match e
    case Called(n, call, ec) => CallConserves(limit, phase, l, call, CanWrite(Named(n, call.args)), ec, c);
    case Received(m, ec) => ResultConserves(limit, phase, l, m.item, LaneNextFits(l, name), ec, c);
    case Broken(archive, _) => ErrorConserves(limit, l, archive, c);
    case _ =>
  }

  lemma {:induction false} Invariant(cfg: Config, es: seq<Event>, name: Bytes, c: Closure)
    requires name != [] && Run(cfg, es).Some?
    ensures Conserved(cfg.limit, LaneOf(Run(cfg, es).value, name), c)
    ensures Run(cfg, es).value.limit == cfg.limit
  {
    if es != [] {
      var s := Run(cfg, es[..|es| - 1]).value;
      Invariant(cfg, es[..|es| - 1], name, c);
      ApplyOnLane(cfg, s, es[|es| - 1], name);
      LimitStays(cfg, s, es[|es| - 1]);
      StepConserves(cfg, s.limit, s.phase, LaneOf(s, name), es[|es| - 1], name, c);
    }
  }

  /** A result comes for a call in flight while the call queued behind it is too long. */
  predicate Loses(cfg: Config, s: ClientState, e: Event, name: Bytes) {
    e.Received? && e.m.name == name != cfg.broadcast && name in s.closures && !NextFits(s, name)
  }

  predicate NeverLoses(cfg: Config, es: seq<Event>, name: Bytes)
    requires Run(cfg, es).Some?
  {
    es != [] ==>
      && NeverLoses(cfg, es[..|es| - 1], name)
      && !Loses(cfg, Run(cfg, es[..|es| - 1]).value, es[|es| - 1], name)
  }

  lemma StepLoses(cfg: Config, s: ClientState, e: Event, name: Bytes)
    requires name != [] && Enabled(cfg, s, e) && (QueueOf(s.queues, name) == [] || 1 < s.limit)
    ensures
      var l, l1 := LaneOf(s, name), LaneOf(Apply(cfg, s, e), name);
      |l1.lost| == |l.lost| + if Loses(cfg, s, e, name) then 1 else 0
  {
    ApplyOnLane(cfg, s, e, name);
  }

  lemma {:induction false} LostExactly(cfg: Config, es: seq<Event>, name: Bytes)
    requires name != [] && Run(cfg, es).Some?
    ensures LaneOf(Run(cfg, es).value, name).lost == [] <==> NeverLoses(cfg, es, name)
  {
    if es != [] {
      LostExactly(cfg, es[..|es| - 1], name);
      Invariant(cfg, es[..|es| - 1], name, Closure(0, None));
      StepLoses(cfg, Run(cfg, es[..|es| - 1]).value, es[|es| - 1], name);
    }
  }

  /**
   * In every run, with any results, write failures and connection errors: each acceptance of a closure
   * still waits, was completed or was lost, so a closure accepted once is in flight, queued, run with a
   * result, run with an error or lost, just one of them, and it never runs twice.  Closures are lost if
   * and only if a result comes while the call queued behind it is too long.
   */
  lemma Conservation(cfg: Config, es: seq<Event>, name: Bytes, c: Closure)
    requires name != [] && Run(cfg, es).Some?
    ensures
      var l := LaneOf(Run(cfg, es).value, name);
      && CountCalls(c, l.accepted) == CountWaiting(c, l) + CountCompleted(c, l) + CountRuns(c, l.lost)
      && (CountCalls(c, l.accepted) <= 1 ==> CountRuns(c, l.invoked) + CountRuns(c, l.failed) <= 1)
      && (l.lost == [] <==> NeverLoses(cfg, es, name))
  {
    Invariant(cfg, es, name, c);
    LostExactly(cfg, es, name);
  }

  /**
   * The admission bound, exact in every reachable state: calls in flight and queued never exceed
   * MaxCallsInProgress, and on an open transport send_call throws, and then changes nothing, if and only
   * if that many are there already, or the call would be written at once and is too long.  A call whose
   * write fails is not accepted: its own closure is run at once with the error of the socket.
   */
  lemma Admission(cfg: Config, es: seq<Event>, s: ClientState, name: Bytes, call: Call, ec: Error)
    requires name != [] && 0 < cfg.limit && Run(cfg, es) == Some(s)
    ensures
      var (s1, outcome) := SendCall(s, name, call, ec);
      var load := Load(LaneOf(s, name));
      && load <= cfg.limit
      && (s.phase == OPEN ==> (outcome == LimitExceeded <==> load == cfg.limit))
      && (s.phase == OPEN ==> (outcome == CallTooLong <==> name !in s.closures && !CanWrite(Named(name, call.args))))
      && (s.phase != OPEN <==> outcome == NotOpen)
      && (outcome == LimitExceeded || outcome == NotOpen || outcome == CallTooLong ==> s1 == s)
      && (outcome == Written || outcome == Enqueued ==>
            Load(LaneOf(s1, name)) == load + 1 && s1.accepted == s.accepted + [Named(name, call)]
            && s1.refused == s.refused)
      && (outcome == WriteFailed <==>
            s.phase == OPEN && name !in s.closures && CanWrite(Named(name, call.args)) && ec.code != 0)
      && (outcome == WriteFailed ==>
            s1 == s.(phase := CLOSED, refused := s.refused + [Named(name, (call.closure, ec))]))
  {
    Invariant(cfg, es, name, call.closure);
    CallOnLane(s, name, call, ec, name);
  }

  /** The closures that the calls of a run ran at once, with the errors of their own writes. */
  function RefusedBy(cfg: Config, es: seq<Event>): seq<Named<(Closure, Error)>>
    requires Run(cfg, es).Some?
  {
    if es == [] then []
    else
      var s := Run(cfg, es[..|es| - 1]).value;
      RefusedBy(cfg, es[..|es| - 1]) +
      match es[|es| - 1]
      case Called(name, call, ec) =>
        if s.phase == OPEN && name !in s.closures && CanWrite(Named(name, call.args)) && ec.code != 0
        then [Named(name, (call.closure, ec))] else []
      case _ => []
  }

  lemma StepRefused(cfg: Config, s: ClientState, e: Event)
    requires Enabled(cfg, s, e) && !e.Called?
    ensures Apply(cfg, s, e).refused == s.refused
  {
  }

  /** In every run a closure is run at once if and only if its call could be written and was not. */
  lemma {:induction false} RefusedExactly(cfg: Config, es: seq<Event>)
    requires Run(cfg, es).Some?
    ensures Run(cfg, es).value.refused == RefusedBy(cfg, es)
  {
    if es != [] {
      var s, e := Run(cfg, es[..|es| - 1]).value, es[|es| - 1];
      RefusedExactly(cfg, es[..|es| - 1]);
      if !e.Called? {
        StepRefused(cfg, s, e);
      }
    }
  }

  /** The arguments of the one-way calls of a function that a run wrote. */
  function OneWayBy(cfg: Config, es: seq<Event>, name: Bytes): seq<Bytes>
    requires Run(cfg, es).Some?
  {
    if es == [] then []
    else
      var s := Run(cfg, es[..|es| - 1]).value;
      OneWayBy(cfg, es[..|es| - 1], name) +
      match es[|es| - 1]
      case CalledOneWay(n, args, ec) =>
        if n == name && s.phase == OPEN && CanWrite(Named(n, args)) && ec.code == 0 then [args] else []
      case _ => []
  }

  /** In every run: of a one-way function nothing is in flight or queued, and its calls go out as they are made. */
  lemma {:induction false} OneWayExactly(cfg: Config, es: seq<Event>, name: Bytes)
    requires Run(cfg, es).Some? && name != [] && name in cfg.oneWay
    ensures
      var s := Run(cfg, es).value;
      name !in s.closures && QueueOf(s.queues, name) == [] && Of(name, s.sent) == OneWayBy(cfg, es, name)
  {
    if es != [] {
      var s, e := Run(cfg, es[..|es| - 1]).value, es[|es| - 1];
      OneWayExactly(cfg, es[..|es| - 1], name);
      ApplyOnLane(cfg, s, e, name);
      assert LaneOf(s, name).flying.None? && LaneOf(s, name).queue == [] && LaneOf(s, name).sent == Of(name, s.sent);
      var l := LaneOf(Apply(cfg, s, e), name);
      assert l.flying.None? && l.queue == [] && l.sent == Of(name, Apply(cfg, s, e).sent);
    }
  }

  // ---- order ----

  /**
   * One order for each function: the accepted calls are those completed, then the one in flight, then
   * those queued; the messages on the wire are those of the calls no longer queued, in that order.
   */
  predicate InOrder(phase: State, l: Lane) {
    var out := |l.invoked| + if l.flying.Some? then 1 else 0;
    && (l.flying.None? ==> l.queue == [])
    && |l.accepted| == out + |l.queue|
    && l.accepted[out..] == l.queue
    && (forall i | 0 <= i < |l.invoked| :: l.invoked[i].closure == l.accepted[i].closure)
    && (l.flying.Some? ==> l.flying.value == l.accepted[|l.invoked|].closure)
    && |l.sent| <= out && (phase != CLOSED ==> |l.sent| == out)
    && (forall i | 0 <= i < |l.sent| :: l.sent[i] == l.accepted[i].args)
    && (phase == NEW ==> l.accepted == [])
  }

  lemma CallKeepsOrder(limit: nat, phase: State, l: Lane, call: Call, fits: bool, ec: Error)
    requires InOrder(phase, l)
    ensures InOrder(if phase == OPEN && l.flying.None? && fits && ec.code != 0 then CLOSED else phase,
                    CallLane(limit, phase, l, call, fits, ec))
  {
  }

  lemma NextKeepsOrder(phase: State, l: Lane, archive: Bytes, ec: Error)
    requires InOrder(phase, l) && l.queue != [] && l.flying.Some?
    ensures
      var l1 := NextLane(phase, l, ec).(invoked := l.invoked + [Invocation(l.flying.value, archive)]);
      InOrder(if phase == OPEN && ec.code != 0 then CLOSED else phase, l1)
  {
    assert l.accepted[|l.invoked| + 1] == l.queue[0];
    assert l.accepted[|l.invoked| + 2..] == l.queue[1..];
  }

  lemma ResultKeepsOrder(limit: nat, phase: State, l: Lane, archive: Bytes, ec: Error)
    requires InOrder(phase, l) && (l.queue == [] || |l.queue| + 1 <= limit)
    ensures InOrder(if phase == OPEN && ec.code != 0 then CLOSED else phase,
                    ResultLane(limit, phase, l, archive, true, ec))
    ensures l.queue == [] ==> InOrder(phase, ResultLane(limit, phase, l, archive, true, ec))
  {
    if l.queue != [] {
      NextKeepsOrder(phase, l, archive, ec);
    } else if l.flying.Some? {
      LastKeepsOrder(phase, l, archive);
      ClosingKeepsOrder(phase, ResultLane(limit, phase, l, archive, true, ec));
    } else {
      ClosingKeepsOrder(phase, l);
    }
  }

  lemma LastKeepsOrder(phase: State, l: Lane, archive: Bytes)
    requires InOrder(phase, l) && l.queue == [] && l.flying.Some?
    ensures InOrder(phase, l.(flying := None, invoked := l.invoked + [Invocation(l.flying.value, archive)]))
  {
  }

  lemma ClosingKeepsOrder(phase: State, l: Lane)
    requires InOrder(phase, l)
    ensures InOrder(CLOSED, l)
  {
  }

  lemma DispatchKeepsOrder(s: ClientState, n: Bytes, archive: Bytes, ec: Error, name: Bytes)
    requires InOrder(s.phase, LaneOf(s, name))
    requires LaneOf(s, name).queue == [] || |LaneOf(s, name).queue| + 1 <= s.limit
    requires n == name && n in s.closures ==> NextFits(s, n)
    ensures
      var s1 := DispatchResult(s, n, archive, ec).0;
      InOrder(s1.phase, LaneOf(s1, name))
  {
    ResultOnLane(s, n, archive, ec, name);
    DispatchPhase(s, n, archive, ec);
    ClosingKeepsOrder(s.phase, LaneOf(s, name));
    ResultKeepsOrder(s.limit, s.phase, LaneOf(s, name), archive, ec);
  }

  lemma CalledKeepsOrder(s: ClientState, n: Bytes, call: Call, ec: Error, name: Bytes)
    requires InOrder(s.phase, LaneOf(s, name))
    ensures
      var s1 := SendCall(s, n, call, ec).0;
      InOrder(s1.phase, LaneOf(s1, name))
  {
    CallOnLane(s, n, call, ec, name);
    ClosingKeepsOrder(s.phase, LaneOf(s, name));
    CallKeepsOrder(s.limit, s.phase, LaneOf(s, name), call, CanWrite(Named(n, call.args)), ec);
  }

  lemma OneWayPhase(s: ClientState, name: Bytes, args: Bytes, ec: Error)
    ensures SendOneWay(s, name, args, ec).0.phase in {s.phase, CLOSED}
  {
  }

  lemma OthersKeepLane(cfg: Config, s: ClientState, e: Event, name: Bytes)
    requires name != [] && name !in cfg.oneWay && Enabled(cfg, s, e) && (e.Opened? || e.Closed? || e.CalledOneWay?)
    ensures LaneOf(Apply(cfg, s, e), name) == LaneOf(s, name)
    ensures Apply(cfg, s, e).phase in {s.phase, CLOSED} || s.phase == NEW
  {
    if e.Opened? {
      assert Apply(cfg, s, e) == Open(s);
    } else if e.Closed? {
      assert Apply(cfg, s, e) == Close(s);
    } else {
      OneWayOnLane(s, e.name, e.args, e.ec, name);
      OneWayPhase(s, e.name, e.args, e.ec);
    }
  }

  lemma StepKeepsOrder(cfg: Config, s: ClientState, e: Event, name: Bytes)
    requires name != [] && name !in cfg.oneWay && Enabled(cfg, s, e) && !e.Broken?
    requires InOrder(s.phase, LaneOf(s, name))
    requires LaneOf(s, name).queue == [] || |LaneOf(s, name).queue| + 1 <= s.limit
    requires !Loses(cfg, s, e, name)
    ensures InOrder(Apply(cfg, s, e).phase, LaneOf(Apply(cfg, s, e), name))
  {
    match e
    case Called(n, call, ec) => CalledKeepsOrder(s, n, call, ec, name);
    case Received(m, ec) => if m.name != cfg.broadcast { DispatchKeepsOrder(s, m.name, m.item, ec, name); }
    case _ => OthersKeepLane(cfg, s, e, name); ClosingKeepsOrder(s.phase, LaneOf(s, name));
  }

  /** A lost closure is missing from the order for ever. */
  lemma LostBreaksOrder(limit: nat, phase: State, l: Lane, c: Closure)
    requires Conserved(limit, l, c) && l.lost != []
    ensures !InOrder(phase, l)
  {
  }

  /**
   * Re-entrant FIFO.  In every run without connection error, with calls made at any time (also from inside
   * a closure: dispatch_result changes nothing after it runs one), acceptance, wire and completion follow
   * one order per function, and a queue that is not empty has a call in flight ahead of it, if and only if
   * no result came while the call queued behind it was too long.
   */
  lemma {:induction false} Fifo(cfg: Config, es: seq<Event>, name: Bytes)
    requires name != [] && name !in cfg.oneWay && Run(cfg, es).Some?
    requires forall e | e in es :: !e.Broken?
    ensures InOrder(Run(cfg, es).value.phase, LaneOf(Run(cfg, es).value, name)) <==> NeverLoses(cfg, es, name)
  {
    if es != [] {
      var before, e := es[..|es| - 1], es[|es| - 1];
      assert forall x | x in before :: x in es;
      assert e in es;
      Fifo(cfg, before, name);
      Invariant(cfg, before, name, Closure(0, None));
      if NeverLoses(cfg, es, name) {
        StepKeepsOrder(cfg, Run(cfg, before).value, e, name);
      } else {
        var s := Run(cfg, es).value;
        LostExactly(cfg, es, name);
        Invariant(cfg, es, name, Closure(0, None));
        LostBreaksOrder(cfg.limit, s.phase, LaneOf(s, name), Closure(0, None));
      }
    }
  }

  // ---- order after connection errors ----

  /** On a transport still open the wire has the accepted calls in their order, and the others wait in it. */
  predicate OneOrder(phase: State, l: Lane) {
    && (phase == NEW ==> l.accepted == [] && l.sent == [] && l.queue == [])
    && (phase == OPEN ==>
          && |l.sent| + |l.queue| == |l.accepted| && l.accepted[|l.sent|..] == l.queue
          && forall i | 0 <= i < |l.sent| :: l.sent[i] == l.accepted[i].args)
  }

  /** A call is written although earlier ones wait, with none in flight. */
  predicate Overtakes(s: ClientState, e: Event, name: Bytes) {
    && e.Called? && e.name == name && e.ec.code == 0 && s.phase == OPEN && CanWrite(Named(name, e.call.args))
    && name !in s.closures && QueueOf(s.queues, name) != []
  }

  predicate NoOvertaking(cfg: Config, es: seq<Event>, name: Bytes)
    requires Run(cfg, es).Some?
  {
    es != [] ==>
      && NoOvertaking(cfg, es[..|es| - 1], name)
      && !Overtakes(Run(cfg, es[..|es| - 1]).value, es[|es| - 1], name)
  }

  lemma CallLaneOrder(limit: nat, phase: State, l: Lane, call: Call, fits: bool, ec: Error)
    requires OneOrder(phase, l) && (phase == OPEN && fits && ec.code == 0 && l.flying.None? ==> l.queue == [])
    ensures OneOrder(phase, CallLane(limit, phase, l, call, fits, ec))
            || (phase == OPEN && fits && ec.code != 0 && l.flying.None?)
  {
  }

  lemma CallPhase(s: ClientState, name: Bytes, call: Call, ec: Error)
    ensures SendCall(s, name, call, ec).0.phase
         == if s.phase == OPEN && name !in s.closures && CanWrite(Named(name, call.args)) && ec.code != 0 then CLOSED
            else s.phase
  {
  }

  lemma CallOrder(s: ClientState, call: Call, ec: Error, name: Bytes)
    requires OneOrder(s.phase, LaneOf(s, name)) && !Overtakes(s, Called(name, call, ec), name)
    ensures
      var s1 := SendCall(s, name, call, ec).0;
      OneOrder(s1.phase, LaneOf(s1, name))
  {
    CallOnLane(s, name, call, ec, name);
    CallPhase(s, name, call, ec);
    CallLaneOrder(s.limit, s.phase, LaneOf(s, name), call, CanWrite(Named(name, call.args)), ec);
  }

  lemma OvertakingOrder(s: ClientState, call: Call, ec: Error, name: Bytes)
    requires OneOrder(s.phase, LaneOf(s, name)) && Overtakes(s, Called(name, call, ec), name)
    requires call !in QueueOf(s.queues, name)
    ensures
      var s1 := SendCall(s, name, call, ec).0;
      !OneOrder(s1.phase, LaneOf(s1, name))
  {
    CallOnLane(s, name, call, ec, name);
    var l, l1 := LaneOf(s, name), LaneOf(SendCall(s, name, call, ec).0, name);
    assert l1.accepted[|l1.sent|..][|l.queue| - 1] == call;
  }

  lemma OtherCallOrder(s: ClientState, n: Bytes, call: Call, ec: Error, name: Bytes)
    requires n != name && OneOrder(s.phase, LaneOf(s, name))
    ensures
      var s1 := SendCall(s, n, call, ec).0;
      OneOrder(s1.phase, LaneOf(s1, name))
  {
    CallOnLane(s, n, call, ec, name);
    CallPhase(s, n, call, ec);
  }

  lemma ResultLaneOrder(limit: nat, phase: State, l: Lane, archive: Bytes, fits: bool, ec: Error)
    requires OneOrder(phase, l)
    ensures OneOrder(phase, ResultLane(limit, phase, l, archive, fits, ec))
            || (phase == OPEN && l.queue != [] && fits && ec.code != 0 && 1 < limit && l.flying.Some?)
  {
    if phase == OPEN && l.queue != [] {
      assert l.accepted[|l.sent|] == l.queue[0];
      assert l.accepted[|l.sent| + 1..] == l.queue[1..];
    }
  }

  lemma DispatchOrder(s: ClientState, n: Bytes, archive: Bytes, ec: Error, name: Bytes)
    requires OneOrder(s.phase, LaneOf(s, name))
    ensures
      var s1 := DispatchResult(s, n, archive, ec).0;
      OneOrder(s1.phase, LaneOf(s1, name))
  {
    ResultOnLane(s, n, archive, ec, name);
    ResultLaneOrder(s.limit, s.phase, LaneOf(s, name), archive, NextFits(s, n), ec);
    DispatchPhase(s, n, archive, ec);
  }

  lemma StepOneOrder(cfg: Config, s: ClientState, e: Event, name: Bytes)
    requires name != [] && name !in cfg.oneWay && Enabled(cfg, s, e)
    requires OneOrder(s.phase, LaneOf(s, name)) && !Overtakes(s, e, name)
    ensures OneOrder(Apply(cfg, s, e).phase, LaneOf(Apply(cfg, s, e), name))
  {
    match e
    case Called(n, call, ec) =>
      if n == name { CallOrder(s, call, ec, name); } else { OtherCallOrder(s, n, call, ec, name); }
    case Received(m, ec) => DispatchOrder(s, m.name, m.item, ec, name);
    case Broken(archive, order) => ErrorOnLane(s, archive, order, name);
    case _ => OthersKeepLane(cfg, s, e, name);
  }

  lemma {:induction false} OneOrderUntilOvertaken(cfg: Config, es: seq<Event>, name: Bytes)
    requires name != [] && name !in cfg.oneWay && Run(cfg, es).Some? && NoOvertaking(cfg, es, name)
    ensures OneOrder(Run(cfg, es).value.phase, LaneOf(Run(cfg, es).value, name))
  {
    if es != [] {
      OneOrderUntilOvertaken(cfg, es[..|es| - 1], name);
      StepOneOrder(cfg, Run(cfg, es[..|es| - 1]).value, es[|es| - 1], name);
    }
  }

  lemma OvertakingNeedsError(cfg: Config, es: seq<Event>, s: ClientState, name: Bytes)
    requires name != [] && name !in cfg.oneWay && Run(cfg, es) == Some(s)
    requires name !in s.closures && QueueOf(s.queues, name) != []
    ensures (exists b :: b in es && b.Broken?) || !NeverLoses(cfg, es, name)
  {
    if forall b | b in es :: !b.Broken? {
      Fifo(cfg, es, name);
    }
  }

  /**
   * In every run, connection errors included: calls go out in the order in which they were accepted, until
   * and only until one is written while others wait with none in flight, which takes a connection error
   * that left the transport open, or a result that was lost because the next queued call is too long.
   */
  lemma CallsOvertaken(cfg: Config, es: seq<Event>, s: ClientState, name: Bytes, call: Call, ec: Error)
    requires name != [] && name !in cfg.oneWay && Run(cfg, es) == Some(s) && NoOvertaking(cfg, es, name)
    requires call !in QueueOf(s.queues, name)
    ensures
      var s1 := SendCall(s, name, call, ec).0;
      OneOrder(s1.phase, LaneOf(s1, name)) <==> !Overtakes(s, Called(name, call, ec), name)
    ensures Overtakes(s, Called(name, call, ec), name) ==>
      (exists b :: b in es && b.Broken?) || !NeverLoses(cfg, es, name)
  {
    OneOrderUntilOvertaken(cfg, es, name);
    if Overtakes(s, Called(name, call, ec), name) {
      OvertakingOrder(s, call, ec, name);
      OvertakingNeedsError(cfg, es, s, name);
    } else {
      CallOrder(s, call, ec, name);
    }
  }

  /** Such a state is reached: two calls, a receive error that leaves the transport open, and a third call. */
  lemma OvertakingIsReached(cfg: Config, name: Bytes, a: Call, b: Call, archive: Bytes, c: Call)
    requires name != [] && name !in cfg.oneWay && cfg.limit == 2 && c != b
    requires CanWrite(Named(name, a.args)) && CanWrite(Named(name, c.args))
    ensures
      var es := [Opened, Called(name, a, NO_ERROR), Called(name, b, NO_ERROR), Broken(archive, [name])];
      && Run(cfg, es).Some? && NoOvertaking(cfg, es, name)
      && var s := Run(cfg, es).value;
         && Overtakes(s, Called(name, c, NO_ERROR), name) && QueueOf(s.queues, name) == [b]
         && var s1 := SendCall(s, name, c, NO_ERROR).0;
            s1.sent == [Named(name, a.args), Named(name, c.args)]
            && s1.accepted == [Named(name, a), Named(name, b), Named(name, c)]
  {
    var es := [Opened, Called(name, a, NO_ERROR), Called(name, b, NO_ERROR), Broken(archive, [name])];
    assert es[..0] == [] && es[..4] == es;
    RunNext(cfg, es, name, 0);
    RunNext(cfg, es, name, 1);
    RunNext(cfg, es, name, 2);
    var s := Run(cfg, es[..3]).value;
    assert s.closures.Keys == {name} && QueueOf(s.queues, name) == [b];
    RunNext(cfg, es, name, 3);
  }

  /**
   * The run that loses a result: the second of two calls is queued although it is too long.  The result of
   * the first comes, its closure is not run, and the second stays queued with none in flight; a third call
   * then goes out before it.
   */
  lemma LossIsReached(cfg: Config, name: Bytes, a: Call, b: Call, archive: Bytes, c: Call)
    requires name != [] && name !in cfg.oneWay && name != cfg.broadcast && cfg.limit == 2 && c != b
    requires CanWrite(Named(name, a.args)) && !CanWrite(Named(name, b.args)) && CanWrite(Named(name, c.args))
    ensures
      var es := [Opened, Called(name, a, NO_ERROR), Called(name, b, NO_ERROR), Received(Named(name, archive), NO_ERROR)];
      && Run(cfg, es).Some? && NoOvertaking(cfg, es, name) && !NeverLoses(cfg, es, name)
      && var s := Run(cfg, es).value;
         && s.lost == [Named(name, Invocation(a.closure, archive))] && s.invoked == [] && s.failed == []
         && s.phase == OPEN && s.closures == map[] && QueueOf(s.queues, name) == [b]
         && Overtakes(s, Called(name, c, NO_ERROR), name)
  {
    var es := [Opened, Called(name, a, NO_ERROR), Called(name, b, NO_ERROR), Received(Named(name, archive), NO_ERROR)];
    assert es[..0] == [] && es[..4] == es;
    RunNext(cfg, es, name, 0);
    RunNext(cfg, es, name, 1);
    RunNext(cfg, es, name, 2);
    var s := Run(cfg, es[..3]).value;
    assert s.closures.Keys == {name} && QueueOf(s.queues, name) == [b];
    assert s.closures - {name} == map[];
    RunNext(cfg, es, name, 3);
    assert es[..|es| - 1] == es[..3];
  }

  /** There are such calls: one argument of that many bytes is enough. */
  lemma TooLongExists(name: Bytes, args: Bytes)
    requires |args| >= MAX_SIZE
    ensures !CanWrite(Named(name, args))
  {
  }

  lemma RunNext(cfg: Config, es: seq<Event>, name: Bytes, i: nat)
    requires i < |es| && Run(cfg, es[..i]).Some? && Enabled(cfg, Run(cfg, es[..i]).value, es[i])
    requires NoOvertaking(cfg, es[..i], name) && !Overtakes(Run(cfg, es[..i]).value, es[i], name)
    ensures Run(cfg, es[..i + 1]) == Some(Apply(cfg, Run(cfg, es[..i]).value, es[i]))
    ensures NoOvertaking(cfg, es[..i + 1], name)
  {
    assert es[..i + 1][..i] == es[..i];
  }

  /**
   * What a connection error does, in full: no closure is left in flight and every queue is as it was;
   * each closure that was in flight ran once more than before, on an archive from which a closure of its
   * type decodes just that error, if the error has a code or its type is void, and nothing otherwise.
   */
  lemma ConnectionErrorReachesAll(s: ClientState, e: Error, order: seq<Bytes>, name: Bytes)
    requires IsOrder(order, s.closures.Keys) && IsError(e) && name != []
    ensures
      var archive := EncodeResult(Result(e, None));
      var s1 := ConnectionError(s, archive, order);
      && s1.closures == map[] && s1.queues == s.queues && s1.phase == s.phase
      && (name !in s.closures ==> Of(name, s1.failed) == Of(name, s.failed))
      && (name in s.closures ==>
            var closure := s.closures[name];
            && Of(name, s1.failed) == Of(name, s.failed) + [Invocation(closure, archive)]
            && (e.code != 0 || closure.result.None? <==> DecodeResult(closure.result, archive).Some?)
            && (e.code != 0 ==>
                  DecodeResult(closure.result, archive) == Some((Result(e, DefaultValue(closure.result)), []))))
  {
    var archive := EncodeResult(Result(e, None));
    ErrorOnLane(s, archive, order, name);
    assert LaneOf(s, name).failed == Of(name, s.failed);
    var s1 := ConnectionError(s, archive, order);
    assert LaneOf(s1, name).failed == Of(name, s1.failed);
    if name in s.closures {
      ErrorIsTypeAgnostic(e, s.closures[name].result);
    }
  }
}
