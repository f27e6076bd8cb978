/**
 * One connection seen through one two-way function: everything the client, the service and the two links
 * hold for it.  There are no call ids anywhere in this state; what relates a result to its call is `Good`.
 */
module Tracks {
  import opened Wrappers
  import opened ByteStrings
  import opened Results
  import opened Connections
  import opened CallQueues
  import opened ClientModel
  import opened Lanes

  datatype Track = Track(
    l: Lane,                    // the client
    up: seq<Bytes>,             // call messages on their way to the service
    served: seq<Bytes>,         // calls the service function was run with, in order
    answers: seq<Bytes>,        // results its closures were called with, in order
    down: seq<Bytes>,           // result messages on their way to the client
    pending: nat,               // entries in the service's pending-call multimap
    held: nat)                  // service closures that were not called yet

  /** The client did something: what it wrote is now on its way. */
  function OfClient(tr: Track, l: Lane): Track
    requires |tr.l.sent| <= |l.sent|
  {
    tr.(l := l, up := tr.up + l.sent[|tr.l.sent|..])
  }

  function DispatchTrack(tr: Track, reply: Option<Bytes>): Track
    requires tr.up != []
  {
    if tr.pending != 0 then
      tr.(up := tr.up[1..], down := tr.down + if reply.Some? then [reply.value] else [])
    else
      tr.(up := tr.up[1..], served := tr.served + [tr.up[0]], pending := 1, held := tr.held + 1)
  }

  function AnswerTrack(tr: Track, archive: Bytes, sent: bool): Track
    requires tr.pending != 0 && tr.held != 0
  {
    tr.(pending := tr.pending - 1, held := tr.held - 1, answers := tr.answers + [archive],
        down := if sent then tr.down + [archive] else tr.down)
  }

  /**
   * What holds of every connection, whatever failed on it: the i-th closure that was run with a result
   * belongs to the i-th accepted call, and got the i-th answer, to that very call.
   */
  predicate Settled(tr: Track) {
    var n := |tr.l.invoked|;
    && tr.held == tr.pending <= 1
    && |tr.served| == |tr.answers| + tr.pending
    && n <= |tr.l.accepted| && n <= |tr.answers|
    && (forall i | 0 <= i < n ::
          tr.l.invoked[i] == Invocation(tr.l.accepted[i].closure, tr.answers[i])
          && tr.served[i] == tr.l.accepted[i].args)
  }

  /**
   * And while the client still reads: calls complete, fly and wait in the order of acceptance, and the call
   * in flight has at most one token among the request, the pending call and the result.
   */
  predicate Ordered(limit: nat, tr: Track) {
    var n := |tr.l.invoked|;
    var out := n + if tr.l.flying.Some? then 1 else 0;
    && (tr.l.queue == [] || (tr.l.flying.Some? && |tr.l.queue| + 1 <= limit))
    && |tr.l.accepted| == out + |tr.l.queue|
    && tr.l.accepted[out..] == tr.l.queue
    && (tr.l.flying.Some? ==> tr.l.flying.value == tr.l.accepted[n].closure)
  }

  predicate OneToken(tr: Track) {
    var n := |tr.l.invoked|;
    && |tr.up| + tr.pending + |tr.down| <= (if tr.l.flying.Some? then 1 else 0)
    && |tr.served| <= n + (if tr.l.flying.Some? then 1 else 0) <= |tr.l.accepted|
    && (n < |tr.served| ==> tr.served[n] == tr.l.accepted[n].args)
    && (tr.up != [] ==> |tr.served| == n && tr.up[0] == tr.l.accepted[n].args)
    && (tr.down != [] ==> |tr.answers| == n + 1 && tr.down[0] == tr.answers[n])
  }

  predicate Reading(limit: nat, tr: Track) {
    Settled(tr) && Ordered(limit, tr) && OneToken(tr)
  }

  /** Nothing failed so far: the call in flight has its token. */
  predicate Live(tr: Track) {
    |tr.up| + tr.pending + |tr.down| == (if tr.l.flying.Some? then 1 else 0)
  }

  predicate Good(limit: nat, tr: Track, reading: bool, live: bool) {
    && Settled(tr)
    && (reading ==> Ordered(limit, tr) && OneToken(tr))
    && (live ==> reading && Live(tr))
  }

  // ---- the client calls ----

  lemma CallSettled(limit: nat, phase: State, tr: Track, call: Call, fits: bool, ec: Error)
    requires Settled(tr)
    ensures Settled(OfClient(tr, CallLane(limit, phase, tr.l, call, fits, ec)))
  {
  }

  lemma CallReading(limit: nat, phase: State, tr: Track, call: Call, fits: bool, ec: Error)
    requires Reading(limit, tr)
    ensures Reading(limit, OfClient(tr, CallLane(limit, phase, tr.l, call, fits, ec)))
  {
    CallSettled(limit, phase, tr, call, fits, ec);
    var l := CallLane(limit, phase, tr.l, call, fits, ec);
    if l.sent != tr.l.sent {
      assert l.sent[|tr.l.sent|..] == [call.args];
    }
  }

  lemma CallLive(limit: nat, tr: Track, call: Call, fits: bool, ec: Error)
    requires Reading(limit, tr) && Live(tr) && (tr.l.flying.None? && fits ==> ec.code == 0)
    ensures Live(OfClient(tr, CallLane(limit, OPEN, tr.l, call, fits, ec)))
  {
  }

  // ---- the client gets a result ----

  lemma ResultSettled(limit: nat, phase: State, tr: Track, fits: bool, ec: Error)
    requires Reading(limit, tr) && tr.down != []
    ensures Settled(OfClient(tr.(down := tr.down[1..]), ResultLane(limit, phase, tr.l, tr.down[0], fits, ec)))
    ensures tr.l.flying.Some?
  {
  }

  lemma ResultReading(limit: nat, phase: State, tr: Track, ec: Error)
    requires Reading(limit, tr) && tr.down != []
    ensures Reading(limit, OfClient(tr.(down := tr.down[1..]), ResultLane(limit, phase, tr.l, tr.down[0], true, ec)))
  {
    ResultSettled(limit, phase, tr, true, ec);
    var l := ResultLane(limit, phase, tr.l, tr.down[0], true, ec);
    if tr.l.queue != [] {
      assert tr.l.accepted[|tr.l.invoked| + 1] == tr.l.queue[0];
    }
    if l.sent != tr.l.sent {
      assert l.sent[|tr.l.sent|..] == [tr.l.queue[0].args];
    }
  }

  lemma ResultLive(limit: nat, tr: Track, ec: Error)
    requires Reading(limit, tr) && Live(tr) && tr.down != [] && (tr.l.queue != [] ==> ec.code == 0)
    ensures Live(OfClient(tr.(down := tr.down[1..]), ResultLane(limit, OPEN, tr.l, tr.down[0], true, ec)))
  {
  }

  // ---- the service ----

  lemma DispatchGood(limit: nat, tr: Track, reply: Option<Bytes>, reading: bool, live: bool)
    requires Good(limit, tr, reading, live) && tr.up != []
    ensures Good(limit, DispatchTrack(tr, reply), reading, live)
    ensures reading ==> tr.pending == 0
  {
  }

  lemma AnswerGood(limit: nat, tr: Track, archive: Bytes, sent: bool, reading: bool, live: bool)
    requires Good(limit, tr, reading, live) && tr.held != 0
    ensures tr.pending != 0
    ensures Good(limit, AnswerTrack(tr, archive, sent), reading, live && sent)
  {
  }

  // ---- the connection breaks ----

  lemma BreakGood(limit: nat, tr: Track, archive: Bytes, reading: bool, live: bool)
    requires Good(limit, tr, reading, live)
    ensures Good(limit, OfClient(tr, ErrorLane(tr.l, archive)), false, false)
  {
    assert tr.up + [] == tr.up;
  }
}

/** Any number of clients and one service, joined by links that carry messages in order. */
module WholeSystem {
  import opened Wrappers
  import opened ByteStrings
  import opened Results
  import opened Messages
  import opened Connections
  import opened FunctionDictionary
  import opened CallQueues
  import opened ClientModel
  import opened Lanes
  import opened Tracks
  import opened ServiceModel

  /** Both sides were built from one interface: its functions, and the name under which events travel. */
  datatype Config = Config(dict: Dict, broadcast: Bytes)

  predicate IsConfig(cfg: Config) {
    [] !in cfg.dict && cfg.broadcast !in cfg.dict
  }

  predicate IsTwoWay(cfg: Config, name: Bytes) {
    name in cfg.dict && !cfg.dict[name].oneWay
  }

  datatype Conn = Conn(
    client: ClientState,
    reading: bool,          // a read of the client is in progress, so that it can be handed messages
    live: bool,             // nothing failed on this connection so far
    up: seq<Msg>,           // written by the client and not read by the service
    served: seq<Msg>,       // calls the service functions were run with
    answers: seq<Msg>,      // results the service closures were called with
    down: seq<Msg>)         // written by the service and not read by the client

  datatype Fault =
    | ClosureNotFound
    | ResultAlreadyDelivered
    | CallInProgress(c: nat)
    | FunctionNotFound
    | ResultLost(c: nat)     // the next queued call was too long

  datatype System = System(
    conns: seq<Conn>,                   // by identity; none is ever used twice
    service: ServiceState<nat>,
    held: multiset<(Bytes, nat)>,       // service closures that user code has and did not call yet
    faults: set<Fault>)                 // the error branches that were taken

  /** What can happen.  `ec` and `written` are the socket's answer to a write that the action makes. */
  datatype Label =
    | Connect(limit: nat)
    | CallTwoWay(c: nat, name: Bytes, call: Call, ec: Error)
    | CallOneWay(c: nat, name: Bytes, args: Bytes, ec: Error)
    | Deliver(c: nat, ec: Error)
    | Serve(c: nat, written: bool)
    | Answer(c: nat, name: Bytes, archive: Bytes, written: bool)
    | Broadcast(event: Bytes)
    | CloseClient(c: nat)
    | EndRead(c: nat)
    | BreakClient(c: nat, archive: Bytes, order: seq<Bytes>, recoverable: bool)
    | Disconnect(c: nat)

  const IN_PROGRESS := Error(115, "Operation now in progress")

  const IN_PROGRESS_ARCHIVE := EncodeResult(Result(IN_PROGRESS, None))

  function Init(cfg: Config): System {
    System([], ServiceModel.Start(cfg.dict), multiset{}, {})
  }

  predicate Enabled(cfg: Config, s: System, l: Label) {
    match l
    case Connect(limit) => 0 < limit
    case CallTwoWay(c, name, _, _) => c < |s.conns| && IsTwoWay(cfg, name)
    case CallOneWay(c, name, _, _) => c < |s.conns| && name in cfg.dict && cfg.dict[name].oneWay
    case Deliver(c, _) => c < |s.conns| && s.conns[c].reading && s.conns[c].down != []
    case Serve(c, _) => c < |s.conns| && c in s.service.clients && s.conns[c].up != []
    // Service code calls each closure it was given at most once.
    case Answer(c, name, _, _) => c < |s.conns| && (name, c) in s.held
    case Broadcast(_) => true
    case CloseClient(c) => c < |s.conns|
    case EndRead(c) => c < |s.conns| && s.conns[c].reading && s.conns[c].client.phase != OPEN
    case BreakClient(c, _, order, _) =>
      c < |s.conns| && s.conns[c].reading && IsOrder(order, s.conns[c].client.closures.Keys)
    case Disconnect(c) => c < |s.conns|
  }

  /** The client changed; what it wrote is now on its way. */
  function OfClientConn(k: Conn, client: ClientState): Conn
    requires |k.client.sent| <= |client.sent|
  {
    k.(client := client, up := k.up + client.sent[|k.client.sent|..], live := k.live && client.phase == OPEN)
  }

  function Set(s: System, c: nat, k: Conn): System
    requires c < |s.conns|
  {
    s.(conns := s.conns[c := k])
  }

  function AddFault(s: System, f: Fault): System {
    s.(faults := s.faults + {f})
  }

  /** An exception of the message handler leaves the read loop before the next read is started. */
  function DeliverConn(cfg: Config, k: Conn, ec: Error): (Conn, Dispatched)
    requires k.down != []
  {
    var (client, outcome) := HandleMessage(k.client, cfg.broadcast, k.down[0], ec);
    var k1 := OfClientConn(k.(down := k.down[1..]), client);
    (if outcome == Ran then k1 else EndReadConn(k1), outcome)
  }

  function DeliverFaults(outcome: Dispatched, c: nat): set<Fault> {
    match outcome
    case Ran => {}
    case NotAwaited => {ClosureNotFound}
    case Lost => {ResultLost(c)}
  }

  function DeliverAt(cfg: Config, s: System, c: nat, ec: Error): System
    requires c < |s.conns| && s.conns[c].down != []
  {
    var (k, outcome) := DeliverConn(cfg, s.conns[c], ec);
    s.(conns := s.conns[c := k], faults := s.faults + DeliverFaults(outcome, c))
  }

  function BreakConn(k: Conn, archive: Bytes, order: seq<Bytes>, recoverable: bool): Conn
    requires IsOrder(order, k.client.closures.Keys)
  {
    var failed := ConnectionError(k.client, archive, order);
    k.(client := if recoverable then failed else Close(failed), reading := false, live := false)
  }

  /** The read of the client ends and nobody is told. */
  function EndReadConn(k: Conn): Conn {
    k.(reading := false, live := false)
  }

  /** What a read of the client that completes with an error does: no other read is started. */
  function ReadFailedConn(k: Conn, ec: Error, order: seq<Bytes>): Conn
    requires IsOrder(order, k.client.closures.Keys)
  {
    k.(client := ClientModel.ReadFailed(k.client, ec, order), reading := false, live := false)
  }

  function ServeConn(k: Conn, outcome: DispatchOutcome, connected: bool, written: bool): Conn
    requires k.up != []
  {
    var m := k.up[0];
    k.(up := k.up[1..],
       served := if outcome == CalledTwoWay || outcome == CalledOneWay then k.served + [m] else k.served,
       down := if outcome == InProgress && written then k.down + [Named(m.name, IN_PROGRESS_ARCHIVE)] else k.down,
       live := k.live && connected)
  }

  function ServeFaults(outcome: DispatchOutcome, c: nat): set<Fault> {
    match outcome
    case UnknownFunction => {FunctionNotFound}
    case InProgress => {CallInProgress(c)}
    case _ => {}
  }

  /** The service takes the next call message of a client. */
  function ServeAt(s: System, c: nat, written: bool): System
    requires c < |s.conns| && s.conns[c].up != []
  {
    var name := s.conns[c].up[0].name;
    var (service, outcome) := Dispatch(s.service, c, name, written);
    System(
      s.conns[c := ServeConn(s.conns[c], outcome, c in service.clients, written)],
      service,
      s.held + if outcome == CalledTwoWay then multiset{(name, c)} else multiset{},
      s.faults + ServeFaults(outcome, c))
  }

  function AnswerConn(k: Conn, m: Msg, outcome: AnswerOutcome): Conn {
    if outcome == AlreadyDelivered then k
    else
      k.(answers := k.answers + [m],
         down := if outcome == ResultSent then k.down + [m] else k.down,
         live := k.live && outcome == ResultSent)
  }

  /** A service closure is called: also when it must not be, see ServiceClosures. */
  function AnswerAt(s: System, c: nat, name: Bytes, archive: Bytes, written: bool): System
    requires c < |s.conns|
  {
    var (service, outcome) := SendResult(s.service, c, name, written);
    System(
      s.conns[c := AnswerConn(s.conns[c], Named(name, archive), outcome)],
      service,
      s.held - multiset{(name, c)},
      if outcome == AlreadyDelivered then s.faults + {ResultAlreadyDelivered} else s.faults)
  }

  function BroadcastConn(cfg: Config, s: System, c: nat, event: Bytes): Conn
    requires c < |s.conns|
  {
    var k := s.conns[c];
    if c !in s.service.clients then k
    else k.(down := k.down + [Named(cfg.broadcast, event)])
  }

  function Apply(cfg: Config, s: System, l: Label): System
    requires Enabled(cfg, s, l)
  {
    match l
    case Connect(limit) =>
      var k := Conn(Open(ClientModel.Start(limit)), true, true, [], [], [], []);
      s.(conns := s.conns + [k], service := Accept(s.service, |s.conns|))
    case CallTwoWay(c, name, call, ec) =>
      Set(s, c, OfClientConn(s.conns[c], SendCall(s.conns[c].client, name, call, ec).0))
    case CallOneWay(c, name, args, ec) =>
      Set(s, c, OfClientConn(s.conns[c], SendOneWay(s.conns[c].client, name, args, ec).0))
    case Deliver(c, ec) => DeliverAt(cfg, s, c, ec)
    case Serve(c, written) => ServeAt(s, c, written)
    case Answer(c, name, archive, written) => AnswerAt(s, c, name, archive, written)
    case Broadcast(event) =>
      s.(conns := seq(|s.conns|, c requires 0 <= c < |s.conns| => BroadcastConn(cfg, s, c, event)))
    case CloseClient(c) => Set(s, c, OfClientConn(s.conns[c], Close(s.conns[c].client)))
    case EndRead(c) => Set(s, c, EndReadConn(s.conns[c]))
    case BreakClient(c, archive, order, recoverable) =>
      Set(s, c, BreakConn(s.conns[c], archive, order, recoverable))
    case Disconnect(c) =>
      Set(s.(service := ServiceModel.Disconnect(s.service, c)), c, s.conns[c].(live := false))
  }

  /** The state after a run, None when some step of the run was not possible. */
  function RunFrom(cfg: Config, s: System, ls: seq<Label>): Option<System> {
    if ls == [] then Some(s)
    else
      match RunFrom(cfg, s, ls[..|ls| - 1])
      case None => None
      case Some(s1) => if Enabled(cfg, s1, ls[|ls| - 1]) then Some(Apply(cfg, s1, ls[|ls| - 1])) else None
  }

  function Run(cfg: Config, ls: seq<Label>): Option<System> {
    RunFrom(cfg, Init(cfg), ls)
  }

  function TrackOf(k: Conn, name: Bytes, pending: nat, held: nat): Track {
    Track(LaneOf(k.client, name), Of(name, k.up), Of(name, k.served), Of(name, k.answers), Of(name, k.down),
          pending, held)
  }

  function TrackAt(s: System, c: nat, name: Bytes): Track
    requires c < |s.conns|
  {
    TrackOf(s.conns[c], name, s.service.pending[(name, c)], s.held[(name, c)])
  }
}
