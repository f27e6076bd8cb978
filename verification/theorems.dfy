/** The main results about the whole system. */
module SystemTheorems {
  import opened Wrappers
  import opened ByteStrings
  import opened Codec
  import opened Results
  import opened Messages
  import opened FunctionDictionary
  import opened CallQueues
  import opened ClientModel
  import opened Lanes
  import opened Tracks
  import opened ServiceModel
  import opened WholeSystem
  import opened SystemInvariant

  /** Requests on their way, pending calls and results on their way, of one function and client. */
  function Tokens(s: System, c: nat, name: Bytes): nat
    requires c < |s.conns|
  {
    |Of(name, s.conns[c].up)| + s.service.pending[(name, c)] + |Of(name, s.conns[c].down)|
  }

  lemma GoodAt(cfg: Config, ls: seq<Label>, c: nat, name: Bytes)
    requires IsConfig(cfg) && Run(cfg, ls).Some? && IsTwoWay(cfg, name) && c < |Run(cfg, ls).value.conns|
    ensures
      var s := Run(cfg, ls).value;
      Good(s.conns[c].client.limit, TrackAt(s, c, name), s.conns[c].reading, s.conns[c].live)
  {
    Reachable(cfg, ls);
    assert InvAt(cfg, Run(cfg, ls).value, c);
  }

  /**
   * Why a function name is enough to find the call a result belongs to: a call is in flight exactly when
   * one token exists for it, and there is never a second one.  After a failure, while the client still
   * reads, the token may be lost but none appears.
   */
  lemma NameOnlyCorrelation(cfg: Config, ls: seq<Label>, c: nat, name: Bytes)
    requires IsConfig(cfg) && Run(cfg, ls).Some? && IsTwoWay(cfg, name) && c < |Run(cfg, ls).value.conns|
    ensures
      var s := Run(cfg, ls).value;
      var k := s.conns[c];
      && (k.live ==> Tokens(s, c, name) == if name in k.client.closures then 1 else 0)
      && (k.reading ==> Tokens(s, c, name) <= if name in k.client.closures then 1 else 0)
      && s.service.pending[(name, c)] <= 1
  {
    GoodAt(cfg, ls, c, name);
  }

  /**
   * End to end, in every run with whatever failures: the i-th closure of a function that a client ran with
   * a result is that of its i-th accepted call, the service function was run with the arguments of that
   * call, and the result is the i-th that the service gave.
   */
  lemma EndToEnd(cfg: Config, ls: seq<Label>, c: nat, name: Bytes, i: nat)
    requires IsConfig(cfg) && Run(cfg, ls).Some? && IsTwoWay(cfg, name) && c < |Run(cfg, ls).value.conns|
    requires i < |Of(name, Run(cfg, ls).value.conns[c].client.invoked)|
    ensures
      var k := Run(cfg, ls).value.conns[c];
      var accepted, served, answers := Of(name, k.client.accepted), Of(name, k.served), Of(name, k.answers);
      && i < |accepted| && i < |served| && i < |answers|
      && served[i] == accepted[i].args
      && Of(name, k.client.invoked)[i] == Invocation(accepted[i].closure, answers[i])
  {
    GoodAt(cfg, ls, c, name);
  }

  /**
   * The same on values: if the call was made with arguments of the function's types and the service closure
   * with a result of its type, the function saw those arguments and the client closure sees that result.
   */
  lemma TypedEndToEnd(cfg: Config, ls: seq<Label>, c: nat, name: Bytes, i: nat, args: seq<Value>, r: Result)
    requires IsConfig(cfg) && Run(cfg, ls).Some? && IsTwoWay(cfg, name) && c < |Run(cfg, ls).value.conns|
    requires i < |Of(name, Run(cfg, ls).value.conns[c].client.invoked)|
    requires
      var k := Run(cfg, ls).value.conns[c];
      && i < |Of(name, k.client.accepted)| && Of(name, k.client.accepted)[i].args == EncodeAll(args)
      && Of(name, k.client.accepted)[i].closure.result == cfg.dict[name].result
      && i < |Of(name, k.answers)| && Of(name, k.answers)[i] == EncodeResult(r)
    requires HaveTypes(args, cfg.dict[name].args) && IsResult(r, cfg.dict[name].result)
    ensures
      var k := Run(cfg, ls).value.conns[c];
      var run := Of(name, k.client.invoked)[i];
      && i < |Of(name, k.served)|
      && CallOutcome(cfg.dict, Named(name, Of(name, k.served)[i])) == Called(name, args, cfg.dict[name])
      && DecodeResult(run.closure.result, run.archive) == Some((Received(r, cfg.dict[name].result), []))
  {
    EndToEnd(cfg, ls, c, name, i);
    ArgsRoundTrip(args, cfg.dict[name].args, []);
    assert [] + args == args;
    ResultRoundTrip(r, cfg.dict[name].result, []);
    assert EncodeResult(r) + [] == EncodeResult(r);
  }

  /**
   * No run reaches an error branch, except two: the service refuses a call in progress of a client that
   * does not read any more, and a client whose next queued call is too long loses a result, and stops
   * reading by that.
   */
  lemma ErrorBranches(cfg: Config, ls: seq<Label>)
    requires IsConfig(cfg) && Run(cfg, ls).Some?
    ensures
      var s := Run(cfg, ls).value;
      && ClosureNotFound !in s.faults && ResultAlreadyDelivered !in s.faults && FunctionNotFound !in s.faults
      && forall f | f in s.faults :: (f.CallInProgress? || f.ResultLost?) && f.c < |s.conns| && !s.conns[f.c].reading
  {
    Reachable(cfg, ls);
    var s := Run(cfg, ls).value;
    forall f | f in s.faults
      ensures (f.CallInProgress? || f.ResultLost?) && f.c < |s.conns| && !s.conns[f.c].reading
    {
      assert NoFault(s, f);
    }
  }

  // ---- refinement ----

  /** The simple form: a queue of calls, served, answered and completed in the order of acceptance. */
  datatype Fifo = Fifo(calls: seq<Call>, served: seq<Bytes>, answers: seq<Bytes>, completed: seq<Invocation>)

  ghost predicate FifoNext(a: Fifo, b: Fifo) {
    || b == a
    || (exists call :: b == a.(calls := a.calls + [call]))
    || (|a.served| < |a.calls| && b == a.(served := a.served + [a.calls[|a.served|].args]))
    || (|a.answers| < |a.served| && exists archive :: b == a.(answers := a.answers + [archive]))
    || (|a.completed| < |a.answers| && |a.completed| < |a.calls|
        && b == a.(completed := a.completed + [Invocation(a.calls[|a.completed|].closure, a.answers[|a.completed|])]))
  }

  function FifoOf(tr: Track): Fifo {
    Fifo(tr.l.accepted, tr.served, tr.answers, tr.l.invoked)
  }

  lemma CallRefines(cfg: Config, s: System, l: Label, name: Bytes)
    requires IsConfig(cfg) && Inv(cfg, s) && Enabled(cfg, s, l) && l.CallTwoWay? && IsTwoWay(cfg, name)
    ensures FifoNext(FifoOf(TrackAt(s, l.c, name)), FifoOf(TrackAt(Apply(cfg, s, l), l.c, name)))
  {
    CallOnLane(s.conns[l.c].client, l.name, l.call, l.ec, name);
    var a, b := FifoOf(TrackAt(s, l.c, name)), FifoOf(TrackAt(Apply(cfg, s, l), l.c, name));
    assert b == a || b == a.(calls := a.calls + [l.call]);
  }

  /** What a message from the service does to the four logs. */
  lemma DeliverOnFifo(cfg: Config, s: System, c: nat, ec: Error, name: Bytes)
    requires IsConfig(cfg) && Enabled(cfg, s, Deliver(c, ec)) && IsTwoWay(cfg, name)
    ensures
      var k := s.conns[c];
      var m := k.down[0];
      var a, b := FifoOf(TrackAt(s, c, name)), FifoOf(TrackAt(DeliverAt(cfg, s, c, ec), c, name));
      || b == a
      || (m.name == name && name in k.client.closures
          && b == a.(completed := a.completed + [Invocation(k.client.closures[name], m.item)]))
  {
    var k := s.conns[c];
    var m := k.down[0];
    ResultOnLane(k.client, m.name, m.item, ec, name);
    if m.name != cfg.broadcast {
      DeliverOnTrack(cfg, k, ec, name, 0, 0);
    }
  }

  lemma DeliverRefines(cfg: Config, s: System, l: Label, name: Bytes)
    requires IsConfig(cfg) && Inv(cfg, s) && Enabled(cfg, s, l) && l.Deliver? && IsTwoWay(cfg, name)
    ensures FifoNext(FifoOf(TrackAt(s, l.c, name)), FifoOf(TrackAt(Apply(cfg, s, l), l.c, name)))
  {
    var k := s.conns[l.c];
    assert InvAt(cfg, s, l.c);
    assert Good(k.client.limit, TrackAt(s, l.c, name), true, k.live);
    FrontOfDown(k, name);
    DeliverOnFifo(cfg, s, l.c, l.ec, name);
  }

  lemma ServeRefines(cfg: Config, s: System, l: Label, name: Bytes)
    requires IsConfig(cfg) && Inv(cfg, s) && Enabled(cfg, s, l) && l.Serve? && IsTwoWay(cfg, name)
    requires s.conns[l.c].reading
    ensures FifoNext(FifoOf(TrackAt(s, l.c, name)), FifoOf(TrackAt(Apply(cfg, s, l), l.c, name)))
  {
    var k := s.conns[l.c];
    assert InvAt(cfg, s, l.c);
    assert Good(k.client.limit, TrackAt(s, l.c, name), true, k.live);
    assert IsRequest(cfg, k.up[0]);
    ServeOnTrack(cfg, s, l.c, l.written, name);
  }

  lemma AnswerRefines(cfg: Config, s: System, l: Label, name: Bytes)
    requires IsConfig(cfg) && Inv(cfg, s) && Enabled(cfg, s, l) && l.Answer? && IsTwoWay(cfg, name)
    ensures FifoNext(FifoOf(TrackAt(s, l.c, name)), FifoOf(TrackAt(Apply(cfg, s, l), l.c, name)))
  {
    assert InvAt(cfg, s, l.c);
    assert IsTwoWay(cfg, (l.name, l.c).0);
    assert Settled(TrackAt(s, l.c, l.name)) && Settled(TrackAt(s, l.c, name));
    AnswerOnTrack(s, l.c, l.name, l.archive, l.written, name);
    var a, b := FifoOf(TrackAt(s, l.c, name)), FifoOf(TrackAt(Apply(cfg, s, l), l.c, name));
    assert b == a || b == a.(answers := a.answers + [l.archive]);
  }

  /** Any other step, or a step elsewhere, adds to none of the four logs. */
  lemma OthersStutter(cfg: Config, s: System, l: Label, c: nat, name: Bytes)
    requires Enabled(cfg, s, l) && c < |s.conns|
    requires !(l.CallTwoWay? || l.Deliver? || l.Serve? || l.Answer?) || l.c != c
    ensures c < |Apply(cfg, s, l).conns|
    ensures
      var k, k1 := s.conns[c], Apply(cfg, s, l).conns[c];
      && k1.client.accepted == k.client.accepted && k1.client.invoked == k.client.invoked
      && k1.served == k.served && k1.answers == k.answers
  {
  }

  /**
   * Refinement.  Seen through one function and a client that reads, every step of the system, of whichever
   * client, function or kind, is a step of the simple queue or changes nothing in it.
   */
  lemma RefinesFifo(cfg: Config, ls: seq<Label>, s: System, l: Label, c: nat, name: Bytes)
    requires IsConfig(cfg) && Run(cfg, ls) == Some(s) && Enabled(cfg, s, l)
    requires IsTwoWay(cfg, name) && c < |s.conns| && s.conns[c].reading
    ensures
      var s1 := Apply(cfg, s, l);
      c < |s1.conns| && FifoNext(FifoOf(TrackAt(s, c, name)), FifoOf(TrackAt(s1, c, name)))
  {
    Reachable(cfg, ls);
    match l
    case CallTwoWay(d, _, _, _) =>
      if d == c { CallRefines(cfg, s, l, name); } else { OthersStutter(cfg, s, l, c, name); }
    case Deliver(d, _) => if d == c { DeliverRefines(cfg, s, l, name); } else { OthersStutter(cfg, s, l, c, name); }
    case Serve(d, _) => if d == c { ServeRefines(cfg, s, l, name); } else { OthersStutter(cfg, s, l, c, name); }
    case Answer(d, _, _, _) => if d == c { AnswerRefines(cfg, s, l, name); } else { OthersStutter(cfg, s, l, c, name); }
    case _ => OthersStutter(cfg, s, l, c, name);
  }

  // ---- the order on the wire, of all functions of a client together ----

  predicate InWireOrder(k: Conn) {
    k.reading ==> k.served + k.up == k.client.sent
  }

  lemma OfClientWireOrder(k: Conn, client: ClientState)
    requires InWireOrder(k) && k.client.sent <= client.sent
    ensures InWireOrder(OfClientConn(k, client))
  {
    var more := client.sent[|k.client.sent|..];
    assert client.sent == k.client.sent + more;
    assert k.served + (k.up + more) == k.served + k.up + more;
  }

  lemma DeliverWireOrder(cfg: Config, k: Conn, ec: Error)
    requires k.down != [] && InWireOrder(k)
    ensures InWireOrder(DeliverConn(cfg, k, ec).0)
  {
    var m := k.down[0];
    DispatchSent(k.client, m.name, m.item, ec);
    OfClientWireOrder(k.(down := k.down[1..]), HandleMessage(k.client, cfg.broadcast, m, ec).0);
  }

  lemma CallsWireOrder(k: Conn, name: Bytes, call: Call, args: Bytes, ec: Error)
    requires InWireOrder(k)
    ensures k.client.sent <= SendCall(k.client, name, call, ec).0.sent
    ensures InWireOrder(OfClientConn(k, SendCall(k.client, name, call, ec).0))
    ensures k.client.sent <= SendOneWay(k.client, name, args, ec).0.sent
    ensures InWireOrder(OfClientConn(k, SendOneWay(k.client, name, args, ec).0))
  {
    CallSent(k.client, name, call, ec);
    OfClientWireOrder(k, SendCall(k.client, name, call, ec).0);
    OfClientWireOrder(k, SendOneWay(k.client, name, args, ec).0);
  }

  /** What the service takes from a client that reads it runs. */
  lemma ReadingIsServed(cfg: Config, s: System, c: nat, written: bool)
    requires Inv(cfg, s) && Enabled(cfg, s, Serve(c, written)) && s.conns[c].reading
    ensures
      var outcome := Dispatch(s.service, c, s.conns[c].up[0].name, written).1;
      outcome == CalledTwoWay || outcome == CalledOneWay
  {
    var k := s.conns[c];
    var m := k.up[0];
    assert InvAt(cfg, s, c);
    assert IsRequest(cfg, m);
    if IsTwoWay(cfg, m.name) {
      FrontOfUp(k, m.name);
      assert Good(k.client.limit, TrackAt(s, c, m.name), k.reading, k.live);
    }
  }

  lemma ServeWireOrder(cfg: Config, s: System, c: nat, written: bool)
    requires Inv(cfg, s) && Enabled(cfg, s, Serve(c, written)) && InWireOrder(s.conns[c])
    ensures InWireOrder(ServeAt(s, c, written).conns[c])
  {
    var k := s.conns[c];
    if k.reading {
      ReadingIsServed(cfg, s, c, written);
      assert k.served + k.up == (k.served + [k.up[0]]) + k.up[1..];
    }
  }

  lemma ElsewhereWireOrder(cfg: Config, s: System, l: Label, c: nat)
    requires Enabled(cfg, s, l) && c < |s.conns| && InWireOrder(s.conns[c])
    requires !(l.CallTwoWay? || l.CallOneWay? || l.Deliver? || l.Serve? || l.CloseClient?) || l.c != c
    ensures c < |Apply(cfg, s, l).conns| && InWireOrder(Apply(cfg, s, l).conns[c])
  {
    var k, k1 := s.conns[c], Apply(cfg, s, l).conns[c];
    assert k1.served == k.served && k1.up == k.up && k1.client.sent == k.client.sent;
  }

  lemma StepWireOrder(cfg: Config, s: System, l: Label, c: nat)
    requires IsConfig(cfg) && Inv(cfg, s) && Enabled(cfg, s, l) && c < |s.conns| && InWireOrder(s.conns[c])
    ensures c < |Apply(cfg, s, l).conns| && InWireOrder(Apply(cfg, s, l).conns[c])
  {
    var k := s.conns[c];
    if !(l.CallTwoWay? || l.CallOneWay? || l.Deliver? || l.Serve? || l.CloseClient?) || l.c != c {
      ElsewhereWireOrder(cfg, s, l, c);
    } else {
      match l
      case CallTwoWay(_, name, call, ec) => CallsWireOrder(k, name, call, [], ec);
      case CallOneWay(_, name, args, ec) => CallsWireOrder(k, name, Call(args, Closure(0, None)), args, ec);
      case Deliver(_, ec) => DeliverWireOrder(cfg, k, ec);
      case Serve(_, written) => ServeWireOrder(cfg, s, c, written);
      case CloseClient(_) => OfClientWireOrder(k, Close(k.client));
    }
  }

  /**
   * While a client reads, the calls that the service ran, one-way or not, and those on their way are all
   * the messages the client wrote, in the order in which it wrote them.
   */
  lemma {:induction false} WireOrder(cfg: Config, ls: seq<Label>, c: nat)
    requires IsConfig(cfg) && Run(cfg, ls).Some? && c < |Run(cfg, ls).value.conns|
    ensures InWireOrder(Run(cfg, ls).value.conns[c])
  {
    if ls != [] {
      var before, l := ls[..|ls| - 1], ls[|ls| - 1];
      var s := Run(cfg, before).value;
      Reachable(cfg, before);
      if c < |s.conns| {
        WireOrder(cfg, before, c);
        StepWireOrder(cfg, s, l, c);
      }
    }
  }
}

/** Where the guarantees end: what the code does just outside of their conditions. */
module Boundaries {
  import opened Wrappers
  import opened ByteStrings
  import opened Results
  import opened Messages
  import opened FunctionDictionary
  import opened CallQueues
  import opened ClientModel
  import opened Connections
  import opened ServiceModel
  import opened WholeSystem

  /**
   * The refusal of a call in progress is reached: a receive error that leaves the transport open fails the
   * call in flight, its client calls again, and the service still has the first call pending.
   */
  lemma CallInProgressIsReached(cfg: Config, name: Bytes, call: Call, archive: Bytes)
    requires IsConfig(cfg) && IsTwoWay(cfg, name) && CanWrite(Named(name, call.args))
    ensures
      var ls := [Connect(1), CallTwoWay(0, name, call, NO_ERROR), Serve(0, true),
                 BreakClient(0, archive, [name], true), CallTwoWay(0, name, call, NO_ERROR), Serve(0, true)];
      Run(cfg, ls).Some? && CallInProgress(0) in Run(cfg, ls).value.faults
  {
    var ls := [Connect(1), CallTwoWay(0, name, call, NO_ERROR), Serve(0, true),
               BreakClient(0, archive, [name], true), CallTwoWay(0, name, call, NO_ERROR), Serve(0, true)];
    var pending := [Connect(1), CallTwoWay(0, name, call, NO_ERROR), Serve(0, true)];
    CallIsPending(cfg, name, call);
    CallAgain(cfg, pending, name, call, archive);
    assert ls == pending + [ls[3]] + [ls[4]] + [ls[5]];
  }

  predicate IsPending(cfg: Config, s: System, name: Bytes) {
    && |s.conns| == 1 && s.service.dict == cfg.dict && s.service.clients == {0} && (name, 0) in s.service.pending
    && s.conns[0].reading && s.conns[0].up == []
    && s.conns[0].client.phase == OPEN && s.conns[0].client.closures.Keys == {name}
  }

  lemma CallIsPending(cfg: Config, name: Bytes, call: Call)
    requires IsConfig(cfg) && IsTwoWay(cfg, name) && CanWrite(Named(name, call.args))
    ensures
      var ls := [Connect(1), CallTwoWay(0, name, call, NO_ERROR), Serve(0, true)];
      Run(cfg, ls).Some? && IsPending(cfg, Run(cfg, ls).value, name)
  {
    var ls := [Connect(1), CallTwoWay(0, name, call, NO_ERROR), Serve(0, true)];
    RunOne(cfg, [], ls[0]);
    assert [] + [ls[0]] == [ls[0]];
    RunOne(cfg, [ls[0]], ls[1]);
    assert [ls[0]] + [ls[1]] == [ls[0], ls[1]];
    assert Run(cfg, [ls[0], ls[1]]).value.conns[0].up == [Named(name, call.args)];
    RunOne(cfg, [ls[0], ls[1]], ls[2]);
    assert [ls[0], ls[1]] + [ls[2]] == ls;
  }

  lemma CallAgain(cfg: Config, ls: seq<Label>, name: Bytes, call: Call, archive: Bytes)
    requires IsConfig(cfg) && IsTwoWay(cfg, name) && CanWrite(Named(name, call.args))
    requires Run(cfg, ls).Some? && IsPending(cfg, Run(cfg, ls).value, name)
    ensures
      var ls1 := ls + [BreakClient(0, archive, [name], true)] + [CallTwoWay(0, name, call, NO_ERROR)] + [Serve(0, true)];
      Run(cfg, ls1).Some? && CallInProgress(0) in Run(cfg, ls1).value.faults
  {
    var broken := ls + [BreakClient(0, archive, [name], true)];
    RunOne(cfg, ls, BreakClient(0, archive, [name], true));
    assert Run(cfg, broken).value.conns[0].client.closures == map[];
    RunOne(cfg, broken, CallTwoWay(0, name, call, NO_ERROR));
    RunOne(cfg, broken + [CallTwoWay(0, name, call, NO_ERROR)], Serve(0, true));
  }

  lemma RunOne(cfg: Config, ls: seq<Label>, l: Label)
    requires Run(cfg, ls).Some? && Enabled(cfg, Run(cfg, ls).value, l)
    ensures Run(cfg, ls + [l]) == Some(Apply(cfg, Run(cfg, ls).value, l))
  {
    assert (ls + [l])[..|ls|] == ls;
  }

  /**
   * The loss of a result is reached: a client with room for two calls makes two, the second of them too
   * long.  When the result of the first comes, its closure is not run and the client stops reading.
   */
  lemma ResultLostIsReached(cfg: Config, name: Bytes, a: Call, b: Call, archive: Bytes)
    requires IsConfig(cfg) && IsTwoWay(cfg, name)
    requires CanWrite(Named(name, a.args)) && !CanWrite(Named(name, b.args))
    ensures
      var ls := [Connect(2), CallTwoWay(0, name, a, NO_ERROR), CallTwoWay(0, name, b, NO_ERROR), Serve(0, true),
                 Answer(0, name, archive, true), Deliver(0, NO_ERROR)];
      Run(cfg, ls).Some? && IsLost(Run(cfg, ls).value, name, a, archive)
  {
    var ls := [Connect(2), CallTwoWay(0, name, a, NO_ERROR), CallTwoWay(0, name, b, NO_ERROR), Serve(0, true),
               Answer(0, name, archive, true), Deliver(0, NO_ERROR)];
    var behind := [Connect(2), CallTwoWay(0, name, a, NO_ERROR), CallTwoWay(0, name, b, NO_ERROR)];
    CallIsBehind(cfg, name, a, b);
    LostBehind(cfg, behind, name, a, b, archive);
    assert ls == behind + [ls[3]] + [ls[4]] + [ls[5]];
  }

  predicate IsLost(s: System, name: Bytes, a: Call, archive: Bytes) {
    && ResultLost(0) in s.faults && |s.conns| == 1
    && var k := s.conns[0];
       && !k.reading && k.client.phase == OPEN && k.client.invoked == []
       && k.client.lost == [Named(name, Invocation(a.closure, archive))]
  }

  /** The first call is on its way, the second waits in the client. */
  predicate IsBehind(cfg: Config, s: System, name: Bytes, a: Call, b: Call) {
    && |s.conns| == 1 && s.service.dict == cfg.dict && s.service.clients == {0} && s.held == multiset{}
    && s.service.pending == multiset{}
    && var k := s.conns[0];
       && k.reading && k.up == [Named(name, a.args)] && k.down == [] && k.client.phase == OPEN && k.client.limit == 2
       && name in k.client.closures && k.client.closures[name] == a.closure && QueueOf(k.client.queues, name) == [b]
       && k.client.invoked == [] && k.client.lost == []
  }

  lemma CallIsBehind(cfg: Config, name: Bytes, a: Call, b: Call)
    requires IsConfig(cfg) && IsTwoWay(cfg, name) && CanWrite(Named(name, a.args))
    ensures
      var ls := [Connect(2), CallTwoWay(0, name, a, NO_ERROR), CallTwoWay(0, name, b, NO_ERROR)];
      Run(cfg, ls).Some? && IsBehind(cfg, Run(cfg, ls).value, name, a, b)
  {
    var ls := [Connect(2), CallTwoWay(0, name, a, NO_ERROR), CallTwoWay(0, name, b, NO_ERROR)];
    RunOne(cfg, [], ls[0]);
    assert [] + [ls[0]] == [ls[0]];
    RunOne(cfg, [ls[0]], ls[1]);
    assert [ls[0]] + [ls[1]] == [ls[0], ls[1]];
    assert Run(cfg, [ls[0], ls[1]]).value.conns[0].up == [Named(name, a.args)];
    RunOne(cfg, [ls[0], ls[1]], ls[2]);
    assert [ls[0], ls[1]] + [ls[2]] == ls;
  }

  lemma ServeAndAnswer(cfg: Config, s: System, name: Bytes, a: Call, b: Call, archive: Bytes)
    requires IsConfig(cfg) && IsTwoWay(cfg, name) && IsBehind(cfg, s, name, a, b)
    ensures
      var s1 := ServeAt(s, 0, true);
      var s2 := AnswerAt(s1, 0, name, archive, true);
      && (name, 0) in s1.held && |s1.conns| == |s2.conns| == 1
      && s2.conns[0].down == [Named(name, archive)] && s2.conns[0].reading && s2.conns[0].client == s.conns[0].client
  {
    var s1 := ServeAt(s, 0, true);
    assert (name, 0) in s1.service.pending && s1.service.clients == {0};
  }

  lemma LostBehind(cfg: Config, ls: seq<Label>, name: Bytes, a: Call, b: Call, archive: Bytes)
    requires IsConfig(cfg) && IsTwoWay(cfg, name) && !CanWrite(Named(name, b.args))
    requires Run(cfg, ls).Some? && IsBehind(cfg, Run(cfg, ls).value, name, a, b)
    ensures
      var ls1 := ls + [Serve(0, true)] + [Answer(0, name, archive, true)] + [Deliver(0, NO_ERROR)];
      Run(cfg, ls1).Some? && IsLost(Run(cfg, ls1).value, name, a, archive)
  {
    var served := ls + [Serve(0, true)];
    var answered := served + [Answer(0, name, archive, true)];
    ServeAndAnswer(cfg, Run(cfg, ls).value, name, a, b, archive);
    RunOne(cfg, ls, Serve(0, true));
    RunOne(cfg, served, Answer(0, name, archive, true));
    RunOne(cfg, answered, Deliver(0, NO_ERROR));
  }
}
