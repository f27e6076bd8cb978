/** What the messages that arrive together do, one after the other, until one of them ends in an exception. */
module Incoming {
  import opened Wrappers
  import opened ByteStrings
  import opened Codec
  import opened Results
  import opened Messages
  import opened Connections
  import opened FunctionDictionary
  import opened CallQueues
  import opened ClientModel
  import opened ServiceModel
  import opened Serialization
  import opened Framing
  import opened Interfaces
  import opened Link
  import opened WholeSystem

  /** The client: `ecs(i)` is what the socket answers to a write that the i-th message makes it do. */
  function HandleAll(s: ClientState, broadcast: Bytes, ps: seq<Bytes>, ecs: nat -> Error, i: nat): (ClientState, bool)
    decreases |ps|
  {
    if ps == [] then (s, false)
    else
      match DecodeMsg(ps[0])
      case None => (s, true)
      case Some(m) =>
        var (s1, outcome) := HandleMessage(s, broadcast, m, ecs(i));
        if outcome != Ran then (s1, true) else HandleAll(s1, broadcast, ps[1..], ecs, i + 1)
  }

  lemma HandleFirst(s: ClientState, broadcast: Bytes, m: Msg, ps: seq<Bytes>, ecs: nat -> Error, i: nat)
    requires |m.name| < LENGTH_LIMIT && ps != [] && ps[0] == EncodeMsg(m)
    ensures
      var (s1, outcome) := HandleMessage(s, broadcast, m, ecs(i));
      HandleAll(s, broadcast, ps, ecs, i)
      == if outcome != Ran then (s1, true) else HandleAll(s1, broadcast, ps[1..], ecs, i + 1)
  {
    MsgRoundTrip(m, EncodeMsg(m));
  }

  /** That many deliveries to a client of the whole system, as long as it reads. */
  function DeliverMany(cfg: Config, s: System, c: nat, ecs: nat -> Error, i: nat, n: nat): System
    requires c < |s.conns| && n <= |s.conns[c].down|
    decreases n
  {
    if n == 0 || !s.conns[c].reading then s
    else DeliverMany(cfg, DeliverAt(cfg, s, c, ecs(i)), c, ecs, i + 1, n - 1)
  }

  /** One delivery, read off the bytes of its message. */
  lemma DeliverIsHandled(cfg: Config, s: System, c: nat, ec: Error)
    requires c < |s.conns| && s.conns[c].down != []
    ensures
      var k, s1 := s.conns[c], DeliverAt(cfg, s, c, ec);
      var (client, outcome) := HandleMessage(k.client, cfg.broadcast, k.down[0], ec);
      && |s1.conns| == |s.conns| && s1.conns[c].client == client && s1.conns[c].down == k.down[1..]
      && s1.conns[c].reading == (k.reading && outcome == Ran)
  {
  }

  lemma FirstPayload(ms: seq<Msg>, n: nat)
    requires 0 < n <= |ms|
    ensures Payloads(ms[..n])[0] == EncodeMsg(ms[0]) && Payloads(ms[..n])[1..] == Payloads(ms[1..][..n - 1])
  {
  }

  /**
   * What a client does with the messages that arrived together is just what the whole system does in that
   * many Deliver steps, and it reads on unless one of them ended in an exception.
   */
  lemma {:induction false} IncomingIsDeliver(cfg: Config, s: System, c: nat, ecs: nat -> Error, i: nat, n: nat)
    requires c < |s.conns| && n <= |s.conns[c].down| && s.conns[c].reading
    requires forall m | m in s.conns[c].down :: |m.name| < LENGTH_LIMIT
    ensures
      var s1 := DeliverMany(cfg, s, c, ecs, i, n);
      && |s1.conns| == |s.conns|
      && (s1.conns[c].client, !s1.conns[c].reading)
         == HandleAll(s.conns[c].client, cfg.broadcast, Payloads(s.conns[c].down[..n]), ecs, i)
    decreases n
  {
    if n > 0 {
      var s1 := DeliverAt(cfg, s, c, ecs(i));
      DeliverIsHandled(cfg, s, c, ecs(i));
      FirstPayload(s.conns[c].down, n);
      HandleFirst(s.conns[c].client, cfg.broadcast, s.conns[c].down[0], Payloads(s.conns[c].down[..n]), ecs, i);
      if s1.conns[c].reading {
        IncomingIsDeliver(cfg, s1, c, ecs, i + 1, n - 1);
      } else {
        assert DeliverMany(cfg, s1, c, ecs, i + 1, n - 1) == s1;
      }
    }
  }

  /** How the messages of a client end for the service: with an exception, or with the client gone. */
  datatype End = ReadOn | Thrown | Gone

  /** The exceptions: no function of that name, arguments that cannot be read, a reply that is too long. */
  function EndOf(dict: Dict, m: Msg, outcome: DispatchOutcome, ec: Error): End {
    match outcome
    case UnknownFunction => Thrown
    case InProgress =>
      if !CanWrite(Named(m.name, IN_PROGRESS_ARCHIVE)) then Thrown else if ec.code != 0 then Gone else ReadOn
    case _ => if CallOutcome(dict, m) == BadArchive then Thrown else ReadOn
  }

  /** The service takes up a message; one without a name is an exception as well. */
  function TakeUp<T>(s: ServiceState<T>, t: T, payload: Bytes, ec: Error): (ServiceState<T>, End) {
    match DecodeMsg(payload)
    case None => (s, Thrown)
    case Some(m) =>
      var (s1, outcome) := Dispatch(s, t, m.name, !CanWrite(Named(m.name, IN_PROGRESS_ARCHIVE)) || ec.code == 0);
      (s1, EndOf(s.dict, m, outcome, ec))
  }

  lemma TakeUpFirst<T>(s: ServiceState<T>, t: T, msg: Bytes, ps: seq<Bytes>, ecs: nat -> Error, i: nat)
    ensures
      var (s1, end) := TakeUp(s, t, msg, ecs(i));
      TakeUpAll(s, t, [msg] + ps, ecs, i) == if end != ReadOn then (s1, end) else TakeUpAll(s1, t, ps, ecs, i + 1)
  {
  }

  function TakeUpAll<T>(s: ServiceState<T>, t: T, ps: seq<Bytes>, ecs: nat -> Error, i: nat): (ServiceState<T>, End)
    decreases |ps|
  {
    if ps == [] then (s, ReadOn)
    else
      var (s1, end) := TakeUp(s, t, ps[0], ecs(i));
      if end != ReadOn then (s1, end) else TakeUpAll(s1, t, ps[1..], ecs, i + 1)
  }

  // ---- the service and the whole system ----

  /** How the next message of a client ends for the service, told from the state of the whole system. */
  function EndOfServe(s: System, c: nat, ec: Error): End
    requires c < |s.conns| && s.conns[c].up != []
  {
    var m, dict := s.conns[c].up[0], s.service.dict;
    if m.name !in dict then Thrown
    else if !dict[m.name].oneWay && (m.name, c) in s.service.pending then
      if HEADER_SIZE + |EncodeMsg(Named(m.name, EncodeResult(Result(Error(115, "Operation now in progress"), None))))|
           > MAX_SIZE - HEADER_SIZE
      then Thrown
      else if ec.code != 0 then Gone else ReadOn
    else if DecodeArgs(dict[m.name].args, m.item, []).None? then Thrown
    else ReadOn
  }

  /**
   * That many Serve steps, up to the first that is an exception or loses the client.  A reply that is too
   * long is not written, but changes the service as one that is.
   */
  function ServeMany(s: System, c: nat, ecs: nat -> Error, i: nat, n: nat): (System, End)
    requires c < |s.conns| && n <= |s.conns[c].up|
    decreases n
  {
    if n == 0 then (s, ReadOn)
    else
      var end, s1 := EndOfServe(s, c, ecs(i)), ServeAt(s, c, EndOfServe(s, c, ecs(i)) != Gone);
      if end != ReadOn then (s1, end) else ServeMany(s1, c, ecs, i + 1, n - 1)
  }

  lemma ServeIsTakenUp(s: System, c: nat, ec: Error)
    requires c < |s.conns| && s.conns[c].up != [] && |s.conns[c].up[0].name| < LENGTH_LIMIT
    ensures
      var k, end := s.conns[c], EndOfServe(s, c, ec);
      var s1 := ServeAt(s, c, end != Gone);
      && TakeUp(s.service, c, EncodeMsg(k.up[0]), ec) == (s1.service, end)
      && |s1.conns| == |s.conns| && s1.conns[c].up == k.up[1..]
      && (end == Gone ==> c !in s1.service.clients) && (end != Gone ==> s1.service.clients == s.service.clients)
  {
    MsgRoundTrip(s.conns[c].up[0], EncodeMsg(s.conns[c].up[0]));
  }

  /**
   * What the service does with the messages of a client that arrived together is just what the whole system
   * does in that many Serve steps, and it stops just where one of them is an exception or loses the client.
   */
  lemma {:induction false} IncomingIsServe(s: System, c: nat, ecs: nat -> Error, i: nat, n: nat)
    requires c < |s.conns| && n <= |s.conns[c].up|
    requires forall m | m in s.conns[c].up :: |m.name| < LENGTH_LIMIT
    ensures
      var (s1, end) := ServeMany(s, c, ecs, i, n);
      TakeUpAll(s.service, c, Payloads(s.conns[c].up[..n]), ecs, i) == (s1.service, end)
    decreases n
  {
    if n > 0 {
      ServeIsTakenUp(s, c, ecs(i));
      FirstPayload(s.conns[c].up, n);
      var end := EndOfServe(s, c, ecs(i));
      if end == ReadOn {
        IncomingIsServe(ServeAt(s, c, true), c, ecs, i + 1, n - 1);
      }
    }
  }

  /**
   * A message that arrives, case by case: a call of a function of the interface that is not pending calls
   * that function with the arguments of the call, and is pending if it is two-way; a message whose arguments
   * cannot be read is an exception, and pending all the same; any other name is an exception.
   */
  lemma ArrivedCall<T>(s: ServiceState<T>, t: T, prefix: Bytes, fs: seq<Function>, i: nat, args: seq<Value>, ec: Error)
    requires AreSignatures(fs) && i < |fs| && forall j | i < j < |fs| :: fs[j].name != fs[i].name
    requires s.dict == DictOf(prefix, fs) && |FullName(prefix, fs[i].name)| < LENGTH_LIMIT
    requires
      var f := fs[i];
      HaveTypes(args, ArgTypes(if f.oneWay then f.params else f.params[..|f.params| - 1]))
    requires (FullName(prefix, fs[i].name), t) !in s.pending
    ensures
      var name, f := FullName(prefix, fs[i].name), fs[i];
      && CallOutcome(s.dict, CallMsg(name, args)) == Called(name, args, EntryOf(f.oneWay, f.params))
      && TakeUp(s, t, EncodeMsg(CallMsg(name, args)), ec)
         == (if f.oneWay then s else s.(pending := s.pending + multiset{(name, t)}), ReadOn)
  {
    CallReachesFunction(prefix, fs, i, args);
    DictFinds(prefix, fs, i);
    assert fs[i] in fs;
  }

  lemma ArrivedOtherwise<T>(s: ServiceState<T>, t: T, m: Msg, ec: Error)
    requires |m.name| < LENGTH_LIMIT
    ensures m.name !in s.dict ==> TakeUp(s, t, EncodeMsg(m), ec) == (s, Thrown)
    ensures m.name in s.dict && !s.dict[m.name].oneWay && (m.name, t) !in s.pending
            && DecodeArgs(s.dict[m.name].args, m.item, []).None? ==>
      TakeUp(s, t, EncodeMsg(m), ec) == (s.(pending := s.pending + multiset{(m.name, t)}), Thrown)
    ensures m.name in s.dict && s.dict[m.name].oneWay && DecodeArgs(s.dict[m.name].args, m.item, []).None? ==>
      TakeUp(s, t, EncodeMsg(m), ec) == (s, Thrown)
  {
    MsgRoundTrip(m, EncodeMsg(m));
  }

  /** A payload that holds no name ends in an exception on either side, whatever follows it. */
  lemma Unreadable<T>(
    client: ClientState, broadcast: Bytes, s: ServiceState<T>, t: T, ps: seq<Bytes>, ecs: nat -> Error, i: nat)
    requires ps != [] && forall m: Msg | |m.name| < LENGTH_LIMIT :: ps[0] != EncodeMsg(m)
    ensures HandleAll(client, broadcast, ps, ecs, i) == (client, true)
    ensures TakeUpAll(s, t, ps, ecs, i) == (s, Thrown)
  {
    if DecodeMsg(ps[0]).Some? {
      var m := DecodeMsg(ps[0]).value;
      CanonicalString(ps[0], m.name, m.item);
    }
  }

  /** Client and service of one interface are a configuration of the whole system. */
  lemma InterfaceIsConfig(prefix: Bytes, fs: seq<Function>)
    requires AreSignatures(fs) && prefix != []
    ensures (forall f | f in fs :: f.name != BROADCAST_EVENT)
        <==> IsConfig(Config(DictOf(prefix, fs), FullName(prefix, BROADCAST_EVENT)))
  {
    if forall f | f in fs :: f.name != BROADCAST_EVENT {
      EventsAreNoCalls(prefix, fs);
    } else {
      var i :| 0 <= i < |fs| && fs[i].name == BROADCAST_EVENT;
      DictOnly(prefix, fs, FullName(prefix, BROADCAST_EVENT));
    }
  }

  /** The reply to a call in progress is read by the closure of any result type, as that error. */
  lemma InProgressIsRead(rt: ResultType)
    ensures DecodeResult(rt, IN_PROGRESS_ARCHIVE)
         == Some((Result(Error(115, "Operation now in progress"), DefaultValue(rt)), []))
  {
    ErrorIsTypeAgnostic(IN_PROGRESS, rt);
  }
}
