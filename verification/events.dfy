/** Events: who gets which, and that they are independent of calls and results. */
module Events {
  import opened Wrappers
  import opened ByteStrings
  import opened Results
  import opened Messages
  import opened Connections
  import opened CallQueues
  import opened ClientModel
  import opened ServiceModel
  import opened WholeSystem
  import opened SystemInvariant

  // ---- fidelity ----

  /** Events handed to the listeners, and then those on their way. */
  function EventsOf(cfg: Config, k: Conn): seq<Bytes> {
    k.client.events + Of(cfg.broadcast, k.down)
  }

  lemma HandledEvents(cfg: Config, k: Conn, ec: Error)
    requires k.down != []
    ensures
      var k1 := DeliverConn(cfg, k, ec).0;
      && k1.down == k.down[1..]
      && k1.client.events
         == if k.down[0].name == cfg.broadcast then k.client.events + [k.down[0].item] else k.client.events
  {
  }

  lemma DeliverKeepsEvents(cfg: Config, k: Conn, ec: Error)
    requires k.down != []
    ensures EventsOf(cfg, DeliverConn(cfg, k, ec).0) == EventsOf(cfg, k)
  {
    HandledEvents(cfg, k, ec);
    FrontOfDown(k, cfg.broadcast);
    if k.down[0].name == cfg.broadcast {
      var events := Of(cfg.broadcast, k.down);
      assert events == [events[0]] + events[1..];
      Associate(k.client.events, [events[0]], events[1..]);
    }
  }

  lemma DownEvents(cfg: Config, k: Conn, m: Msg)
    ensures EventsOf(cfg, k.(down := k.down + [m]))
         == EventsOf(cfg, k) + if m.name == cfg.broadcast then [m.item] else []
  {
    OfAppend(cfg.broadcast, k.down, m);
    Associate(k.client.events, Of(cfg.broadcast, k.down), [m.item]);
  }

  lemma ServeKeepsEvents(cfg: Config, s: System, c: nat, written: bool)
    requires IsConfig(cfg) && Inv(cfg, s) && Enabled(cfg, s, Serve(c, written))
    ensures EventsOf(cfg, ServeAt(s, c, written).conns[c]) == EventsOf(cfg, s.conns[c])
  {
    var k := s.conns[c];
    assert InvAt(cfg, s, c);
    assert IsRequest(cfg, k.up[0]);
    DownEvents(cfg, k, Named(k.up[0].name, IN_PROGRESS_ARCHIVE));
  }

  lemma AnswerKeepsEvents(cfg: Config, s: System, c: nat, name: Bytes, archive: Bytes, written: bool)
    requires IsConfig(cfg) && Inv(cfg, s) && Enabled(cfg, s, Answer(c, name, archive, written))
    ensures EventsOf(cfg, AnswerAt(s, c, name, archive, written).conns[c]) == EventsOf(cfg, s.conns[c])
  {
    assert IsTwoWay(cfg, (name, c).0);
    DownEvents(cfg, s.conns[c], Named(name, archive));
  }

  lemma OtherKeepsEvents(cfg: Config, s: System, l: Label, c: nat)
    requires Enabled(cfg, s, l) && c < |s.conns| && !l.Broadcast?
    requires !(l.Deliver? || l.Serve? || l.Answer?) || l.c != c
    ensures c < |Apply(cfg, s, l).conns| && EventsOf(cfg, Apply(cfg, s, l).conns[c]) == EventsOf(cfg, s.conns[c])
  {
    var k, k1 := s.conns[c], Apply(cfg, s, l).conns[c];
    assert k1.down == k.down && k1.client.events == k.client.events;
  }

  /** What a step of a run broadcasts to a client: an event, if the service has the client in its map. */
  function StepEvents(s: System, l: Label, c: nat): seq<Bytes> {
    if l.Broadcast? && c in s.service.clients then [l.event] else []
  }

  /** The events of the Broadcast steps that were taken while the service had the client in its map. */
  function BroadcastTo(cfg: Config, ls: seq<Label>, c: nat): seq<Bytes>
    requires Run(cfg, ls).Some?
  {
    if ls == [] then []
    else
      BroadcastTo(cfg, ls[..|ls| - 1], c) + StepEvents(Run(cfg, ls[..|ls| - 1]).value, ls[|ls| - 1], c)
  }

  lemma StepBroadcasts(cfg: Config, s: System, l: Label, c: nat)
    requires IsConfig(cfg) && Inv(cfg, s) && Enabled(cfg, s, l) && c < |s.conns|
    ensures c < |Apply(cfg, s, l).conns|
    ensures EventsOf(cfg, Apply(cfg, s, l).conns[c]) == EventsOf(cfg, s.conns[c]) + StepEvents(s, l, c)
  {
    var events := EventsOf(cfg, s.conns[c]);
    assert events + [] == events;
    if l.Broadcast? {
      DownEvents(cfg, s.conns[c], Named(cfg.broadcast, l.event));
    } else if !(l.Deliver? || l.Serve? || l.Answer?) || l.c != c {
      OtherKeepsEvents(cfg, s, l, c);
    } else {
      match l
      case Deliver(_, ec) => DeliverKeepsEvents(cfg, s.conns[c], ec);
      case Serve(_, written) => ServeKeepsEvents(cfg, s, c, written);
      case Answer(_, name, archive, written) => AnswerKeepsEvents(cfg, s, c, name, archive, written);
    }
  }

  /** Before it connects a client is sent nothing. */
  lemma NothingBefore(cfg: Config, s: System, l: Label, c: nat)
    requires Inv(cfg, s) && Enabled(cfg, s, l) && |s.conns| <= c
    ensures StepEvents(s, l, c) == []
    ensures c < |Apply(cfg, s, l).conns| ==> EventsOf(cfg, Apply(cfg, s, l).conns[c]) == []
  {
  }

  /**
   * In every run, whatever fails: the events handed to a client's listeners are a prefix of those of the
   * broadcasts made while the service had the client in its map, and the rest is on its way, in order.
   */
  lemma {:induction false} EventFidelity(cfg: Config, ls: seq<Label>, c: nat)
    requires IsConfig(cfg) && Run(cfg, ls).Some?
    ensures
      if c < |Run(cfg, ls).value.conns| then
        var k := Run(cfg, ls).value.conns[c];
        BroadcastTo(cfg, ls, c) == k.client.events + Of(cfg.broadcast, k.down)
      else BroadcastTo(cfg, ls, c) == []
  {
    if ls != [] {
      var before, l := ls[..|ls| - 1], ls[|ls| - 1];
      var s := Run(cfg, before).value;
      Reachable(cfg, before);
      EventFidelity(cfg, before, c);
      if c < |s.conns| {
        StepBroadcasts(cfg, s, l, c);
      } else {
        NothingBefore(cfg, s, l, c);
      }
    }
  }

  // ---- independence ----

  function NoEvents(broadcast: Bytes, log: seq<Msg>): seq<Msg> {
    if log == [] then []
    else NoEvents(broadcast, log[..|log| - 1]) + if log[|log| - 1].name == broadcast then [] else [log[|log| - 1]]
  }

  lemma NoEventsAppend(broadcast: Bytes, log: seq<Msg>, m: Msg)
    ensures NoEvents(broadcast, log + [m]) == NoEvents(broadcast, log) + if m.name == broadcast then [] else [m]
  {
    assert (log + [m])[..|log|] == log;
  }

  lemma {:induction false} NoEventsFront(broadcast: Bytes, log: seq<Msg>)
    requires log != []
    ensures NoEvents(broadcast, log)
         == (if log[0].name == broadcast then [] else [log[0]]) + NoEvents(broadcast, log[1..])
  {
    var last := |log| - 1;
    if last > 0 {
      NoEventsFront(broadcast, log[..last]);
      assert log[1..][..last - 1] == log[..last][1..];
    }
  }

  /** The connection as it would be had there been no events. */
  function EraseConn(cfg: Config, k: Conn): Conn {
    k.(client := k.client.(events := []), down := NoEvents(cfg.broadcast, k.down))
  }

  function Erase(cfg: Config, s: System): System {
    s.(conns := seq(|s.conns|, c requires 0 <= c < |s.conns| => EraseConn(cfg, s.conns[c])))
  }

  predicate IsEventStep(cfg: Config, s: System, l: Label)
    requires Enabled(cfg, s, l)
  {
    l.Broadcast? || (l.Deliver? && s.conns[l.c].down[0].name == cfg.broadcast)
  }

  lemma EraseUpdate(cfg: Config, s: System, s1: System, c: nat)
    requires c < |s.conns| == |s1.conns| && s1.conns == s.conns[c := s1.conns[c]]
    ensures Erase(cfg, s1)
         == System(Erase(cfg, s).conns[c := EraseConn(cfg, s1.conns[c])], s1.service, s1.held, s1.faults)
  {
    assert Erase(cfg, s1).conns == Erase(cfg, s).conns[c := EraseConn(cfg, s1.conns[c])];
  }

  lemma DispatchErases(s: ClientState, name: Bytes, archive: Bytes, ec: Error)
    ensures
      var s0 := s.(events := []);
      && DispatchResult(s0, name, archive, ec).1 == DispatchResult(s, name, archive, ec).1
      && DispatchResult(s0, name, archive, ec).0 == DispatchResult(s, name, archive, ec).0.(events := [])
      && |s.sent| <= |DispatchResult(s, name, archive, ec).0.sent|
  {
  }

  lemma DeliverErases(cfg: Config, k: Conn, ec: Error)
    requires k.down != [] && k.down[0].name != cfg.broadcast
    ensures
      var k0 := EraseConn(cfg, k);
      && k0.down != []
      && DeliverConn(cfg, k0, ec) == (EraseConn(cfg, DeliverConn(cfg, k, ec).0), DeliverConn(cfg, k, ec).1)
  {
    NoEventsFront(cfg.broadcast, k.down);
    DispatchErases(k.client, k.down[0].name, k.down[0].item, ec);
  }

  lemma ServeConnErases(cfg: Config, k: Conn, outcome: DispatchOutcome, connected: bool, written: bool)
    requires k.up != [] && k.up[0].name != cfg.broadcast
    ensures ServeConn(EraseConn(cfg, k), outcome, connected, written)
         == EraseConn(cfg, ServeConn(k, outcome, connected, written))
  {
    NoEventsAppend(cfg.broadcast, k.down, Named(k.up[0].name, IN_PROGRESS_ARCHIVE));
  }

  lemma AnswerConnErases(cfg: Config, k: Conn, m: Msg, outcome: AnswerOutcome)
    requires m.name != cfg.broadcast
    ensures AnswerConn(EraseConn(cfg, k), m, outcome) == EraseConn(cfg, AnswerConn(k, m, outcome))
  {
    NoEventsAppend(cfg.broadcast, k.down, m);
  }

  lemma CallErases(cfg: Config, k: Conn, name: Bytes, call: Call, ec: Error)
    ensures
      var k0 := EraseConn(cfg, k);
      OfClientConn(k0, SendCall(k0.client, name, call, ec).0)
      == EraseConn(cfg, OfClientConn(k, SendCall(k.client, name, call, ec).0))
  {
    assert SendCall(k.client.(events := []), name, call, ec).0 == SendCall(k.client, name, call, ec).0.(events := []);
  }

  lemma OneWayErases(cfg: Config, k: Conn, name: Bytes, args: Bytes, ec: Error)
    ensures
      var k0 := EraseConn(cfg, k);
      OfClientConn(k0, SendOneWay(k0.client, name, args, ec).0)
      == EraseConn(cfg, OfClientConn(k, SendOneWay(k.client, name, args, ec).0))
  {
  }

  lemma DeliverErasesStep(cfg: Config, s: System, c: nat, ec: Error)
    requires Enabled(cfg, s, Deliver(c, ec)) && s.conns[c].down[0].name != cfg.broadcast
    ensures Enabled(cfg, Erase(cfg, s), Deliver(c, ec))
    ensures Apply(cfg, Erase(cfg, s), Deliver(c, ec)) == Erase(cfg, Apply(cfg, s, Deliver(c, ec)))
  {
    DeliverErases(cfg, s.conns[c], ec);
    EraseUpdate(cfg, s, Apply(cfg, s, Deliver(c, ec)), c);
  }

  lemma ServeErasesStep(cfg: Config, s: System, c: nat, written: bool)
    requires IsConfig(cfg) && Inv(cfg, s) && Enabled(cfg, s, Serve(c, written))
    ensures ServeAt(Erase(cfg, s), c, written) == Erase(cfg, ServeAt(s, c, written))
  {
    var k := s.conns[c];
    assert InvAt(cfg, s, c);
    assert IsRequest(cfg, k.up[0]);
    var (service, outcome) := Dispatch(s.service, c, k.up[0].name, written);
    ServeConnErases(cfg, k, outcome, c in service.clients, written);
    EraseUpdate(cfg, s, ServeAt(s, c, written), c);
  }

  lemma AnswerErasesStep(cfg: Config, s: System, c: nat, name: Bytes, archive: Bytes, written: bool)
    requires IsConfig(cfg) && Inv(cfg, s) && Enabled(cfg, s, Answer(c, name, archive, written))
    ensures AnswerAt(Erase(cfg, s), c, name, archive, written) == Erase(cfg, AnswerAt(s, c, name, archive, written))
  {
    assert IsTwoWay(cfg, (name, c).0);
    AnswerConnErases(cfg, s.conns[c], Named(name, archive), SendResult(s.service, c, name, written).1);
    EraseUpdate(cfg, s, AnswerAt(s, c, name, archive, written), c);
  }

  lemma CallErasesStep(cfg: Config, s: System, l: Label)
    requires Enabled(cfg, s, l) && (l.CallTwoWay? || l.CallOneWay?)
    ensures Enabled(cfg, Erase(cfg, s), l) && Apply(cfg, Erase(cfg, s), l) == Erase(cfg, Apply(cfg, s, l))
  {
    if l.CallTwoWay? {
      CallErases(cfg, s.conns[l.c], l.name, l.call, l.ec);
    } else {
      OneWayErases(cfg, s.conns[l.c], l.name, l.args, l.ec);
    }
    EraseUpdate(cfg, s, Apply(cfg, s, l), l.c);
  }

  lemma FailureErasesStep(cfg: Config, s: System, l: Label)
    requires Enabled(cfg, s, l) && (l.CloseClient? || l.EndRead? || l.BreakClient? || l.Disconnect?)
    ensures Enabled(cfg, Erase(cfg, s), l) && Apply(cfg, Erase(cfg, s), l) == Erase(cfg, Apply(cfg, s, l))
  {
    EraseUpdate(cfg, s, Apply(cfg, s, l), l.c);
    assert Erase(cfg, s).conns[l.c] == EraseConn(cfg, s.conns[l.c]);
  }

  lemma ConnectErasesStep(cfg: Config, s: System, limit: nat)
    requires 0 < limit
    ensures Apply(cfg, Erase(cfg, s), Connect(limit)) == Erase(cfg, Apply(cfg, s, Connect(limit)))
  {
    assert Erase(cfg, Apply(cfg, s, Connect(limit))).conns == Apply(cfg, Erase(cfg, s), Connect(limit)).conns;
  }

  /** A step that is about an event leaves the erased system as it is. */
  lemma EventStepErased(cfg: Config, s: System, l: Label)
    requires Inv(cfg, s) && Enabled(cfg, s, l) && IsEventStep(cfg, s, l)
    ensures Erase(cfg, Apply(cfg, s, l)) == Erase(cfg, s)
  {
    var s1 := Apply(cfg, s, l);
    forall c | 0 <= c < |s.conns|
      ensures EraseConn(cfg, s1.conns[c]) == EraseConn(cfg, s.conns[c])
    {
      var k := s.conns[c];
      assert InvAt(cfg, s, c);
      if l.Broadcast? {
        NoEventsAppend(cfg.broadcast, k.down, Named(cfg.broadcast, l.event));
      } else if l.c == c {
        NoEventsFront(cfg.broadcast, k.down);
        assert k.up + [] == k.up;
      }
    }
    assert Erase(cfg, s1).conns == Erase(cfg, s).conns;
  }

  /** Any other step is possible in the erased system, and does the same there. */
  lemma StepErased(cfg: Config, s: System, l: Label)
    requires IsConfig(cfg) && Inv(cfg, s) && Enabled(cfg, s, l) && !IsEventStep(cfg, s, l)
    ensures Enabled(cfg, Erase(cfg, s), l) && Apply(cfg, Erase(cfg, s), l) == Erase(cfg, Apply(cfg, s, l))
  {
    match l
    case Connect(limit) => ConnectErasesStep(cfg, s, limit);
    case CallTwoWay(_, _, _, _) => CallErasesStep(cfg, s, l);
    case CallOneWay(_, _, _, _) => CallErasesStep(cfg, s, l);
    case Deliver(c, ec) => DeliverErasesStep(cfg, s, c, ec);
    case Serve(c, written) => ServeErasesStep(cfg, s, c, written);
    case Answer(c, name, archive, written) => AnswerErasesStep(cfg, s, c, name, archive, written);
    case _ => FailureErasesStep(cfg, s, l);
  }

  /** The run without its steps about events. */
  function Strip(cfg: Config, ls: seq<Label>): seq<Label>
    requires Run(cfg, ls).Some?
  {
    if ls == [] then []
    else
      var before, l := ls[..|ls| - 1], ls[|ls| - 1];
      Strip(cfg, before) + if IsEventStep(cfg, Run(cfg, before).value, l) then [] else [l]
  }

  /**
   * Independence.  Leave all events out of a run: what remains is a run, and it ends in the same state of
   * every client's calls, every link's calls and results and the service's pending calls.
   */
  lemma {:induction false} EventsDoNotMatter(cfg: Config, ls: seq<Label>)
    requires IsConfig(cfg) && Run(cfg, ls).Some?
    ensures Run(cfg, Strip(cfg, ls)) == Some(Erase(cfg, Run(cfg, ls).value))
  {
    if ls == [] {
      assert Erase(cfg, Init(cfg)) == Init(cfg);
    } else {
      var before, l := ls[..|ls| - 1], ls[|ls| - 1];
      var s := Run(cfg, before).value;
      EventsDoNotMatter(cfg, before);
      Reachable(cfg, before);
      if IsEventStep(cfg, s, l) {
        EventStepErased(cfg, s, l);
        assert Strip(cfg, ls) == Strip(cfg, before);
      } else {
        StepErased(cfg, s, l);
        assert Strip(cfg, ls)[..|Strip(cfg, ls)| - 1] == Strip(cfg, before);
      }
    }
  }
}
