/** On which connections nothing failed, who reads and who is connected: told from the steps of the run. */
module Liveness {
  import opened Wrappers
  import opened ByteStrings
  import opened Results
  import opened Messages
  import opened Connections
  import opened CallQueues
  import opened ClientModel
  import opened Lanes
  import opened Tracks
  import opened ServiceModel
  import opened WholeSystem
  import opened SystemInvariant

  /** The client's handler ends in an exception: nobody awaits the result, or the next call is too long. */
  predicate Throws(cfg: Config, k: Conn)
    requires k.down != []
  {
    var name := k.down[0].name;
    && name != cfg.broadcast
    && (name in k.client.closures ==> 1 < k.client.limit && !NextFits(k.client, name))
  }

  /** The service loses the client: it disconnects, or a result or the reply to a call in progress is not written. */
  predicate Drops(s: System, l: Label, c: nat)
    requires c < |s.conns| && (l.Serve? && l.c == c ==> s.conns[c].up != [])
  {
    match l
    case Serve(d, written) =>
      var dict := s.service.dict;
      && d == c && !written
      && var name := s.conns[c].up[0].name;
         name in dict && !dict[name].oneWay && (name, c) in s.service.pending
    case Answer(d, _, _, written) => d == c && !written
    case Disconnect(d) => d == c
    case _ => false
  }

  predicate NeverDropped(cfg: Config, ls: seq<Label>, c: nat)
    requires Run(cfg, ls).Some?
  {
    ls != [] ==>
      var s := Run(cfg, ls[..|ls| - 1]).value;
      NeverDropped(cfg, ls[..|ls| - 1], c) && (c < |s.conns| ==> !Drops(s, ls[|ls| - 1], c))
  }

  /** A step in which something fails on the connection: a write, or the connection itself. */
  predicate Harms(cfg: Config, s: System, l: Label, c: nat)
    requires Enabled(cfg, s, l) && c < |s.conns|
  {
    var k := s.conns[c];
    match l
    case CallTwoWay(d, name, call, ec) =>
      d == c && name !in k.client.closures && CanWrite(Named(name, call.args)) && ec.code != 0
    case CallOneWay(d, name, args, ec) => d == c && CanWrite(Named(name, args)) && ec.code != 0
    case Deliver(d, ec) =>
      && d == c && k.down[0].name != cfg.broadcast
      && (Throws(cfg, k) || (1 < k.client.limit && QueueOf(k.client.queues, k.down[0].name) != [] && ec.code != 0))
    case CloseClient(d) => d == c
    case EndRead(d) => d == c
    case BreakClient(d, _, _, _) => d == c
    case _ => Drops(s, l, c)
  }

  predicate NeverHarmed(cfg: Config, ls: seq<Label>, c: nat)
    requires Run(cfg, ls).Some?
  {
    ls != [] ==>
      var s := Run(cfg, ls[..|ls| - 1]).value;
      NeverHarmed(cfg, ls[..|ls| - 1], c) && (c < |s.conns| ==> !Harms(cfg, s, ls[|ls| - 1], c))
  }

  /** The client's read ends: in an error, or with the exception of a handler. */
  predicate EndsRead(cfg: Config, s: System, l: Label, c: nat)
    requires Enabled(cfg, s, l) && c < |s.conns|
  {
    match l
    case Deliver(d, _) => d == c && Throws(cfg, s.conns[c])
    case EndRead(d) => d == c
    case BreakClient(d, _, _, _) => d == c
    case _ => false
  }

  predicate NeverEndsRead(cfg: Config, ls: seq<Label>, c: nat)
    requires Run(cfg, ls).Some?
  {
    ls != [] ==>
      var s := Run(cfg, ls[..|ls| - 1]).value;
      NeverEndsRead(cfg, ls[..|ls| - 1], c) && (c < |s.conns| ==> !EndsRead(cfg, s, ls[|ls| - 1], c))
  }

  lemma CallHarms(k: Conn, name: Bytes, call: Call, args: Bytes, ec: Error)
    requires k.client.phase == OPEN
    ensures OfClientConn(k, SendCall(k.client, name, call, ec).0).live
         == (k.live && !(name !in k.client.closures && CanWrite(Named(name, call.args)) && ec.code != 0))
    ensures OfClientConn(k, SendOneWay(k.client, name, args, ec).0).live
         == (k.live && !(CanWrite(Named(name, args)) && ec.code != 0))
  {
  }

  lemma DeliverHarms(cfg: Config, k: Conn, ec: Error)
    requires k.down != [] && k.client.phase == OPEN && k.reading
    ensures
      var k1, name := DeliverConn(cfg, k, ec).0, k.down[0].name;
      && k1.reading == !Throws(cfg, k)
      && k1.live == (k.live && (name == cfg.broadcast ||
           !(Throws(cfg, k) || (1 < k.client.limit && QueueOf(k.client.queues, name) != [] && ec.code != 0))))
  {
    if k.down[0].name != cfg.broadcast {
      DeliverOnTrack(cfg, k, ec, k.down[0].name, 0, 0);
      DispatchPhase(k.client, k.down[0].name, k.down[0].item, ec);
    }
  }

  lemma DeliverReads(cfg: Config, k: Conn, ec: Error)
    requires k.down != []
    ensures DeliverConn(cfg, k, ec).0.reading == (k.reading && !Throws(cfg, k))
  {
  }

  lemma OtherLive(cfg: Config, s: System, l: Label, c: nat)
    requires Enabled(cfg, s, l) && c < |s.conns|
    requires l.Connect? || l.Broadcast? || l.c != c || l.CloseClient? || l.EndRead? || l.BreakClient? || l.Disconnect?
    requires s.conns[c].live && s.conns[c].client.phase == OPEN
    ensures c < |Apply(cfg, s, l).conns| && Apply(cfg, s, l).conns[c].live == !Harms(cfg, s, l, c)
  {
  }

  lemma StepLive(cfg: Config, s: System, l: Label, c: nat)
    requires IsConfig(cfg) && Inv(cfg, s) && Enabled(cfg, s, l) && c < |s.conns| && s.conns[c].live
    ensures c < |Apply(cfg, s, l).conns| && Apply(cfg, s, l).conns[c].live == !Harms(cfg, s, l, c)
  {
    var k := s.conns[c];
    assert InvAt(cfg, s, c);
    if (l.CallTwoWay? || l.CallOneWay? || l.Deliver? || l.Serve? || l.Answer?) && l.c == c {
      match l
      case CallTwoWay(_, name, call, ec) => CallHarms(k, name, call, [], ec);
      case CallOneWay(_, name, args, ec) => CallHarms(k, name, Call([], Closure(0, None)), args, ec);
      case Deliver(_, ec) => DeliverHarms(cfg, k, ec);
      case Serve(_, written) => ServeHarms(s, c, written);
      case Answer(_, name, archive, written) => AnswerHarms(cfg, s, c, name, archive, written);
    } else {
      OtherLive(cfg, s, l, c);
    }
  }

  lemma ServeHarms(s: System, c: nat, written: bool)
    requires c < |s.conns| && s.conns[c].up != [] && c in s.service.clients
    ensures
      var s1, drops := ServeAt(s, c, written), Drops(s, Serve(c, written), c);
      s1.conns[c].live == (s.conns[c].live && !drops) && (c in s1.service.clients <==> !drops)
  {
  }

  lemma AnswerHarms(cfg: Config, s: System, c: nat, name: Bytes, archive: Bytes, written: bool)
    requires Inv(cfg, s) && c < |s.conns| && (name, c) in s.held && c in s.service.clients
    ensures
      var s1 := AnswerAt(s, c, name, archive, written);
      s1.conns[c].live == (s.conns[c].live && written) && (c in s1.service.clients <==> written)
  {
    assert InvAt(cfg, s, c);
    assert IsTwoWay(cfg, (name, c).0);
    assert Settled(TrackAt(s, c, name));
  }

  lemma OtherConnected(cfg: Config, s: System, l: Label, c: nat)
    requires Enabled(cfg, s, l) && c < |s.conns| && !(l.Serve? && l.c == c) && !(l.Answer? && l.c == c)
    ensures c in Apply(cfg, s, l).service.clients <==> c in s.service.clients && !Drops(s, l, c)
  {
  }

  lemma GoneConnected(s: System, c: nat, name: Bytes, archive: Bytes, written: bool)
    requires c < |s.conns| && c !in s.service.clients
    ensures c !in AnswerAt(s, c, name, archive, written).service.clients
  {
  }

  lemma StepConnected(cfg: Config, s: System, l: Label, c: nat)
    requires Inv(cfg, s) && Enabled(cfg, s, l) && c < |s.conns|
    ensures c in Apply(cfg, s, l).service.clients <==> c in s.service.clients && !Drops(s, l, c)
  {
    if l.Serve? && l.c == c {
      ServeHarms(s, c, l.written);
    } else if l.Answer? && l.c == c {
      if c in s.service.clients {
        AnswerHarms(cfg, s, c, l.name, l.archive, l.written);
      } else {
        GoneConnected(s, c, l.name, l.archive, l.written);
      }
    } else {
      OtherConnected(cfg, s, l, c);
    }
  }

  lemma StepDead(cfg: Config, s: System, l: Label, c: nat)
    requires Enabled(cfg, s, l) && c < |s.conns| && !s.conns[c].live
    ensures c < |Apply(cfg, s, l).conns| && !Apply(cfg, s, l).conns[c].live
  {
  }

  lemma StepReads(cfg: Config, s: System, l: Label, c: nat)
    requires Enabled(cfg, s, l) && c < |s.conns|
    ensures c < |Apply(cfg, s, l).conns|
    ensures Apply(cfg, s, l).conns[c].reading == (s.conns[c].reading && !EndsRead(cfg, s, l, c))
  {
    match l
    case Deliver(d, ec) => if d == c { DeliverReads(cfg, s.conns[c], ec); }
    case _ =>
  }

  lemma NewIsLive(cfg: Config, s: System, l: Label, c: nat)
    requires Enabled(cfg, s, l) && |s.conns| <= c < |Apply(cfg, s, l).conns|
    ensures Apply(cfg, s, l).conns[c].live && Apply(cfg, s, l).conns[c].reading
    ensures c in Apply(cfg, s, l).service.clients
  {
  }

  lemma NotYet(cfg: Config, s: System, l: Label)
    requires Enabled(cfg, s, l)
    ensures |s.conns| <= |Apply(cfg, s, l).conns|
  {
  }

  lemma {:induction false} BeforeConnect(cfg: Config, ls: seq<Label>, c: nat)
    requires Run(cfg, ls).Some? && |Run(cfg, ls).value.conns| <= c
    ensures NeverHarmed(cfg, ls, c) && NeverEndsRead(cfg, ls, c) && NeverDropped(cfg, ls, c)
  {
    if ls != [] {
      NotYet(cfg, Run(cfg, ls[..|ls| - 1]).value, ls[|ls| - 1]);
      BeforeConnect(cfg, ls[..|ls| - 1], c);
    }
  }

  /**
   * In every run: a connection is live, as the drain and the correlation speak of it, if and only if no step
   * harmed it, its client reads if and only if no step ended its read, and the service has the client in its
   * map if and only if no step lost it.
   */
  lemma {:induction false} LiveExactly(cfg: Config, ls: seq<Label>, c: nat)
    requires IsConfig(cfg) && Run(cfg, ls).Some? && c < |Run(cfg, ls).value.conns|
    ensures Run(cfg, ls).value.conns[c].live <==> NeverHarmed(cfg, ls, c)
    ensures Run(cfg, ls).value.conns[c].reading <==> NeverEndsRead(cfg, ls, c)
    ensures c in Run(cfg, ls).value.service.clients <==> NeverDropped(cfg, ls, c)
  {
    if ls != [] {
      var before, l := ls[..|ls| - 1], ls[|ls| - 1];
      var s := Run(cfg, before).value;
      Reachable(cfg, before);
      if c < |s.conns| {
        LiveExactly(cfg, before, c);
        StepReads(cfg, s, l, c);
        StepConnected(cfg, s, l, c);
        if s.conns[c].live {
          StepLive(cfg, s, l, c);
        } else {
          StepDead(cfg, s, l, c);
        }
      } else {
        BeforeConnect(cfg, before, c);
        NewIsLive(cfg, s, l, c);
      }
    }
  }
}
