/** What every step of the whole system keeps. */
module SystemInvariant {
  import opened Wrappers
  import opened ByteStrings
  import opened Results
  import opened Messages
  import opened Connections
  import opened CallQueues
  import opened ClientModel
  import opened Lanes
  import opened Tracks
  import opened ServiceModel
  import ServiceRuns
  import opened WholeSystem

  predicate IsRequest(cfg: Config, m: Msg) {
    m.name in cfg.dict
  }

  predicate IsReply(cfg: Config, m: Msg) {
    m.name == cfg.broadcast || IsTwoWay(cfg, m.name)
  }

  predicate Plausible(cfg: Config, k: Conn, connected: bool) {
    && (forall m | m in k.up :: IsRequest(cfg, m))
    && (forall m | m in k.down :: IsReply(cfg, m))
    && (k.live ==> k.reading && connected && k.client.phase == OPEN)
  }

  ghost predicate InvAt(cfg: Config, s: System, c: nat)
    requires c < |s.conns|
  {
    var k := s.conns[c];
    && Plausible(cfg, k, c in s.service.clients)
    && forall name | IsTwoWay(cfg, name) :: Good(k.client.limit, TrackAt(s, c, name), k.reading, k.live)
  }

  predicate NoFault(s: System, f: Fault) {
    match f
    case CallInProgress(c) => c < |s.conns| && !s.conns[c].reading
    case ResultLost(c) => c < |s.conns| && !s.conns[c].reading
    case _ => false
  }

  ghost predicate Inv(cfg: Config, s: System) {
    && s.service.dict == cfg.dict
    && (forall name, c: nat | |s.conns| <= c :: (name, c) !in s.service.pending && (name, c) !in s.held)
    && (forall c | c in s.service.clients :: c < |s.conns|)
    && (forall h | h in s.held :: IsTwoWay(cfg, h.0))
    && (forall f | f in s.faults :: NoFault(s, f))
    && (forall c: nat | c < |s.conns| :: InvAt(cfg, s, c))
  }

  // ---- a step touches one connection ----

  /** The service changed nothing that belongs to connection `c`. */
  ghost predicate SameService(s: System, s1: System, c: nat) {
    && (c in s1.service.clients <==> c in s.service.clients)
    && (forall name :: s1.service.pending[(name, c)] == s.service.pending[(name, c)])
    && (forall name :: s1.held[(name, c)] == s.held[(name, c)])
  }

  lemma SameKeeps(cfg: Config, s: System, s1: System, c: nat)
    requires c < |s.conns| && c < |s1.conns| && InvAt(cfg, s, c)
    requires s1.conns[c] == s.conns[c] && SameService(s, s1, c)
    ensures InvAt(cfg, s1, c)
  {
    forall name | IsTwoWay(cfg, name)
      ensures Good(s1.conns[c].client.limit, TrackAt(s1, c, name), s1.conns[c].reading, s1.conns[c].live)
    {
      assert TrackAt(s1, c, name) == TrackAt(s, c, name);
    }
  }

  ghost predicate OnlyAt(cfg: Config, s: System, s1: System, c: nat) {
    && c < |s.conns| == |s1.conns|
    && s1.conns == s.conns[c := s1.conns[c]]
    && s1.service.dict == s.service.dict
    && (forall d: nat | d != c :: SameService(s, s1, d))
    && (forall h | h in s1.held :: IsTwoWay(cfg, h.0))
    && (forall f | f in s1.faults :: f in s.faults || NoFault(s1, f))
    && (s1.conns[c].reading ==> s.conns[c].reading)
  }

  lemma StepAt(cfg: Config, s: System, s1: System, c: nat)
    requires Inv(cfg, s) && OnlyAt(cfg, s, s1, c) && InvAt(cfg, s1, c)
    ensures Inv(cfg, s1)
  {
    forall d: nat | d < |s1.conns|
      ensures InvAt(cfg, s1, d)
    {
      if d != c {
        SameKeeps(cfg, s, s1, d);
      }
    }
    forall name, d: nat | |s1.conns| <= d
      ensures (name, d) !in s1.service.pending && (name, d) !in s1.held
    {
      assert SameService(s, s1, d);
      assert s1.service.pending[(name, d)] == s.service.pending[(name, d)];
      assert s1.held[(name, d)] == s.held[(name, d)];
    }
    forall d | d in s1.service.clients
      ensures d < |s1.conns|
    {
      assert d != c ==> SameService(s, s1, d);
    }
    forall f | f in s1.faults
      ensures NoFault(s1, f)
    {
      if f in s.faults {
        assert NoFault(s, f);
      }
    }
  }

  // ---- what the client writes ----

  lemma OfClientOnTrack(k: Conn, client: ClientState, name: Bytes, pending: nat, held: nat)
    requires k.client.sent <= client.sent
    ensures |Of(name, k.client.sent)| <= |Of(name, client.sent)|
    ensures TrackOf(OfClientConn(k, client), name, pending, held)
         == OfClient(TrackOf(k, name, pending, held), LaneOf(client, name))
  {
    var more := client.sent[|k.client.sent|..];
    assert client.sent == k.client.sent + more;
    OfConcat(name, k.client.sent, more);
    OfConcat(name, k.up, more);
  }

  lemma CallSent(s: ClientState, name: Bytes, call: Call, ec: Error)
    ensures
      var s1 := SendCall(s, name, call, ec).0;
      && s1.limit == s.limit
      && (s1.sent == s.sent || s1.sent == s.sent + [Named(name, call.args)])
  {
  }

  lemma DispatchSent(s: ClientState, name: Bytes, archive: Bytes, ec: Error)
    ensures
      var s1 := DispatchResult(s, name, archive, ec).0;
      && s1.limit == s.limit
      && (s1.sent == s.sent || exists args :: s1.sent == s.sent + [Named(name, args)])
  {
    if name in s.closures && QueueOf(s.queues, name) != [] {
      var s1 := DispatchResult(s, name, archive, ec).0;
      assert s1.sent == s.sent || s1.sent == s.sent + [Named(name, s.queues[name][0].args)];
    }
  }

  /** A client that did something in which function `name` had no part. */
  lemma OtherFunction(k: Conn, client: ClientState, name: Bytes, pending: nat, held: nat)
    requires k.client.sent <= client.sent && LaneOf(client, name) == LaneOf(k.client, name)
    ensures TrackOf(OfClientConn(k, client), name, pending, held) == TrackOf(k, name, pending, held)
  {
    OfClientOnTrack(k, client, name, pending, held);
    assert Of(name, k.up) + [] == Of(name, k.up);
  }

  lemma LessLive(limit: nat, tr: Track, reading: bool, live: bool, reading1: bool, live1: bool)
    requires Good(limit, tr, reading, live) && (reading1 ==> reading) && (live1 ==> live && reading1)
    ensures Good(limit, tr, reading1, live1)
  {
  }

  // ---- calls ----

  lemma CallGood(cfg: Config, s: System, c: nat, n: Bytes, call: Call, ec: Error, name: Bytes)
    requires c < |s.conns| && InvAt(cfg, s, c) && IsTwoWay(cfg, name)
    ensures
      var k := s.conns[c];
      var client := SendCall(k.client, n, call, ec).0;
      && k.client.sent <= client.sent
      && Good(client.limit, TrackOf(OfClientConn(k, client), name, s.service.pending[(name, c)], s.held[(name, c)]),
              k.reading, k.live && client.phase == OPEN)
  {
    var k := s.conns[c];
    var client := SendCall(k.client, n, call, ec).0;
    var tr := TrackAt(s, c, name);
    CallSent(k.client, n, call, ec);
    CallOnLane(k.client, n, call, ec, name);
    if n == name {
      OfClientOnTrack(k, client, name, tr.pending, tr.held);
      var fits := CanWrite(Named(n, call.args));
      CallSettled(k.client.limit, k.client.phase, tr, call, fits, ec);
      if k.reading {
        CallReading(k.client.limit, k.client.phase, tr, call, fits, ec);
        if k.live && client.phase == OPEN {
          CallLive(k.client.limit, tr, call, fits, ec);
        }
      }
    } else {
      OtherFunction(k, client, name, tr.pending, tr.held);
    }
  }

  lemma CallKeeps(cfg: Config, s: System, c: nat, n: Bytes, call: Call, ec: Error)
    requires Inv(cfg, s) && Enabled(cfg, s, CallTwoWay(c, n, call, ec))
    ensures Inv(cfg, Apply(cfg, s, CallTwoWay(c, n, call, ec)))
  {
    var s1 := Apply(cfg, s, CallTwoWay(c, n, call, ec));
    var k := s.conns[c];
    assert InvAt(cfg, s, c);
    CallSent(k.client, n, call, ec);
    forall name | IsTwoWay(cfg, name)
      ensures Good(s1.conns[c].client.limit, TrackAt(s1, c, name), s1.conns[c].reading, s1.conns[c].live)
    {
      CallGood(cfg, s, c, n, call, ec, name);
    }
    assert IsRequest(cfg, Named(n, call.args));
    StepAt(cfg, s, s1, c);
  }

  lemma OneWayKeeps(cfg: Config, s: System, c: nat, n: Bytes, args: Bytes, ec: Error)
    requires Inv(cfg, s) && Enabled(cfg, s, CallOneWay(c, n, args, ec))
    ensures Inv(cfg, Apply(cfg, s, CallOneWay(c, n, args, ec)))
  {
    var s1 := Apply(cfg, s, CallOneWay(c, n, args, ec));
    var k := s.conns[c];
    var client := SendOneWay(k.client, n, args, ec).0;
    assert InvAt(cfg, s, c);
    forall name | IsTwoWay(cfg, name)
      ensures Good(s1.conns[c].client.limit, TrackAt(s1, c, name), s1.conns[c].reading, s1.conns[c].live)
    {
      OneWayOnLane(k.client, n, args, ec, name);
      OtherFunction(k, client, name, s.service.pending[(name, c)], s.held[(name, c)]);
      assert Good(k.client.limit, TrackAt(s, c, name), k.reading, k.live);
    }
    assert IsRequest(cfg, Named(n, args));
    StepAt(cfg, s, s1, c);
  }

  // ---- messages that reach the client ----

  lemma FrontOfDown(k: Conn, name: Bytes)
    requires k.down != []
    ensures Of(name, k.down) == (if k.down[0].name == name then [k.down[0].item] else []) + Of(name, k.down[1..])
    ensures k.down[0].name == name ==>
      Of(name, k.down) != [] && Of(name, k.down)[0] == k.down[0].item && Of(name, k.down[1..]) == Of(name, k.down)[1..]
  {
    OfFront(name, k.down);
  }

  lemma ResultGood(cfg: Config, s: System, c: nat, ec: Error, name: Bytes)
    requires c < |s.conns| && InvAt(cfg, s, c) && IsTwoWay(cfg, name)
    requires s.conns[c].reading && s.conns[c].down != [] && s.conns[c].down[0].name != cfg.broadcast
    ensures
      var k := s.conns[c];
      var k1 := DeliverConn(cfg, k, ec).0;
      && k.client.sent <= k1.client.sent && k1.client.limit == k.client.limit
      && (name == k.down[0].name ==> name in k.client.closures)
      && Good(k.client.limit, TrackOf(k1, name, s.service.pending[(name, c)], s.held[(name, c)]), k1.reading, k1.live)
  {
    var k := s.conns[c];
    var tr := TrackAt(s, c, name);
    DispatchSent(k.client, k.down[0].name, k.down[0].item, ec);
    DeliverOnTrack(cfg, k, ec, name, tr.pending, tr.held);
    if k.down[0].name == name {
      OwnResultGood(k, name, ec, tr);
    } else {
      OtherResultGood(k, name, ec, tr);
    }
  }

  /** The result is for this function: its closure runs, and its next call goes out if it can. */
  lemma OwnResultGood(k: Conn, name: Bytes, ec: Error, tr: Track)
    requires k.reading && k.down != [] && k.down[0].name == name && tr == TrackOf(k, name, tr.pending, tr.held)
    requires Good(k.client.limit, tr, true, k.live)
    requires |k.client.sent| <= |DispatchResult(k.client, name, k.down[0].item, ec).0.sent|
    ensures
      var (client, outcome) := DispatchResult(k.client, name, k.down[0].item, ec);
      var k1 := OfClientConn(k.(down := k.down[1..]), client);
      && name in k.client.closures
      && Good(k.client.limit, TrackOf(k1, name, tr.pending, tr.held), outcome == Ran,
              k.live && client.phase == OPEN && outcome == Ran)
  {
    var k0 := k.(down := k.down[1..]);
    var client := DispatchResult(k.client, name, k.down[0].item, ec).0;
    FrontOfDown(k, name);
    ResultOnLane(k.client, name, k.down[0].item, ec, name);
    OfClientOnTrack(k0, client, name, tr.pending, tr.held);
    assert TrackOf(k0, name, tr.pending, tr.held) == tr.(down := tr.down[1..]);
    ResultSettled(k.client.limit, k.client.phase, tr, NextFits(k.client, name), ec);
    if NextFits(k.client, name) {
      ResultReading(k.client.limit, k.client.phase, tr, ec);
      if k.live && client.phase == OPEN {
        ResultLive(k.client.limit, tr, ec);
      }
    }
  }

  lemma OtherResultGood(k: Conn, name: Bytes, ec: Error, tr: Track)
    requires k.reading && k.down != [] && k.down[0].name != name && tr == TrackOf(k, name, tr.pending, tr.held)
    requires Good(k.client.limit, tr, true, k.live)
    requires |k.client.sent| <= |DispatchResult(k.client, k.down[0].name, k.down[0].item, ec).0.sent|
    ensures
      var (client, outcome) := DispatchResult(k.client, k.down[0].name, k.down[0].item, ec);
      var k1 := OfClientConn(k.(down := k.down[1..]), client);
      Good(k.client.limit, TrackOf(k1, name, tr.pending, tr.held), outcome == Ran,
           k.live && client.phase == OPEN && outcome == Ran)
  {
    var k0 := k.(down := k.down[1..]);
    FrontOfDown(k, name);
    DispatchSent(k.client, k.down[0].name, k.down[0].item, ec);
    ResultOnLane(k.client, k.down[0].name, k.down[0].item, ec, name);
    OtherFunction(k0, DispatchResult(k.client, k.down[0].name, k.down[0].item, ec).0, name, tr.pending, tr.held);
    assert TrackOf(k0, name, tr.pending, tr.held) == tr;
  }

  /** Whether the client still reads does not show in a track. */
  lemma DeliverOnTrack(cfg: Config, k: Conn, ec: Error, name: Bytes, pending: nat, held: nat)
    requires k.down != [] && k.down[0].name != cfg.broadcast
    ensures
      var (client, outcome) := DispatchResult(k.client, k.down[0].name, k.down[0].item, ec);
      var k0 := k.(down := k.down[1..]);
      var k1 := DeliverConn(cfg, k, ec).0;
      && k1.client == client && |k.client.sent| <= |client.sent|
      && TrackOf(k1, name, pending, held) == TrackOf(OfClientConn(k0, client), name, pending, held)
      && k1.reading == (k.reading && outcome == Ran) && k1.live == (k.live && client.phase == OPEN && outcome == Ran)
  {
  }

  /** An event is taken off the link and handed to the listeners, and nothing else. */
  lemma EventOnlyAt(cfg: Config, s: System, c: nat, ec: Error)
    requires Inv(cfg, s) && Enabled(cfg, s, Deliver(c, ec)) && s.conns[c].down[0].name == cfg.broadcast
    ensures
      var s1, k := DeliverAt(cfg, s, c, ec), s.conns[c];
      && OnlyAt(cfg, s, s1, c) && s1.service == s.service && s1.held == s.held
      && s1.conns[c] == k.(down := k.down[1..],
                           client := k.client.(events := k.client.events + [k.down[0].item]),
                           live := k.live && k.client.phase == OPEN)
  {
    assert s.conns[c].up + [] == s.conns[c].up;
    assert DeliverFaults(Ran, c) == {};
  }

  lemma EventOnTrack(cfg: Config, s: System, c: nat, ec: Error, name: Bytes)
    requires IsConfig(cfg) && Inv(cfg, s) && Enabled(cfg, s, Deliver(c, ec)) && IsTwoWay(cfg, name)
    requires s.conns[c].down[0].name == cfg.broadcast
    ensures TrackAt(DeliverAt(cfg, s, c, ec), c, name) == TrackAt(s, c, name)
  {
    EventOnlyAt(cfg, s, c, ec);
    FrontOfDown(s.conns[c], name);
  }

  lemma EventKeeps(cfg: Config, s: System, c: nat, ec: Error)
    requires IsConfig(cfg) && Inv(cfg, s) && Enabled(cfg, s, Deliver(c, ec))
    requires s.conns[c].down[0].name == cfg.broadcast
    ensures Inv(cfg, DeliverAt(cfg, s, c, ec))
  {
    var s1 := DeliverAt(cfg, s, c, ec);
    var k := s.conns[c];
    assert InvAt(cfg, s, c);
    EventOnlyAt(cfg, s, c, ec);
    forall name | IsTwoWay(cfg, name)
      ensures Good(k.client.limit, TrackAt(s1, c, name), k.reading, s1.conns[c].live)
    {
      EventOnTrack(cfg, s, c, ec, name);
      LessLive(k.client.limit, TrackAt(s, c, name), k.reading, k.live, k.reading, s1.conns[c].live);
    }
    StepAt(cfg, s, s1, c);
  }

  /** A result that a closure awaits leaves no trace outside of its connection. */
  lemma ResultOnlyAt(cfg: Config, s: System, c: nat, ec: Error)
    requires Inv(cfg, s) && Enabled(cfg, s, Deliver(c, ec))
    requires s.conns[c].down[0].name != cfg.broadcast && s.conns[c].down[0].name in s.conns[c].client.closures
    ensures
      var s1 := DeliverAt(cfg, s, c, ec);
      && OnlyAt(cfg, s, s1, c) && s1.service == s.service && s1.held == s.held
      && s1.conns[c] == DeliverConn(cfg, s.conns[c], ec).0
  {
  }

  /** What a client writes on a result is the next call of the same function, if anything. */
  lemma ResultSends(k: Conn, name: Bytes, archive: Bytes, ec: Error)
    ensures
      var client := DispatchResult(k.client, name, archive, ec).0;
      && k.client.sent <= client.sent
      && (forall m | m in OfClientConn(k, client).up :: m in k.up || m.name == name)
  {
    DispatchSent(k.client, name, archive, ec);
  }

  lemma PlausibleUpdate(cfg: Config, k: Conn, k1: Conn, name: Bytes, connected: bool)
    requires Plausible(cfg, k, connected) && name in cfg.dict
    requires forall m | m in k1.up :: m in k.up || m.name == name
    requires forall m | m in k1.down :: m in k.down
    requires k1.live ==> k.live && k1.reading && k1.client.phase == OPEN
    ensures Plausible(cfg, k1, connected)
  {
  }

  lemma ResultPlausible(cfg: Config, s: System, c: nat, ec: Error)
    requires Inv(cfg, s) && Enabled(cfg, s, Deliver(c, ec)) && IsReply(cfg, s.conns[c].down[0])
    requires s.conns[c].down[0].name != cfg.broadcast
    ensures Plausible(cfg, DeliverConn(cfg, s.conns[c], ec).0, c in s.service.clients)
  {
    var k := s.conns[c];
    var m := k.down[0];
    assert InvAt(cfg, s, c);
    ResultSends(k.(down := k.down[1..]), m.name, m.item, ec);
    DeliverOnTrack(cfg, k, ec, m.name, 0, 0);
    PlausibleUpdate(cfg, k, DeliverConn(cfg, k, ec).0, m.name, c in s.service.clients);
  }

  lemma ResultKeeps(cfg: Config, s: System, c: nat, ec: Error)
    requires Inv(cfg, s) && Enabled(cfg, s, Deliver(c, ec))
    requires s.conns[c].down[0].name != cfg.broadcast
    ensures Inv(cfg, DeliverAt(cfg, s, c, ec))
  {
    var s1 := DeliverAt(cfg, s, c, ec);
    var m := s.conns[c].down[0];
    assert InvAt(cfg, s, c);
    assert IsReply(cfg, m);
    ResultGood(cfg, s, c, ec, m.name);
    ResultPlausible(cfg, s, c, ec);
    ResultOnlyAt(cfg, s, c, ec);
    forall name | IsTwoWay(cfg, name)
      ensures Good(s1.conns[c].client.limit, TrackAt(s1, c, name), s1.conns[c].reading, s1.conns[c].live)
    {
      ResultGood(cfg, s, c, ec, name);
    }
    StepAt(cfg, s, s1, c);
  }

  lemma DeliverKeeps(cfg: Config, s: System, c: nat, ec: Error)
    requires IsConfig(cfg) && Inv(cfg, s) && Enabled(cfg, s, Deliver(c, ec))
    ensures Inv(cfg, Apply(cfg, s, Deliver(c, ec)))
  {
    if s.conns[c].down[0].name == cfg.broadcast {
      EventKeeps(cfg, s, c, ec);
    } else {
      ResultKeeps(cfg, s, c, ec);
    }
  }

  // ---- the service ----

  lemma FrontOfUp(k: Conn, name: Bytes)
    requires k.up != []
    ensures k.up[0].name == name ==>
      Of(name, k.up) != [] && Of(name, k.up)[0] == k.up[0].item && Of(name, k.up[1..]) == Of(name, k.up)[1..]
    ensures k.up[0].name != name ==> Of(name, k.up[1..]) == Of(name, k.up)
  {
    OfFront(name, k.up);
  }

  lemma ServeConnOnTrack(k: Conn, outcome: DispatchOutcome, connected: bool, written: bool,
                         name: Bytes, pending: nat, held: nat)
    requires k.up != []
    ensures
      var m := k.up[0];
      var tr := TrackOf(k, name, pending, held);
      TrackOf(ServeConn(k, outcome, connected, written), name, pending, held)
      == if m.name != name || tr.up == [] then tr
         else tr.(up := tr.up[1..],
                  served := if outcome == CalledTwoWay || outcome == CalledOneWay then tr.served + [m.item] else tr.served,
                  down := if outcome == InProgress && written then tr.down + [IN_PROGRESS_ARCHIVE] else tr.down)
  {
    FrontOfUp(k, name);
    OfAppend(name, k.served, k.up[0]);
    OfAppend(name, k.down, Named(k.up[0].name, IN_PROGRESS_ARCHIVE));
    assert Of(name, k.served) + [] == Of(name, k.served);
    assert Of(name, k.down) + [] == Of(name, k.down);
  }

  /** The call and its service closure become pending, or nothing does. */
  lemma ServeOnCounts(s: System, c: nat, written: bool, name: Bytes, d: nat)
    requires c < |s.conns| && s.conns[c].up != []
    ensures
      var s1, m := ServeAt(s, c, written), s.conns[c].up[0];
      var more := if Dispatch(s.service, c, m.name, written).1 == CalledTwoWay && (m.name, c) == (name, d) then 1 else 0;
      && s1.service.pending[(name, d)] == s.service.pending[(name, d)] + more
      && s1.held[(name, d)] == s.held[(name, d)] + more
      && s1.service.clients <= s.service.clients && (d != c && d in s.service.clients ==> d in s1.service.clients)
  {
    ServiceRuns.DispatchOnPending(s.service, c, s.conns[c].up[0].name, written, (name, d));
  }

  lemma ServeOnTrack(cfg: Config, s: System, c: nat, written: bool, name: Bytes)
    requires c < |s.conns| && s.conns[c].up != [] && IsTwoWay(cfg, name) && s.service.dict == cfg.dict
    requires IsRequest(cfg, s.conns[c].up[0]) && s.service.pending[(name, c)] <= 1
    ensures s.conns[c].up[0].name == name ==> Of(name, s.conns[c].up) != []
    ensures
      var m := s.conns[c].up[0];
      var tr := TrackAt(s, c, name);
      TrackAt(ServeAt(s, c, written), c, name)
      == if m.name == name then DispatchTrack(tr, if written then Some(IN_PROGRESS_ARCHIVE) else None) else tr
  {
    var k := s.conns[c];
    var s1 := ServeAt(s, c, written);
    var outcome := Dispatch(s.service, c, k.up[0].name, written).1;
    var pending, held := s1.service.pending[(name, c)], s1.held[(name, c)];
    ServeOnCounts(s, c, written, name, c);
    FrontOfUp(k, name);
    ServeConnOnTrack(k, outcome, c in s1.service.clients, written, name, pending, held);
  }

  lemma ServeKeeps(cfg: Config, s: System, c: nat, written: bool)
    requires Inv(cfg, s) && Enabled(cfg, s, Serve(c, written))
    ensures Inv(cfg, Apply(cfg, s, Serve(c, written)))
  {
    var s1 := ServeAt(s, c, written);
    var k := s.conns[c];
    var m := k.up[0];
    assert InvAt(cfg, s, c);
    assert IsRequest(cfg, m);
    forall name | IsTwoWay(cfg, name)
      ensures Good(k.client.limit, TrackAt(s1, c, name), k.reading, k.live)
      ensures name == m.name && k.reading ==> s.service.pending[(name, c)] == 0
    {
      var tr := TrackAt(s, c, name);
      assert Good(k.client.limit, tr, k.reading, k.live);
      ServeOnTrack(cfg, s, c, written, name);
      if name == m.name {
        FrontOfUp(k, name);
        DispatchGood(k.client.limit, tr, if written then Some(IN_PROGRESS_ARCHIVE) else None, k.reading, k.live);
      }
    }
    ServedOnlyAt(cfg, s, c, written);
    ServedPlausible(cfg, s, c, written);
    forall name | IsTwoWay(cfg, name)
      ensures Good(k.client.limit, TrackAt(s1, c, name), s1.conns[c].reading, s1.conns[c].live)
    {
      LessLive(k.client.limit, TrackAt(s1, c, name), k.reading, k.live, s1.conns[c].reading, s1.conns[c].live);
    }
    StepAt(cfg, s, s1, c);
  }

  lemma ServedElsewhere(s: System, c: nat, written: bool, d: nat)
    requires c < |s.conns| && s.conns[c].up != [] && d != c
    ensures SameService(s, ServeAt(s, c, written), d)
  {
    forall name: Bytes
      ensures ServeAt(s, c, written).service.pending[(name, d)] == s.service.pending[(name, d)]
      ensures ServeAt(s, c, written).held[(name, d)] == s.held[(name, d)]
    {
      ServeOnCounts(s, c, written, name, d);
    }
    ServeOnCounts(s, c, written, [], d);
  }

  lemma ServedHeld(cfg: Config, s: System, c: nat, written: bool)
    requires Inv(cfg, s) && c < |s.conns| && s.conns[c].up != []
    ensures forall h | h in ServeAt(s, c, written).held :: IsTwoWay(cfg, h.0)
    ensures ServeAt(s, c, written).service.dict == cfg.dict
  {
    var m := s.conns[c].up[0];
    forall h | h in ServeAt(s, c, written).held
      ensures IsTwoWay(cfg, h.0)
    {
      assert h in s.held || h == (m.name, c);
    }
  }

  lemma ServedFaults(cfg: Config, s: System, c: nat, written: bool)
    requires Inv(cfg, s) && c < |s.conns| && s.conns[c].up != [] && IsRequest(cfg, s.conns[c].up[0])
    requires
      var m := s.conns[c].up[0];
      IsTwoWay(cfg, m.name) && s.conns[c].reading ==> s.service.pending[(m.name, c)] == 0
    ensures
      var s1 := ServeAt(s, c, written);
      && (forall f | f in s1.faults :: f in s.faults || NoFault(s1, f))
      && s1.conns == s.conns[c := s1.conns[c]]
      && s1.conns[c].client == s.conns[c].client && s1.conns[c].reading == s.conns[c].reading
      && (s1.conns[c].live ==> s.conns[c].live)
  {
  }

  lemma ServedOnlyAt(cfg: Config, s: System, c: nat, written: bool)
    requires Inv(cfg, s) && Enabled(cfg, s, Serve(c, written))
    requires
      var m := s.conns[c].up[0];
      IsTwoWay(cfg, m.name) && s.conns[c].reading ==> s.service.pending[(m.name, c)] == 0
    ensures
      var s1 := ServeAt(s, c, written);
      && OnlyAt(cfg, s, s1, c)
      && s1.conns[c].client == s.conns[c].client && s1.conns[c].reading == s.conns[c].reading
      && (s1.conns[c].live ==> s.conns[c].live)
  {
    assert InvAt(cfg, s, c);
    assert IsRequest(cfg, s.conns[c].up[0]);
    ServedHeld(cfg, s, c, written);
    ServedFaults(cfg, s, c, written);
    forall d: nat | d != c
      ensures SameService(s, ServeAt(s, c, written), d)
    {
      ServedElsewhere(s, c, written, d);
    }
  }

  lemma ServedPlausible(cfg: Config, s: System, c: nat, written: bool)
    requires Inv(cfg, s) && Enabled(cfg, s, Serve(c, written))
    ensures
      var s1 := ServeAt(s, c, written);
      |s1.conns| == |s.conns| && Plausible(cfg, s1.conns[c], c in s1.service.clients)
  {
    var m := s.conns[c].up[0];
    assert InvAt(cfg, s, c);
    assert IsRequest(cfg, m);
    if Dispatch(s.service, c, m.name, written).1 == InProgress {
      assert IsReply(cfg, Named(m.name, IN_PROGRESS_ARCHIVE));
    }
  }

  lemma AnswerConnOnTrack(k: Conn, m: Msg, outcome: AnswerOutcome, name: Bytes, pending: nat, held: nat)
    requires outcome != AlreadyDelivered
    ensures
      var tr := TrackOf(k, name, pending, held);
      TrackOf(AnswerConn(k, m, outcome), name, pending, held)
      == if m.name != name then tr
         else tr.(answers := tr.answers + [m.item],
                  down := if outcome == ResultSent then tr.down + [m.item] else tr.down)
  {
    OfAppend(name, k.answers, m);
    OfAppend(name, k.down, m);
    assert Of(name, k.answers) + [] == Of(name, k.answers) && Of(name, k.down) + [] == Of(name, k.down);
  }

  lemma AnswerOnCounts(s: System, c: nat, n: Bytes, archive: Bytes, written: bool, name: Bytes, d: nat)
    requires c < |s.conns| && s.service.pending[(n, c)] != 0 && s.held[(n, c)] != 0
    ensures
      var s1 := AnswerAt(s, c, n, archive, written);
      var less := if (n, c) == (name, d) then 1 else 0;
      && s1.service.pending[(name, d)] == s.service.pending[(name, d)] - less
      && s1.held[(name, d)] == s.held[(name, d)] - less
      && s1.service.clients <= s.service.clients && (d != c && d in s.service.clients ==> d in s1.service.clients)
  {
    ServiceRuns.AnswerOnPending(s.service, c, n, written, (name, d));
  }

  lemma AnswerOnTrack(s: System, c: nat, n: Bytes, archive: Bytes, written: bool, name: Bytes)
    requires c < |s.conns| && s.service.pending[(n, c)] != 0 && s.held[(n, c)] != 0
    ensures
      var tr := TrackAt(s, c, name);
      TrackAt(AnswerAt(s, c, n, archive, written), c, name)
      == if n == name then AnswerTrack(tr, archive, written && c in s.service.clients) else tr
  {
    var s1 := AnswerAt(s, c, n, archive, written);
    AnswerOnCounts(s, c, n, archive, written, name, c);
    AnswerConnOnTrack(s.conns[c], Named(n, archive), SendResult(s.service, c, n, written).1, name,
                      s1.service.pending[(name, c)], s1.held[(name, c)]);
  }

  lemma AnsweredOnlyAt(cfg: Config, s: System, c: nat, n: Bytes, archive: Bytes, written: bool)
    requires Inv(cfg, s) && Enabled(cfg, s, Answer(c, n, archive, written)) && s.service.pending[(n, c)] != 0
    ensures
      var s1 := AnswerAt(s, c, n, archive, written);
      var sent := written && c in s.service.clients;
      && OnlyAt(cfg, s, s1, c)
      && s1.conns[c].client == s.conns[c].client && s1.conns[c].reading == s.conns[c].reading
      && s1.conns[c].live == (s.conns[c].live && sent)
  {
    var s1 := AnswerAt(s, c, n, archive, written);
    forall d: nat | d != c
      ensures SameService(s, s1, d)
    {
      forall name: Bytes
        ensures s1.service.pending[(name, d)] == s.service.pending[(name, d)] && s1.held[(name, d)] == s.held[(name, d)]
      {
        AnswerOnCounts(s, c, n, archive, written, name, d);
      }
      AnswerOnCounts(s, c, n, archive, written, [], d);
    }
  }

  lemma AnsweredPlausible(cfg: Config, s: System, c: nat, n: Bytes, archive: Bytes, written: bool)
    requires Inv(cfg, s) && Enabled(cfg, s, Answer(c, n, archive, written)) && s.service.pending[(n, c)] != 0
    ensures
      var s1 := AnswerAt(s, c, n, archive, written);
      Plausible(cfg, s1.conns[c], c in s1.service.clients)
  {
    assert InvAt(cfg, s, c);
    assert IsTwoWay(cfg, (n, c).0);
    var m := Named(n, archive);
    var k := AnswerConn(s.conns[c], m, SendResult(s.service, c, n, written).1);
    assert forall x | x in k.down :: x in s.conns[c].down || x == m;
    assert IsReply(cfg, m);
  }

  lemma AnswerKeeps(cfg: Config, s: System, c: nat, n: Bytes, archive: Bytes, written: bool)
    requires Inv(cfg, s) && Enabled(cfg, s, Answer(c, n, archive, written))
    ensures Inv(cfg, Apply(cfg, s, Answer(c, n, archive, written)))
  {
    var s1 := AnswerAt(s, c, n, archive, written);
    var k := s.conns[c];
    var sent := written && c in s.service.clients;
    assert InvAt(cfg, s, c);
    assert IsTwoWay(cfg, (n, c).0);
    AnswerGood(k.client.limit, TrackAt(s, c, n), archive, sent, k.reading, k.live);
    AnsweredOnlyAt(cfg, s, c, n, archive, written);
    AnsweredPlausible(cfg, s, c, n, archive, written);
    forall name | IsTwoWay(cfg, name)
      ensures Good(k.client.limit, TrackAt(s1, c, name), k.reading, s1.conns[c].live)
    {
      var tr := TrackAt(s, c, name);
      assert Good(k.client.limit, tr, k.reading, k.live);
      AnswerOnTrack(s, c, n, archive, written, name);
      if name == n {
        AnswerGood(k.client.limit, tr, archive, sent, k.reading, k.live);
      }
    }
    StepAt(cfg, s, s1, c);
  }

  // ---- connecting, broadcasting, and everything that fails ----

  lemma FreshTrack(s: System, c: nat, limit: nat, name: Bytes)
    requires c < |s.conns| && s.service.pending[(name, c)] == 0 && s.held[(name, c)] == 0
    requires s.conns[c] == Conn(Open(ClientModel.Start(limit)), true, true, [], [], [], [])
    ensures TrackAt(s, c, name) == Track(Lane([], None, [], [], [], [], []), [], [], [], [], 0, 0)
  {
  }

  lemma FreshKeeps(cfg: Config, s: System, c: nat, limit: nat)
    requires c < |s.conns| && c in s.service.clients && 0 < limit
    requires s.conns[c] == Conn(Open(ClientModel.Start(limit)), true, true, [], [], [], [])
    requires forall name :: s.service.pending[(name, c)] == 0 && s.held[(name, c)] == 0
    ensures InvAt(cfg, s, c)
  {
    forall name | IsTwoWay(cfg, name)
      ensures Good(limit, TrackAt(s, c, name), true, true)
    {
      FreshTrack(s, c, limit, name);
    }
  }

  lemma ConnectKeeps(cfg: Config, s: System, limit: nat)
    requires Inv(cfg, s) && Enabled(cfg, s, Connect(limit))
    ensures Inv(cfg, Apply(cfg, s, Connect(limit)))
  {
    var s1 := Apply(cfg, s, Connect(limit));
    var last := |s.conns|;
    forall name
      ensures s.service.pending[(name, last)] == 0 && s.held[(name, last)] == 0
    {
      assert (name, last) !in s.service.pending && (name, last) !in s.held;
    }
    forall c: nat | c < |s1.conns|
      ensures InvAt(cfg, s1, c)
    {
      if c < |s.conns| {
        assert SameService(s, s1, c);
        SameKeeps(cfg, s, s1, c);
      } else {
        FreshKeeps(cfg, s1, c, limit);
      }
    }
    forall f | f in s1.faults
      ensures NoFault(s1, f)
    {
      assert NoFault(s, f);
    }
  }

  lemma BroadcastKeeps(cfg: Config, s: System, event: Bytes)
    requires IsConfig(cfg) && Inv(cfg, s)
    ensures Inv(cfg, Apply(cfg, s, Broadcast(event)))
  {
    var s1 := Apply(cfg, s, Broadcast(event));
    forall c: nat | c < |s1.conns|
      ensures InvAt(cfg, s1, c)
    {
      assert InvAt(cfg, s, c);
      assert s1.conns[c] == BroadcastConn(cfg, s, c, event);
      var m := Named(cfg.broadcast, event);
      assert IsReply(cfg, m);
      forall name | IsTwoWay(cfg, name)
        ensures Good(s1.conns[c].client.limit, TrackAt(s1, c, name), s1.conns[c].reading, s1.conns[c].live)
      {
        OfAppend(name, s.conns[c].down, m);
        assert TrackAt(s1, c, name) == TrackAt(s, c, name);
      }
    }
    forall f | f in s1.faults
      ensures NoFault(s1, f)
    {
      assert NoFault(s, f);
    }
  }

  /** A failure that leaves every track as it is, on a connection that is not live afterwards. */
  lemma FailureKeeps(cfg: Config, s: System, s1: System, c: nat)
    requires Inv(cfg, s) && OnlyAt(cfg, s, s1, c)
    requires !s1.conns[c].live && s1.conns[c].client.limit == s.conns[c].client.limit
    requires s1.conns[c].up == s.conns[c].up && s1.conns[c].down == s.conns[c].down
    requires forall name | IsTwoWay(cfg, name) :: TrackAt(s1, c, name) == TrackAt(s, c, name)
    ensures Inv(cfg, s1)
  {
    var k := s.conns[c];
    assert InvAt(cfg, s, c);
    forall name | IsTwoWay(cfg, name)
      ensures Good(k.client.limit, TrackAt(s1, c, name), s1.conns[c].reading, false)
    {
      LessLive(k.client.limit, TrackAt(s, c, name), k.reading, k.live, s1.conns[c].reading, false);
    }
    StepAt(cfg, s, s1, c);
  }

  lemma CloseKeeps(cfg: Config, s: System, c: nat)
    requires Inv(cfg, s) && c < |s.conns|
    ensures Inv(cfg, Apply(cfg, s, CloseClient(c)))
  {
    var s1 := Apply(cfg, s, CloseClient(c));
    assert s.conns[c].up + [] == s.conns[c].up;
    assert s1.conns[c].up == s.conns[c].up;
    FailureKeeps(cfg, s, s1, c);
  }

  lemma BreakOnTrack(cfg: Config, s: System, c: nat, archive: Bytes, order: seq<Bytes>, recoverable: bool, name: Bytes)
    requires Enabled(cfg, s, BreakClient(c, archive, order, recoverable)) && name != []
    ensures
      var tr := TrackAt(s, c, name);
      TrackAt(Apply(cfg, s, BreakClient(c, archive, order, recoverable)), c, name) == OfClient(tr, ErrorLane(tr.l, archive))
  {
    var tr := TrackAt(s, c, name);
    ErrorOnLane(s.conns[c].client, archive, order, name);
    assert tr.up + [] == tr.up;
  }

  lemma BreakKeeps(cfg: Config, s: System, c: nat, archive: Bytes, order: seq<Bytes>, recoverable: bool)
    requires IsConfig(cfg) && Inv(cfg, s) && Enabled(cfg, s, BreakClient(c, archive, order, recoverable))
    ensures Inv(cfg, Apply(cfg, s, BreakClient(c, archive, order, recoverable)))
  {
    var s1 := Apply(cfg, s, BreakClient(c, archive, order, recoverable));
    var k := s.conns[c];
    assert InvAt(cfg, s, c);
    forall name | IsTwoWay(cfg, name)
      ensures Good(k.client.limit, TrackAt(s1, c, name), false, false)
    {
      var tr := TrackAt(s, c, name);
      BreakOnTrack(cfg, s, c, archive, order, recoverable, name);
      BreakGood(k.client.limit, tr, archive, k.reading, k.live);
    }
    StepAt(cfg, s, s1, c);
  }

  lemma StepKeeps(cfg: Config, s: System, l: Label)
    requires IsConfig(cfg) && Inv(cfg, s) && Enabled(cfg, s, l)
    ensures Inv(cfg, Apply(cfg, s, l))
  {
    match l
    case Connect(limit) => ConnectKeeps(cfg, s, limit);
    case CallTwoWay(c, name, call, ec) => CallKeeps(cfg, s, c, name, call, ec);
    case CallOneWay(c, name, args, ec) => OneWayKeeps(cfg, s, c, name, args, ec);
    case Deliver(c, ec) => DeliverKeeps(cfg, s, c, ec);
    case Serve(c, written) => ServeKeeps(cfg, s, c, written);
    case Answer(c, name, archive, written) => AnswerKeeps(cfg, s, c, name, archive, written);
    case Broadcast(event) => BroadcastKeeps(cfg, s, event);
    case CloseClient(c) => CloseKeeps(cfg, s, c);
    case EndRead(c) => FailureKeeps(cfg, s, Apply(cfg, s, l), c);
    case BreakClient(c, archive, order, recoverable) => BreakKeeps(cfg, s, c, archive, order, recoverable);
    case Disconnect(c) => FailureKeeps(cfg, s, Apply(cfg, s, l), c);
  }

  /** Every reachable state of every system, whatever fails in it. */
  lemma {:induction false} Reachable(cfg: Config, ls: seq<Label>)
    requires IsConfig(cfg) && Run(cfg, ls).Some?
    ensures Inv(cfg, Run(cfg, ls).value)
  {
    if ls != [] {
      Reachable(cfg, ls[..|ls| - 1]);
      StepKeeps(cfg, Run(cfg, ls[..|ls| - 1]).value, ls[|ls| - 1]);
    }
  }
}
