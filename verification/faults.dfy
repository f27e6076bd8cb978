/** Which failures let a run into an error branch: only a receive error that leaves the transport open. */
module Faults {
  import opened Wrappers
  import opened ByteStrings
  import opened Results
  import opened Messages
  import opened Connections
  import opened CallQueues
  import opened ClientModel
  import opened Lanes
  import opened Tracks
  import opened ServiceModel
  import opened WholeSystem
  import opened SystemInvariant
  import ServiceRuns
  import SystemTheorems

  /** The error was one of those for which the transport is not closed. */
  predicate IsRecovered(l: Label, c: nat) {
    l.BreakClient? && l.c == c && l.recoverable
  }

  predicate NeverRecovered(ls: seq<Label>, c: nat) {
    forall l | l in ls :: !IsRecovered(l, c)
  }

  /** Calls of one function and client that the service has or will have to take up. */
  function Requests(s: System, c: nat, name: Bytes): nat
    requires c < |s.conns|
  {
    |Of(name, s.conns[c].up)| + s.service.pending[(name, c)]
  }

  /** One at most, and as long as the client can make a call, none but that of the closure in flight. */
  predicate FewRequests(s: System, c: nat, name: Bytes)
    requires c < |s.conns|
  {
    var k := s.conns[c];
    && Requests(s, c, name) <= 1
    && (k.client.phase == OPEN && name !in k.client.closures ==> Requests(s, c, name) == 0)
  }

  /** The message of a call goes out only when none of its function is in flight, and then one is. */
  lemma CallWrites(k: Conn, n: Bytes, call: Call, ec: Error)
    ensures
      var client := SendCall(k.client, n, call, ec).0;
      && |k.client.sent| <= |client.sent|
      && (|| (OfClientConn(k, client).up == k.up && client.closures.Keys == k.client.closures.Keys)
          || (OfClientConn(k, client).up == k.up + [Named(n, call.args)] && k.client.phase == OPEN
              && n !in k.client.closures && client.closures.Keys == k.client.closures.Keys + {n}))
      && (client.phase == OPEN ==> k.client.phase == OPEN)
  {
    assert k.up + [] == k.up;
  }

  lemma CallRequests(cfg: Config, s: System, c: nat, n: Bytes, call: Call, ec: Error, name: Bytes)
    requires Enabled(cfg, s, CallTwoWay(c, n, call, ec)) && FewRequests(s, c, name)
    ensures FewRequests(Apply(cfg, s, CallTwoWay(c, n, call, ec)), c, name)
  {
    OfAppend(name, s.conns[c].up, Named(n, call.args));
    CallWrites(s.conns[c], n, call, ec);
  }

  lemma OneWayRequests(cfg: Config, s: System, c: nat, n: Bytes, args: Bytes, ec: Error, name: Bytes)
    requires Enabled(cfg, s, CallOneWay(c, n, args, ec)) && FewRequests(s, c, name) && IsTwoWay(cfg, name)
    ensures FewRequests(Apply(cfg, s, CallOneWay(c, n, args, ec)), c, name)
  {
    var k := s.conns[c];
    var client := SendOneWay(k.client, n, args, ec).0;
    OfAppend(name, k.up, Named(n, args));
    assert k.up + [] == k.up;
    assert OfClientConn(k, client).up == k.up || OfClientConn(k, client).up == k.up + [Named(n, args)];
  }

  /** A result that is lost was the one token of its function. */
  lemma LostRequests(cfg: Config, s: System, c: nat, ec: Error, name: Bytes)
    requires IsConfig(cfg) && Enabled(cfg, s, Deliver(c, ec)) && FewRequests(s, c, name) && IsTwoWay(cfg, name)
    requires SystemTheorems.Tokens(s, c, name) <= if name in s.conns[c].client.closures then 1 else 0
    ensures !DeliverAt(cfg, s, c, ec).conns[c].reading ==> FewRequests(DeliverAt(cfg, s, c, ec), c, name)
  {
    var k := s.conns[c];
    FrontOfDown(k, name);
    if k.down[0].name != cfg.broadcast {
      DeliverOnTrack(cfg, k, ec, name, 0, 0);
    }
    assert k.up + [] == k.up;
  }

  lemma StepRequests(cfg: Config, s: System, l: Label, c: nat, name: Bytes)
    requires IsConfig(cfg) && Inv(cfg, s) && Enabled(cfg, s, l) && IsTwoWay(cfg, name) && c < |s.conns|
    requires !IsRecovered(l, c) && FewRequests(s, c, name)
    requires s.conns[c].reading ==>
      SystemTheorems.Tokens(s, c, name) <= if name in s.conns[c].client.closures then 1 else 0
    ensures c < |Apply(cfg, s, l).conns|
    ensures !Apply(cfg, s, l).conns[c].reading ==> FewRequests(Apply(cfg, s, l), c, name)
  {
    var k, s1 := s.conns[c], Apply(cfg, s, l);
    match l
    case Serve(d, written) => ServeRequests(cfg, s, d, written, c, name);
    case Answer(d, n, archive, written) => AnswerRequests(cfg, s, d, n, archive, written, c, name);
    case CallTwoWay(d, n, call, ec) => if d == c { CallRequests(cfg, s, c, n, call, ec, name); }
    case CallOneWay(d, n, args, ec) => if d == c { OneWayRequests(cfg, s, c, n, args, ec, name); }
    case Deliver(d, ec) => if d == c { LostRequests(cfg, s, c, ec, name); }
    case _ => OtherRequests(cfg, s, l, c, name);
  }

  lemma OtherRequests(cfg: Config, s: System, l: Label, c: nat, name: Bytes)
    requires Enabled(cfg, s, l) && c < |s.conns| && !IsRecovered(l, c) && FewRequests(s, c, name)
    requires l.Connect? || l.Broadcast? || l.CloseClient? || l.EndRead? || l.BreakClient? || l.Disconnect?
    ensures c < |Apply(cfg, s, l).conns| && FewRequests(Apply(cfg, s, l), c, name)
  {
    var k, s1 := s.conns[c], Apply(cfg, s, l);
    assert k.up + [] == k.up;
    assert s1.conns[c].up == k.up && s1.service.pending == s.service.pending;
  }

  lemma ServeRequests(cfg: Config, s: System, d: nat, written: bool, c: nat, name: Bytes)
    requires Inv(cfg, s) && Enabled(cfg, s, Serve(d, written)) && IsTwoWay(cfg, name) && c < |s.conns|
    requires Requests(s, c, name) <= 1
    ensures Requests(ServeAt(s, d, written), c, name) <= Requests(s, c, name)
    ensures c < |ServeAt(s, d, written).conns| && ServeAt(s, d, written).conns[c].client == s.conns[c].client
    ensures d == c && s.conns[c].up[0].name == name ==> s.service.pending[(name, c)] == 0
  {
    ServeOnCounts(s, d, written, name, c);
    if d == c {
      FrontOfUp(s.conns[c], name);
    }
  }

  lemma AnswerRequests(cfg: Config, s: System, d: nat, n: Bytes, archive: Bytes, written: bool, c: nat, name: Bytes)
    requires Inv(cfg, s) && Enabled(cfg, s, Answer(d, n, archive, written)) && c < |s.conns|
    ensures Requests(AnswerAt(s, d, n, archive, written), c, name) <= Requests(s, c, name)
    ensures AnswerAt(s, d, n, archive, written).conns[c].client == s.conns[c].client
  {
    ServiceRuns.AnswerOnPending(s.service, d, n, written, (name, c));
  }

  lemma {:induction false} OneRequest(cfg: Config, ls: seq<Label>, c: nat, name: Bytes)
    requires IsConfig(cfg) && Run(cfg, ls).Some? && IsTwoWay(cfg, name) && c < |Run(cfg, ls).value.conns|
    requires NeverRecovered(ls, c)
    ensures FewRequests(Run(cfg, ls).value, c, name)
  {
    SystemTheorems.NameOnlyCorrelation(cfg, ls, c, name);
    if ls != [] {
      var before, l := ls[..|ls| - 1], ls[|ls| - 1];
      var s := Run(cfg, before).value;
      assert l in ls && forall x | x in before :: x in ls;
      if c < |s.conns| {
        Reachable(cfg, before);
        OneRequest(cfg, before, c, name);
        SystemTheorems.NameOnlyCorrelation(cfg, before, c, name);
        StepRequests(cfg, s, l, c, name);
      }
    }
  }

  lemma StepFaults(cfg: Config, s: System, l: Label, f: Fault)
    requires Enabled(cfg, s, l) && f in Apply(cfg, s, l).faults && f !in s.faults && f.CallInProgress?
    ensures l.Serve? && l.c == f.c && Dispatch(s.service, l.c, s.conns[l.c].up[0].name, l.written).1 == InProgress
  {
  }

  lemma {:induction false} NotInProgress(cfg: Config, ls: seq<Label>, c: nat)
    requires IsConfig(cfg) && Run(cfg, ls).Some? && NeverRecovered(ls, c)
    ensures CallInProgress(c) !in Run(cfg, ls).value.faults
  {
    if ls != [] {
      var before, l := ls[..|ls| - 1], ls[|ls| - 1];
      var s := Run(cfg, before).value;
      assert forall x | x in before :: x in ls;
      NotInProgress(cfg, before, c);
      if CallInProgress(c) in Run(cfg, ls).value.faults {
        StepFaults(cfg, s, l, CallInProgress(c));
        var name := s.conns[c].up[0].name;
        Reachable(cfg, before);
        OneRequest(cfg, before, c, name);
        ServeRequests(cfg, s, c, l.written, c, name);
      }
    }
  }

  /** Every call that was made has a message that can be written. */
  predicate CallsFit(ls: seq<Label>) {
    forall l | l in ls && l.CallTwoWay? :: CanWrite(Named(l.name, l.call.args))
  }

  /** All that waits in the queues of a client can be written. */
  predicate QueuesFit(s: ClientState) {
    forall name, i | name in s.queues && 0 <= i < |s.queues[name]| :: CanWrite(Named(name, s.queues[name][i].args))
  }

  lemma CallQueuesFit(s: ClientState, name: Bytes, call: Call, ec: Error)
    requires QueuesFit(s) && CanWrite(Named(name, call.args))
    ensures QueuesFit(SendCall(s, name, call, ec).0)
  {
  }

  lemma DispatchQueuesFit(s: ClientState, name: Bytes, archive: Bytes, ec: Error)
    requires QueuesFit(s)
    ensures QueuesFit(DispatchResult(s, name, archive, ec).0) && NextFits(s, name)
    ensures DispatchResult(s, name, archive, ec).1 != Lost
  {
  }

  lemma StepQueuesFit(cfg: Config, s: System, l: Label, c: nat)
    requires Enabled(cfg, s, l) && c < |s.conns| && QueuesFit(s.conns[c].client)
    requires l.CallTwoWay? ==> CanWrite(Named(l.name, l.call.args))
    ensures c < |Apply(cfg, s, l).conns| && QueuesFit(Apply(cfg, s, l).conns[c].client)
    ensures l.Deliver? && l.c == c ==> DeliverConn(cfg, s.conns[c], l.ec).1 != Lost
  {
    var k := s.conns[c];
    match l
    case CallTwoWay(d, name, call, ec) => if d == c { CallQueuesFit(k.client, name, call, ec); }
    case Deliver(d, ec) => if d == c { DispatchQueuesFit(k.client, k.down[0].name, k.down[0].item, ec); }
    case _ =>
  }

  lemma {:induction false} ReachableQueuesFit(cfg: Config, ls: seq<Label>, c: nat)
    requires Run(cfg, ls).Some? && CallsFit(ls) && c < |Run(cfg, ls).value.conns|
    ensures QueuesFit(Run(cfg, ls).value.conns[c].client)
  {
    if ls != [] {
      var before, l := ls[..|ls| - 1], ls[|ls| - 1];
      assert l in ls && forall x | x in before :: x in ls;
      if c < |Run(cfg, before).value.conns| {
        ReachableQueuesFit(cfg, before, c);
        StepQueuesFit(cfg, Run(cfg, before).value, l, c);
      }
    }
  }

  // ---- the exact condition ----

  /**
   * The service refuses a call if and only if the closure of an earlier call of that function by that
   * client was not called yet: a service author can see that before the call is taken up.
   */
  lemma RefusedIffHeld(cfg: Config, ls: seq<Label>, s: System, c: nat, written: bool)
    requires IsConfig(cfg) && Run(cfg, ls) == Some(s) && Enabled(cfg, s, Serve(c, written))
    ensures
      var name := s.conns[c].up[0].name;
      Dispatch(s.service, c, name, written).1 == InProgress <==> (name, c) in s.held
  {
    var name := s.conns[c].up[0].name;
    Reachable(cfg, ls);
    assert InvAt(cfg, s, c);
    if (name, c) in s.held {
      assert IsTwoWay(cfg, (name, c).0);
    }
    if IsTwoWay(cfg, name) {
      assert Settled(TrackAt(s, c, name));
    }
  }

  /**
   * Whenever the service took up a call, no closure of that function and client was still to be called, and
   * whenever a client got a result, no call that is too long was queued behind it.
   */
  predicate NeverAmiss(cfg: Config, ls: seq<Label>)
    requires Run(cfg, ls).Some?
  {
    ls != [] ==>
      var s, l := Run(cfg, ls[..|ls| - 1]).value, ls[|ls| - 1];
      && NeverAmiss(cfg, ls[..|ls| - 1])
      && (l.Serve? ==> (s.conns[l.c].up[0].name, l.c) !in s.held)
      && (l.Deliver? ==> !MeetsTooLong(cfg, s.conns[l.c]))
  }

  /** The next message is the result of a call behind which one that is too long is queued. */
  predicate MeetsTooLong(cfg: Config, k: Conn)
    requires k.down != []
  {
    var name := k.down[0].name;
    name != cfg.broadcast && name in k.client.closures && 1 < k.client.limit && !NextFits(k.client, name)
  }

  lemma StepFaultsExactly(cfg: Config, before: seq<Label>, s: System, l: Label)
    requires IsConfig(cfg) && Run(cfg, before) == Some(s) && Enabled(cfg, s, l)
    ensures Apply(cfg, s, l).faults == {} <==>
      && s.faults == {}
      && (l.Serve? ==> (s.conns[l.c].up[0].name, l.c) !in s.held)
      && (l.Deliver? ==> !MeetsTooLong(cfg, s.conns[l.c]))
  {
    match l
    case Serve(c, written) =>
      RefusedIffHeld(cfg, before, s, c, written);
      ServeKnown(cfg, before, s, c, written);
      assert Apply(cfg, s, l).faults
          == s.faults + ServeFaults(Dispatch(s.service, c, s.conns[c].up[0].name, written).1, c);
    case Deliver(c, ec) =>
      DeliverAwaited(cfg, before, s, c, ec);
      assert Apply(cfg, s, l).faults == s.faults + DeliverFaults(DeliverConn(cfg, s.conns[c], ec).1, c);
    case Answer(c, name, archive, written) =>
      Reachable(cfg, before);
      assert InvAt(cfg, s, c) && IsTwoWay(cfg, (name, c).0);
      assert Settled(TrackAt(s, c, name));
    case _ =>
  }

  lemma ServeKnown(cfg: Config, before: seq<Label>, s: System, c: nat, written: bool)
    requires IsConfig(cfg) && Run(cfg, before) == Some(s) && Enabled(cfg, s, Serve(c, written))
    ensures Dispatch(s.service, c, s.conns[c].up[0].name, written).1 != UnknownFunction
  {
    Reachable(cfg, before);
    assert InvAt(cfg, s, c);
    assert IsRequest(cfg, s.conns[c].up[0]);
  }

  lemma DeliverAwaited(cfg: Config, before: seq<Label>, s: System, c: nat, ec: Error)
    requires IsConfig(cfg) && Run(cfg, before) == Some(s) && Enabled(cfg, s, Deliver(c, ec))
    ensures DeliverConn(cfg, s.conns[c], ec).1 != NotAwaited
    ensures DeliverConn(cfg, s.conns[c], ec).1 == Lost <==> MeetsTooLong(cfg, s.conns[c])
  {
    var k := s.conns[c];
    Reachable(cfg, before);
    assert InvAt(cfg, s, c);
    if k.down[0].name != cfg.broadcast {
      assert IsReply(cfg, k.down[0]);
      ResultGood(cfg, s, c, ec, k.down[0].name);
    }
  }

  /**
   * A run takes no error branch if and only if the service never took up a call of a function and client
   * whose earlier closure it still had to call, and no client got a result in front of a queued call that
   * is too long.
   */
  lemma {:induction false} FaultsExactly(cfg: Config, ls: seq<Label>)
    requires IsConfig(cfg) && Run(cfg, ls).Some?
    ensures Run(cfg, ls).value.faults == {} <==> NeverAmiss(cfg, ls)
  {
    if ls != [] {
      var before, l := ls[..|ls| - 1], ls[|ls| - 1];
      FaultsExactly(cfg, before);
      StepFaultsExactly(cfg, before, Run(cfg, before).value, l);
    }
  }

  lemma {:induction false} NotLost(cfg: Config, ls: seq<Label>, c: nat)
    requires Run(cfg, ls).Some? && CallsFit(ls)
    ensures ResultLost(c) !in Run(cfg, ls).value.faults
  {
    if ls != [] {
      var before, l := ls[..|ls| - 1], ls[|ls| - 1];
      var s := Run(cfg, before).value;
      assert l in ls && forall x | x in before :: x in ls;
      NotLost(cfg, before, c);
      if l.Deliver? {
        ReachableQueuesFit(cfg, before, l.c);
        StepQueuesFit(cfg, s, l, l.c);
      }
    }
  }

  /**
   * No error branch is ever taken in a run whose receive errors all close the transport and whose calls
   * all fit, whatever else fails in it: writes, connections, the clients' own closing.
   */
  lemma NoErrorBranch(cfg: Config, ls: seq<Label>)
    requires IsConfig(cfg) && Run(cfg, ls).Some?
    requires (forall c: nat :: NeverRecovered(ls, c)) && CallsFit(ls)
    ensures Run(cfg, ls).value.faults == {} && NeverAmiss(cfg, ls)
  {
    SystemTheorems.ErrorBranches(cfg, ls);
    forall f | f in Run(cfg, ls).value.faults
      ensures false
    {
      NotInProgress(cfg, ls, if f.CallInProgress? then f.c else 0);
      NotLost(cfg, ls, if f.ResultLost? then f.c else 0);
    }
    FaultsExactly(cfg, ls);
  }
}
