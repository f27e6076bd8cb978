/** What becomes of a client's calls once it does not read any more. */
module Endings {
  import opened Wrappers
  import opened ByteStrings
  import opened Results
  import opened Messages
  import opened Connections
  import opened CallQueues
  import opened ClientModel
  import opened Lanes
  import opened WholeSystem

  /**
   * Calls in flight stay in flight and queued ones stay queued.  No closure is run, but for one at most: that
   * of a new call that is refused because its own write fails, which closes the transport.
   */
  ghost predicate Hangs(k: Conn, k1: Conn) {
    && !k1.reading && k1.client.invoked == k.client.invoked && k1.client.failed == k.client.failed
    && (k1.client.phase == OPEN ==> k.client.phase == OPEN)
    && (k1.client.refused == k.client.refused || IsRefusedOnce(k.client, k1.client))
    && (forall name | name in k.client.closures ::
          name in k1.client.closures && k1.client.closures[name] == k.client.closures[name])
    && (forall name :: QueueOf(k.client.queues, name) <= QueueOf(k1.client.queues, name))
  }

  predicate IsRefusedOnce(s: ClientState, s1: ClientState) {
    && s.phase == OPEN && s1.phase == CLOSED
    && |s1.refused| == |s.refused| + 1 && s1.refused[..|s.refused|] == s.refused
    && s1.refused[|s.refused|].item.1.code != 0
  }

  /** The call of that step was refused, and its closure run with the error of its write. */
  predicate IsRefused(l: Label, c: nat, s: ClientState, s1: ClientState) {
    l.CallTwoWay? && l.c == c && l.ec.code != 0 && s1.refused == s.refused + [Named(l.name, (l.call.closure, l.ec))]
  }

  lemma StepRefuses(cfg: Config, s: System, l: Label, c: nat)
    requires Enabled(cfg, s, l) && c < |s.conns|
    ensures c < |Apply(cfg, s, l).conns|
    ensures
      var k, k1 := s.conns[c].client, Apply(cfg, s, l).conns[c].client;
      k1.refused == k.refused || IsRefused(l, c, k, k1)
  {
  }

  lemma CallHangs(k: Conn, name: Bytes, call: Call, args: Bytes, ec: Error)
    requires !k.reading
    ensures Hangs(k, OfClientConn(k, SendCall(k.client, name, call, ec).0))
    ensures Hangs(k, OfClientConn(k, SendOneWay(k.client, name, args, ec).0))
  {
  }

  lemma StepHangs(cfg: Config, s: System, l: Label, c: nat)
    requires Enabled(cfg, s, l) && c < |s.conns| && !s.conns[c].reading
    ensures c < |Apply(cfg, s, l).conns| && Hangs(s.conns[c], Apply(cfg, s, l).conns[c])
  {
    var k := s.conns[c];
    match l
    case CallTwoWay(d, name, call, ec) => if d == c { CallHangs(k, name, call, [], ec); }
    case CallOneWay(d, name, args, ec) => if d == c { CallHangs(k, name, Call([], Closure(0, None)), args, ec); }
    case _ =>
  }

  /**
   * From the moment a client has no read in progress, whatever then happens: none of the calls that it
   * made or that it makes is ever completed, with a result or with an error; those in flight and queued
   * stay what they are.  The closure of one call at most is run: that of a call whose own write fails, and
   * it is run with the error of that write.
   */
  lemma {:induction false} NeverRunsAgain(cfg: Config, s: System, ls: seq<Label>, s1: System, c: nat)
    requires c < |s.conns| && !s.conns[c].reading && RunFrom(cfg, s, ls) == Some(s1)
    ensures c < |s1.conns| && Hangs(s.conns[c], s1.conns[c])
    ensures s1.conns[c].client.refused != s.conns[c].client.refused ==>
      exists l :: l in ls && IsRefused(l, c, s.conns[c].client, s1.conns[c].client)
  {
    if ls != [] {
      var before, l := ls[..|ls| - 1], ls[|ls| - 1];
      var s0 := RunFrom(cfg, s, before).value;
      NeverRunsAgain(cfg, s, before, s0, c);
      StepHangs(cfg, s0, l, c);
      StepRefuses(cfg, s0, l, c);
      assert l in ls && forall x | x in before :: x in ls;
      assert forall name :: QueueOf(s.conns[c].client.queues, name) <= QueueOf(s1.conns[c].client.queues, name) by {
        forall name
          ensures QueueOf(s.conns[c].client.queues, name) <= QueueOf(s1.conns[c].client.queues, name)
        {
          assert QueueOf(s.conns[c].client.queues, name) <= QueueOf(s0.conns[c].client.queues, name);
        }
      }
    }
  }

  /**
   * How the read of a closed client ends, by the read that its ReadChannel had in progress as it closed:
   * that one is aborted; if there was none, as inside a message handler, one is started next, in vain.
   */
  function ClosedRead(outstanding: Option<nat>, message: Bytes): Error {
    Error(if outstanding.Some? then OPERATION_ABORTED else BAD_DESCRIPTOR, message)
  }

  function ReadFails(c: nat, k: Conn, ec: Error, order: seq<Bytes>): Label {
    if ec.code == OPERATION_ABORTED && k.client.phase == CLOSED then EndRead(c)
    else BreakClient(c, EncodeResult(Result(ec, None)), order, IsRecoverable(ec.code))
  }

  /**
   * Whatever error a read of a client completes with, what HandleRecv then does to the client is a step of
   * the whole system, after which, as in the transport, no read is in progress.
   */
  lemma ReadErrorIsStep(cfg: Config, s: System, c: nat, ec: Error, order: seq<Bytes>)
    requires c < |s.conns| && s.conns[c].reading && ec.code != 0
    requires IsOrder(order, s.conns[c].client.closures.Keys)
    ensures
      var l := ReadFails(c, s.conns[c], ec, order);
      && Enabled(cfg, s, l) && Apply(cfg, s, l) == Set(s, c, ReadFailedConn(s.conns[c], ec, order))
      && !Apply(cfg, s, l).conns[c].reading
      && Apply(cfg, s, l).conns[c].client == ClientModel.ReadFailed(s.conns[c].client, ec, order)
  {
  }

  /**
   * A client that closes its own connection, and the end of its read.  The calls in flight are left alone,
   * for good (see NeverRunsAgain), if and only if the close aborts a read in progress.  A close from inside
   * a message handler does not: the read that follows it fails, and runs every closure with that error.
   */
  lemma OwnClose(
    cfg: Config, s: System, c: nat, outstanding: Option<nat>, message: Bytes, order: seq<Bytes>, name: Bytes)
    requires c < |s.conns| && s.conns[c].reading && s.conns[c].client.phase == OPEN && name != []
    requires IsOrder(order, s.conns[c].client.closures.Keys)
    ensures
      var k, ec := s.conns[c].client, ClosedRead(outstanding, message);
      var s1 := Apply(cfg, s, CloseClient(c));
      var l := ReadFails(c, s1.conns[c], ec, order);
      && Enabled(cfg, s1, l)
      && var s2 := Apply(cfg, s1, l);
         var k2 := s2.conns[c].client;
         && s2.conns[c] == ReadFailedConn(s1.conns[c], ec, order)
         && k2.phase == CLOSED && !s2.conns[c].reading && k2.queues == k.queues && k2.invoked == k.invoked
         && (k2.closures == k.closures <==> outstanding.Some? || k.closures == map[])
         && (outstanding.Some? ==> k2.failed == k.failed)
         && (outstanding.None? ==> k2.closures == map[])
         && (outstanding.None? && name in k.closures ==>
               var run := Invocation(k.closures[name], EncodeResult(Result(ec, None)));
               Of(name, k2.failed) == Of(name, k.failed) + [run])
  {
    var ec := ClosedRead(outstanding, message);
    ReadErrorIsStep(cfg, Apply(cfg, s, CloseClient(c)), c, ec, order);
    var s1 := Apply(cfg, s, CloseClient(c));
    ErrorFails(s1.conns[c].client, EncodeResult(Result(ec, None)), order, name);
  }

  lemma ErrorFails(s: ClientState, archive: Bytes, order: seq<Bytes>, name: Bytes)
    requires name != [] && IsOrder(order, s.closures.Keys)
    ensures Of(name, ConnectionError(s, archive, order).failed)
         == Of(name, s.failed) + if name in s.closures then [Invocation(s.closures[name], archive)] else []
  {
    ErrorOnLane(s, archive, order, name);
    assert LaneOf(ConnectionError(s, archive, order), name).failed == ErrorLane(LaneOf(s, name), archive).failed;
    assert Of(name, s.failed) + [] == Of(name, s.failed);
  }
}
