/** Runs come to rest: with no new calls and no failures, every call is completed. */
module Drain {
  import opened Wrappers
  import opened ByteStrings
  import opened Results
  import opened Messages
  import opened Connections
  import opened CallQueues
  import opened ClientModel
  import opened Lanes
  import opened Tracks
  import opened ServiceModel
  import ServiceRuns
  import opened WholeSystem
  import opened SystemInvariant

  // ---- the measure ----

  ghost function TotalQueued(queues: Queues): nat {
    if queues == map[] then 0
    else
      var name :| name in queues;
      |queues[name]| + TotalQueued(queues - {name})
  }

  lemma {:induction false} TotalWithout(queues: Queues, name: Bytes)
    requires name in queues
    ensures TotalQueued(queues) == |queues[name]| + TotalQueued(queues - {name})
    decreases |queues|
  {
    var first :| first in queues && TotalQueued(queues) == |queues[first]| + TotalQueued(queues - {first});
    if first != name {
      assert |queues - {first}| < |queues| by {
        assert (queues - {first}).Keys == queues.Keys - {first};
      }
      assert |queues - {name}| < |queues| by {
        assert (queues - {name}).Keys == queues.Keys - {name};
      }
      TotalWithout(queues - {first}, name);
      TotalWithout(queues - {name}, first);
      assert queues - {first} - {name} == queues - {name} - {first};
    }
  }

  lemma TotalUpdate(queues: Queues, name: Bytes, q: seq<Call>)
    ensures TotalQueued(queues[name := q]) == TotalQueued(queues) - |QueueOf(queues, name)| + |q|
  {
    TotalWithout(queues[name := q], name);
    assert queues[name := q] - {name} == queues - {name};
    if name in queues {
      TotalWithout(queues, name);
    } else {
      assert queues - {name} == queues;
    }
  }

  /** A queued call has four steps to go, a request three, a pending call two, a message to the client one. */
  ghost function ConnWork(k: Conn): nat {
    4 * TotalQueued(k.client.queues) + 3 * |k.up| + |k.down|
  }

  ghost function Work(conns: seq<Conn>): nat {
    if conns == [] then 0 else Work(conns[..|conns| - 1]) + ConnWork(conns[|conns| - 1])
  }

  ghost function Measure(s: System): nat {
    Work(s.conns) + 2 * |s.service.pending|
  }

  lemma {:induction false} WorkUpdate(conns: seq<Conn>, c: nat, k: Conn)
    requires c < |conns|
    ensures Work(conns[c := k]) == Work(conns) - ConnWork(conns[c]) + ConnWork(k)
  {
    var last := |conns| - 1;
    if c == last {
      assert conns[c := k][..last] == conns[..last];
    } else {
      assert conns[c := k][..last] == conns[..last][c := k];
      WorkUpdate(conns[..last], c, k);
    }
  }

  /** The steps that only finish what was begun. */
  predicate Finishes(l: Label) {
    l.Deliver? || l.Serve? || l.Answer?
  }

  lemma DispatchWork(s: ClientState, name: Bytes, archive: Bytes, ec: Error)
    ensures
      var s1 := DispatchResult(s, name, archive, ec).0;
      && |s.sent| <= |s1.sent|
      && 4 * TotalQueued(s1.queues) + 3 * (|s1.sent| - |s.sent|) <= 4 * TotalQueued(s.queues)
  {
    if name in s.closures && QueueOf(s.queues, name) != [] && NextFits(s, name) {
      TotalUpdate(s.queues, name, QueueOf(s.queues, name)[1..]);
    }
  }

  lemma DeliverWork(cfg: Config, k: Conn, ec: Error)
    requires k.down != []
    ensures ConnWork(DeliverConn(cfg, k, ec).0) < ConnWork(k)
  {
    DispatchWork(k.client, k.down[0].name, k.down[0].item, ec);
  }

  lemma ServeWork(cfg: Config, s: System, c: nat, written: bool)
    requires c < |s.conns| && s.conns[c].up != []
    ensures
      var s1 := ServeAt(s, c, written);
      ConnWork(s1.conns[c]) + 2 * |s1.service.pending| < ConnWork(s.conns[c]) + 2 * |s.service.pending|
  {
    var outcome := Dispatch(s.service, c, s.conns[c].up[0].name, written).1;
    if outcome == CalledTwoWay {
      assert |ServeAt(s, c, written).service.pending| == |s.service.pending| + 1;
    } else {
      assert ServeAt(s, c, written).service.pending == s.service.pending;
    }
  }

  lemma AnswerWork(s: System, c: nat, name: Bytes, archive: Bytes, written: bool)
    requires c < |s.conns| && (name, c) in s.service.pending
    ensures
      var s1 := AnswerAt(s, c, name, archive, written);
      ConnWork(s1.conns[c]) + 2 * |s1.service.pending| < ConnWork(s.conns[c]) + 2 * |s.service.pending|
  {
    assert |AnswerAt(s, c, name, archive, written).service.pending| == |s.service.pending| - 1;
  }

  lemma OnlyWorkAt(s: System, s1: System, c: nat)
    requires c < |s.conns| == |s1.conns| && s1.conns == s.conns[c := s1.conns[c]]
    requires ConnWork(s1.conns[c]) + 2 * |s1.service.pending| < ConnWork(s.conns[c]) + 2 * |s.service.pending|
    ensures Measure(s1) < Measure(s)
  {
    WorkUpdate(s.conns, c, s1.conns[c]);
  }

  /** Every such step, succeed its write or fail, strictly decreases the measure. */
  lemma StepDecreases(cfg: Config, s: System, l: Label)
    requires IsConfig(cfg) && Inv(cfg, s) && Enabled(cfg, s, l) && Finishes(l)
    ensures Measure(Apply(cfg, s, l)) < Measure(s)
  {
    match l {
      case Deliver(c, ec) => DeliverWork(cfg, s.conns[c], ec);
      case Serve(c, written) => ServeWork(cfg, s, c, written);
      case Answer(c, name, archive, written) =>
        HeldIsPending(cfg, s, c, name);
        AnswerWork(s, c, name, archive, written);
    }
    OnlyWorkAt(s, Apply(cfg, s, l), l.c);
  }

  lemma HeldIsPending(cfg: Config, s: System, c: nat, name: Bytes)
    requires Inv(cfg, s) && c < |s.conns| && (name, c) in s.held
    ensures (name, c) in s.service.pending
  {
    assert InvAt(cfg, s, c);
    assert IsTwoWay(cfg, (name, c).0);
    assert Settled(TrackAt(s, c, name));
  }

  lemma {:induction false} ReachableFrom(cfg: Config, s: System, ls: seq<Label>)
    requires IsConfig(cfg) && Inv(cfg, s) && RunFrom(cfg, s, ls).Some?
    ensures Inv(cfg, RunFrom(cfg, s, ls).value)
  {
    if ls != [] {
      ReachableFrom(cfg, s, ls[..|ls| - 1]);
      StepKeeps(cfg, RunFrom(cfg, s, ls[..|ls| - 1]).value, ls[|ls| - 1]);
    }
  }

  lemma {:induction false} RunsAreShort(cfg: Config, s: System, ls: seq<Label>)
    requires IsConfig(cfg) && Inv(cfg, s) && RunFrom(cfg, s, ls).Some? && forall l | l in ls :: Finishes(l)
    ensures Measure(RunFrom(cfg, s, ls).value) + |ls| <= Measure(s)
  {
    if ls != [] {
      var before, l := ls[..|ls| - 1], ls[|ls| - 1];
      assert ls == before + [l];
      RunsAreShort(cfg, s, before);
      ReachableFrom(cfg, s, before);
      StepDecreases(cfg, RunFrom(cfg, s, before).value, l);
    }
  }

  // ---- at rest ----

  predicate Succeeds(l: Label) {
    match l
    case Deliver(_, ec) => ec.code == 0
    case Serve(_, written) => written
    case Answer(_, _, _, written) => written
    case _ => false
  }

  /** No message of the connection is on its way, and service code owes it no answer. */
  ghost predicate AtRest(s: System, c: nat)
    requires c < |s.conns|
  {
    s.conns[c].up == [] && s.conns[c].down == [] && forall name :: (name, c) !in s.held
  }

  /** The connection is as it was, or its client lost a result to a queued call that is too long. */
  predicate LiveOrLost(s: System, c: nat)
    requires c < |s.conns|
  {
    s.conns[c].live || ResultLost(c) in s.faults
  }

  lemma DeliverStaysLive(cfg: Config, s: System, c: nat, ec: Error)
    requires IsConfig(cfg) && Inv(cfg, s) && Enabled(cfg, s, Deliver(c, ec)) && s.conns[c].live && ec.code == 0
    ensures LiveOrLost(DeliverAt(cfg, s, c, ec), c)
  {
    var k := s.conns[c];
    assert InvAt(cfg, s, c);
    if k.down[0].name != cfg.broadcast {
      assert IsReply(cfg, k.down[0]);
      ResultGood(cfg, s, c, ec, k.down[0].name);
      DeliverOnTrack(cfg, k, ec, k.down[0].name, 0, 0);
      DispatchPhase(k.client, k.down[0].name, k.down[0].item, ec);
    }
  }

  lemma ServeStaysLive(s: System, c: nat)
    requires c < |s.conns| && s.conns[c].up != [] && s.conns[c].live && c in s.service.clients
    ensures ServeAt(s, c, true).conns[c].live
  {
    assert Dispatch(s.service, c, s.conns[c].up[0].name, true).0.clients == s.service.clients;
  }

  lemma AnswerStaysLive(s: System, c: nat, name: Bytes, archive: Bytes)
    requires c < |s.conns| && (name, c) in s.service.pending && s.conns[c].live && c in s.service.clients
    ensures AnswerAt(s, c, name, archive, true).conns[c].live
  {
  }

  lemma StepStaysLiveAt(cfg: Config, s: System, l: Label)
    requires IsConfig(cfg) && Inv(cfg, s) && Enabled(cfg, s, l) && Succeeds(l) && s.conns[l.c].live
    ensures LiveOrLost(Apply(cfg, s, l), l.c)
  {
    assert InvAt(cfg, s, l.c);
    match l
    case Deliver(c, ec) => DeliverStaysLive(cfg, s, c, ec);
    case Serve(c, _) => ServeStaysLive(s, c);
    case Answer(c, name, archive, _) =>
      HeldIsPending(cfg, s, c, name);
      AnswerStaysLive(s, c, name, archive);
  }

  lemma StepStaysLive(cfg: Config, s: System, l: Label, c: nat)
    requires IsConfig(cfg) && Inv(cfg, s) && Enabled(cfg, s, l) && Succeeds(l) && c < |s.conns| && LiveOrLost(s, c)
    ensures c < |Apply(cfg, s, l).conns| && LiveOrLost(Apply(cfg, s, l), c)
  {
    var s1 := Apply(cfg, s, l);
    assert s1.conns == s.conns[l.c := s1.conns[l.c]] && s.faults <= s1.faults;
    if l.c == c && s.conns[c].live {
      StepStaysLiveAt(cfg, s, l);
    }
  }

  lemma {:induction false} RunStaysLive(cfg: Config, s: System, ls: seq<Label>, c: nat)
    requires IsConfig(cfg) && Inv(cfg, s) && c < |s.conns| && LiveOrLost(s, c) && RunFrom(cfg, s, ls).Some?
    requires forall l | l in ls :: Succeeds(l)
    ensures c < |RunFrom(cfg, s, ls).value.conns| && LiveOrLost(RunFrom(cfg, s, ls).value, c)
  {
    if ls != [] {
      var before, l := ls[..|ls| - 1], ls[|ls| - 1];
      assert ls == before + [l];
      RunStaysLive(cfg, s, before, c);
      ReachableFrom(cfg, s, before);
      StepStaysLive(cfg, RunFrom(cfg, s, before).value, l, c);
    }
  }

  /** A live connection with nothing left to do is at rest: something can always be finished before that. */
  lemma RestOrStep(cfg: Config, s: System, c: nat)
    requires IsConfig(cfg) && Inv(cfg, s) && c < |s.conns| && s.conns[c].live
    requires forall l :: Succeeds(l) && l.c == c ==> !Enabled(cfg, s, l)
    ensures AtRest(s, c)
  {
    assert InvAt(cfg, s, c);
    assert !Enabled(cfg, s, Serve(c, true));
    assert !Enabled(cfg, s, Deliver(c, NO_ERROR));
    forall name
      ensures (name, c) !in s.held
    {
      assert !Enabled(cfg, s, Answer(c, name, [], true));
    }
  }

  predicate IsCompleted(k: Conn, name: Bytes) {
    var accepted, answers, invoked := Of(name, k.client.accepted), Of(name, k.answers), Of(name, k.client.invoked);
    && name !in k.client.closures && QueueOf(k.client.queues, name) == []
    && |invoked| == |accepted| == |answers|
    && forall i | 0 <= i < |accepted| :: invoked[i] == Invocation(accepted[i].closure, answers[i])
  }

  lemma RestCompletes(cfg: Config, s: System, c: nat, name: Bytes)
    requires IsConfig(cfg) && Inv(cfg, s) && c < |s.conns| && IsTwoWay(cfg, name)
    requires s.conns[c].live && AtRest(s, c)
    ensures IsCompleted(s.conns[c], name)
  {
    var k := s.conns[c];
    assert InvAt(cfg, s, c);
    assert Good(k.client.limit, TrackAt(s, c, name), k.reading, k.live);
    assert s.held[(name, c)] == 0;
  }

  /**
   * Drain.  From every reachable state, let no new calls be made and no write fail: then at most Measure
   * further steps are possible.  When none is possible any more on a connection on which nothing failed
   * before, every closure of every call accepted on it was run, once, in the order of acceptance and with
   * its call's answer, unless its client lost a result to a queued call that is too long.
   */
  lemma DrainCompletes(cfg: Config, begun: seq<Label>, s0: System, ls: seq<Label>, s: System, c: nat, name: Bytes)
    requires IsConfig(cfg) && Run(cfg, begun) == Some(s0) && c < |s0.conns| && IsTwoWay(cfg, name)
    requires RunFrom(cfg, s0, ls) == Some(s) && forall l | l in ls :: Succeeds(l)
    ensures |ls| <= Measure(s0) && c < |s.conns|
    ensures s0.conns[c].live && (forall l :: Succeeds(l) && l.c == c ==> !Enabled(cfg, s, l)) ==>
      ResultLost(c) in s.faults || IsCompleted(s.conns[c], name)
  {
    Reachable(cfg, begun);
    RunsAreShort(cfg, s0, ls);
    ReachableFrom(cfg, s0, ls);
    ConnsStay(cfg, s0, ls, c);
    if s0.conns[c].live && (forall l :: Succeeds(l) && l.c == c ==> !Enabled(cfg, s, l)) {
      RunStaysLive(cfg, s0, ls, c);
      if s.conns[c].live {
        RestOrStep(cfg, s, c);
        RestCompletes(cfg, s, c, name);
      }
    }
  }

  lemma ConnsGrow(cfg: Config, s: System, l: Label)
    requires Enabled(cfg, s, l)
    ensures |s.conns| <= |Apply(cfg, s, l).conns|
  {
  }

  lemma {:induction false} ConnsStay(cfg: Config, s: System, ls: seq<Label>, c: nat)
    requires c < |s.conns| && RunFrom(cfg, s, ls).Some?
    ensures c < |RunFrom(cfg, s, ls).value.conns|
  {
    if ls != [] {
      ConnsStay(cfg, s, ls[..|ls| - 1], c);
      ConnsGrow(cfg, RunFrom(cfg, s, ls[..|ls| - 1]).value, ls[|ls| - 1]);
    }
  }
}
