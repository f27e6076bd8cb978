/**
 * Service code that calls any closure it was ever given, any number of times: the i-th closure of a
 * function and client is that of the i-th call of it that the service took up.
 */
module ServiceClosures {
  import opened Wrappers
  import opened ByteStrings
  import opened Results
  import opened Messages
  import opened Connections
  import opened CallQueues
  import opened ClientModel
  import opened Tracks
  import opened ServiceModel
  import opened SystemInvariant
  import opened WholeSystem
  import ServiceRuns
  import SystemTheorems

  datatype Step = Plain(l: Label) | Use(c: nat, name: Bytes, i: nat, archive: Bytes, written: bool)

  /** Of one function and client: the closure calls that were taken as answers, and all closures called. */
  datatype Ledger = Ledger(s: System, uses: seq<(nat, Bytes)>, called: set<nat>)

  predicate CanStep(cfg: Config, s: System, e: Step) {
    match e
    case Plain(l) => !l.Answer? && Enabled(cfg, s, l)
    case Use(c, name, i, _, _) => c < |s.conns| && IsTwoWay(cfg, name) && i < |Of(name, s.conns[c].served)|
  }

  /** The call cannot tell which closure it comes from: all it hands on is the client and the name. */
  function UseAt(g: Ledger, e: Step, c: nat, name: Bytes): Ledger
    requires e.Use? && e.c < |g.s.conns|
  {
    var s1 := AnswerAt(g.s, e.c, e.name, e.archive, e.written).(faults := g.s.faults);
    if (e.c, e.name) != (c, name) then g.(s := s1)
    else
      Ledger(s1, if (name, c) in g.s.service.pending then g.uses + [(e.i, e.archive)] else g.uses, g.called + {e.i})
  }

  function StepTo(cfg: Config, g: Ledger, e: Step, c: nat, name: Bytes): Ledger
    requires CanStep(cfg, g.s, e)
  {
    match e
    case Plain(l) => g.(s := Apply(cfg, g.s, l))
    case Use(_, _, _, _, _) => UseAt(g, e, c, name)
  }

  function RunSteps(cfg: Config, es: seq<Step>, c: nat, name: Bytes): Option<Ledger> {
    if es == [] then Some(Ledger(Init(cfg), [], {}))
    else
      match RunSteps(cfg, es[..|es| - 1], c, name)
      case None => None
      case Some(g) =>
        if CanStep(cfg, g.s, es[|es| - 1]) then Some(StepTo(cfg, g, es[|es| - 1], c, name)) else None
  }

  /** Whenever a closure is called while a call is pending, it is the closure of that call, the newest. */
  predicate NeverStale(cfg: Config, es: seq<Step>, c: nat, name: Bytes)
    requires RunSteps(cfg, es, c, name).Some?
  {
    es != [] ==>
      var s, e := RunSteps(cfg, es[..|es| - 1], c, name).value.s, es[|es| - 1];
      && NeverStale(cfg, es[..|es| - 1], c, name)
      && (e.Use? && (e.c, e.name) == (c, name) && (name, c) in s.service.pending ==>
            e.i + 1 == |Of(name, s.conns[c].served)|)
  }

  predicate UsedOnce(cfg: Config, es: seq<Step>, c: nat, name: Bytes)
    requires RunSteps(cfg, es, c, name).Some?
  {
    es != [] ==>
      var g, e := RunSteps(cfg, es[..|es| - 1], c, name).value, es[|es| - 1];
      && UsedOnce(cfg, es[..|es| - 1], c, name)
      && (e.Use? && (e.c, e.name) == (c, name) ==> e.i !in g.called)
  }

  // ---- every such run is, but for the refused calls, a run of the system ----

  function LabelsOf(s: System, e: Step): seq<Label> {
    match e
    case Plain(l) => [l]
    case Use(c, name, _, archive, written) =>
      if (name, c) in s.service.pending then [Answer(c, name, archive, written)] else []
  }

  function Labels(cfg: Config, es: seq<Step>, c: nat, name: Bytes): seq<Label>
    requires RunSteps(cfg, es, c, name).Some?
  {
    if es == [] then []
    else
      Labels(cfg, es[..|es| - 1], c, name) + LabelsOf(RunSteps(cfg, es[..|es| - 1], c, name).value.s, es[|es| - 1])
  }

  /** A closure call is taken exactly as the answer of the pending call, or it is refused without effect. */
  lemma UseIsAnswer(cfg: Config, s: System, e: Step)
    requires Inv(cfg, s) && e.Use? && CanStep(cfg, s, e)
    ensures
      var s1 := AnswerAt(s, e.c, e.name, e.archive, e.written);
      if (e.name, e.c) in s.service.pending then
        && Enabled(cfg, s, Answer(e.c, e.name, e.archive, e.written)) && s1.faults == s.faults
        && s1 == Apply(cfg, s, Answer(e.c, e.name, e.archive, e.written))
      else
        s1 == AddFault(s, ResultAlreadyDelivered)
  {
    assert InvAt(cfg, s, e.c);
    assert Settled(TrackAt(s, e.c, e.name));
    assert s.conns[e.c := s.conns[e.c]] == s.conns;
    if (e.name, e.c) !in s.service.pending {
      assert s.held - multiset{(e.name, e.c)} == s.held;
    }
  }

  lemma UseState(cfg: Config, g: Ledger, e: Step, c: nat, name: Bytes)
    requires Inv(cfg, g.s) && e.Use? && CanStep(cfg, g.s, e)
    ensures (e.name, e.c) in g.s.service.pending ==>
      && Enabled(cfg, g.s, Answer(e.c, e.name, e.archive, e.written))
      && UseAt(g, e, c, name).s == Apply(cfg, g.s, Answer(e.c, e.name, e.archive, e.written))
    ensures (e.name, e.c) !in g.s.service.pending ==> UseAt(g, e, c, name).s == g.s
  {
    UseIsAnswer(cfg, g.s, e);
  }

  lemma StepSimulated(cfg: Config, g: Ledger, e: Step, c: nat, name: Bytes, ls: seq<Label>)
    requires Inv(cfg, g.s) && CanStep(cfg, g.s, e) && Run(cfg, ls) == Some(g.s)
    ensures Run(cfg, ls + LabelsOf(g.s, e)) == Some(StepTo(cfg, g, e, c, name).s)
  {
    if e.Plain? {
      RunLast(cfg, ls, e.l);
    } else {
      UseState(cfg, g, e, c, name);
      if (e.name, e.c) in g.s.service.pending {
        RunLast(cfg, ls, Answer(e.c, e.name, e.archive, e.written));
      } else {
        assert LabelsOf(g.s, e) == [] && ls + [] == ls;
      }
    }
  }

  lemma RunLast(cfg: Config, ls: seq<Label>, l: Label)
    requires Run(cfg, ls).Some? && Enabled(cfg, Run(cfg, ls).value, l)
    ensures Run(cfg, ls + [l]) == Some(Apply(cfg, Run(cfg, ls).value, l))
  {
    assert (ls + [l])[..|ls|] == ls;
  }

  lemma {:induction false} Simulated(cfg: Config, es: seq<Step>, c: nat, name: Bytes)
    requires IsConfig(cfg) && RunSteps(cfg, es, c, name).Some?
    ensures Run(cfg, Labels(cfg, es, c, name)) == Some(RunSteps(cfg, es, c, name).value.s)
  {
    if es != [] {
      var before := es[..|es| - 1];
      var ls := Labels(cfg, before, c, name);
      Simulated(cfg, before, c, name);
      Reachable(cfg, ls);
      StepSimulated(cfg, RunSteps(cfg, before, c, name).value, es[|es| - 1], c, name, ls);
    }
  }

  // ---- which closure's result reaches which call ----

  function AnswersOf(s: System, c: nat, name: Bytes): seq<Bytes> {
    if c < |s.conns| then Of(name, s.conns[c].answers) else []
  }

  /** The answers logged are those of the closure calls taken, in order. */
  predicate IsLedger(g: Ledger, c: nat, name: Bytes) {
    && |g.uses| == |AnswersOf(g.s, c, name)|
    && forall j | 0 <= j < |g.uses| :: g.uses[j].1 == AnswersOf(g.s, c, name)[j]
  }

  predicate OwnAnswers(g: Ledger) {
    forall j | 0 <= j < |g.uses| :: g.uses[j].0 == j
  }

  lemma PlainKeepsAnswers(cfg: Config, s: System, l: Label, c: nat, name: Bytes)
    requires Enabled(cfg, s, l) && !l.Answer?
    ensures AnswersOf(Apply(cfg, s, l), c, name) == AnswersOf(s, c, name)
  {
    if c < |s.conns| {
      assert Apply(cfg, s, l).conns[c].answers == s.conns[c].answers;
    }
  }

  lemma UseIsLogged(g: Ledger, e: Step, c: nat, name: Bytes)
    requires IsLedger(g, c, name) && e.Use? && e.c < |g.s.conns|
    ensures IsLedger(UseAt(g, e, c, name), c, name)
  {
    OfAppend(name, g.s.conns[e.c].answers, Named(e.name, e.archive));
  }

  /** How many calls were taken up: those answered, and the one pending. */
  lemma TakenUp(cfg: Config, s: System, c: nat, name: Bytes)
    requires Inv(cfg, s) && IsTwoWay(cfg, name) && c < |s.conns|
    ensures
      |Of(name, s.conns[c].served)| == |AnswersOf(s, c, name)| + (if (name, c) in s.service.pending then 1 else 0)
  {
    assert InvAt(cfg, s, c);
    assert Settled(TrackAt(s, c, name));
  }

  lemma {:induction false} Ledgers(cfg: Config, es: seq<Step>, c: nat, name: Bytes)
    requires IsConfig(cfg) && RunSteps(cfg, es, c, name).Some? && IsTwoWay(cfg, name)
    ensures IsLedger(RunSteps(cfg, es, c, name).value, c, name)
    ensures OwnAnswers(RunSteps(cfg, es, c, name).value) <==> NeverStale(cfg, es, c, name)
  {
    if es != [] {
      var before, e := es[..|es| - 1], es[|es| - 1];
      var g := RunSteps(cfg, before, c, name).value;
      Ledgers(cfg, before, c, name);
      match e
      case Plain(l) => PlainKeepsAnswers(cfg, g.s, l, c, name);
      case Use(d, n, i, archive, written) =>
        UseIsLogged(g, e, c, name);
        if (d, n) == (c, name) {
          Simulated(cfg, before, c, name);
          Reachable(cfg, Labels(cfg, before, c, name));
          TakenUp(cfg, g.s, c, name);
          var g1 := UseAt(g, e, c, name);
          assert g1.uses == g.uses || g1.uses == g.uses + [(i, archive)];
          if g1.uses == g.uses + [(i, archive)] {
            OwnOneMore(g.uses, i, archive);
          }
        }
    }
  }

  lemma OwnOneMore(uses: seq<(nat, Bytes)>, i: nat, archive: Bytes)
    ensures
      var uses1 := uses + [(i, archive)];
      (forall j | 0 <= j < |uses1| :: uses1[j].0 == j) <==> (forall j | 0 <= j < |uses| :: uses[j].0 == j) && i == |uses|
  {
    var uses1 := uses + [(i, archive)];
    assert forall j | 0 <= j < |uses| :: uses1[j] == uses[j];
    assert uses1[|uses|] == (i, archive);
  }

  /**
   * In every run, with service closures called in any way and whatever fails: the j-th completed call gets
   * the result of the j-th closure call that was taken, and every call gets the result of its own closure
   * if and only if no closure is ever called while a newer call of its function and client is pending.
   */
  lemma OwnResults(cfg: Config, es: seq<Step>, g: Ledger, c: nat, name: Bytes)
    requires IsConfig(cfg) && RunSteps(cfg, es, c, name) == Some(g) && IsTwoWay(cfg, name) && c < |g.s.conns|
    ensures
      var k := g.s.conns[c];
      var accepted, served, invoked := Of(name, k.client.accepted), Of(name, k.served), Of(name, k.client.invoked);
      && |invoked| <= |accepted| && |invoked| <= |g.uses| <= |served|
      && (forall j | 0 <= j < |invoked| ::
            served[j] == accepted[j].args && invoked[j] == Invocation(accepted[j].closure, g.uses[j].1))
      && ((forall j | 0 <= j < |g.uses| :: g.uses[j].0 == j) <==> NeverStale(cfg, es, c, name))
  {
    Ledgers(cfg, es, c, name);
    Simulated(cfg, es, c, name);
    SystemTheorems.GoodAt(cfg, Labels(cfg, es, c, name), c, name);
    assert Settled(TrackAt(g.s, c, name));
  }

  /** The closures called are just those whose call was taken as an answer. */
  ghost predicate CalledIsTaken(g: Ledger) {
    forall i: nat :: i in g.called <==> i < |g.uses|
  }

  lemma FirstUseIsTaken(cfg: Config, g: Ledger, e: Step, c: nat, name: Bytes)
    requires Inv(cfg, g.s) && IsLedger(g, c, name) && CalledIsTaken(g)
    requires e.Use? && CanStep(cfg, g.s, e) && (e.c, e.name) == (c, name) && e.i !in g.called
    ensures (name, c) in g.s.service.pending && e.i + 1 == |Of(name, g.s.conns[c].served)|
    ensures CalledIsTaken(UseAt(g, e, c, name))
  {
    TakenUp(cfg, g.s, c, name);
  }

  lemma {:induction false} CalledOnce(cfg: Config, es: seq<Step>, c: nat, name: Bytes)
    requires IsConfig(cfg) && RunSteps(cfg, es, c, name).Some? && IsTwoWay(cfg, name) && UsedOnce(cfg, es, c, name)
    ensures NeverStale(cfg, es, c, name) && CalledIsTaken(RunSteps(cfg, es, c, name).value)
  {
    if es != [] {
      var before, e := es[..|es| - 1], es[|es| - 1];
      var g := RunSteps(cfg, before, c, name).value;
      CalledOnce(cfg, before, c, name);
      if e.Use? && (e.c, e.name) == (c, name) {
        Ledgers(cfg, before, c, name);
        Simulated(cfg, before, c, name);
        Reachable(cfg, Labels(cfg, before, c, name));
        FirstUseIsTaken(cfg, g, e, c, name);
      }
    }
  }

  /** Closures called at most once each: every call gets its own result, and no closure call is refused. */
  lemma OnceIsOwn(cfg: Config, es: seq<Step>, g: Ledger, c: nat, name: Bytes)
    requires IsConfig(cfg) && RunSteps(cfg, es, c, name) == Some(g) && IsTwoWay(cfg, name)
    requires UsedOnce(cfg, es, c, name)
    ensures OwnAnswers(g) && CalledIsTaken(g)
  {
    CalledOnce(cfg, es, c, name);
    Ledgers(cfg, es, c, name);
  }

  // ---- a stale result that is delivered ----

  /** One client, connected and idle, after `n` calls of the function. */
  predicate IsReady(cfg: Config, g: Ledger, name: Bytes, n: nat) {
    && |g.s.conns| == 1 && g.s.service.dict == cfg.dict && g.s.service.clients == {0}
    && g.s.service.pending[(name, 0)] == 0
    && var k := g.s.conns[0];
       && k.reading && k.up == [] && k.down == [] && |Of(name, k.served)| == n
       && k.client.phase == OPEN && k.client.limit == 1 && name !in k.client.closures
  }

  /** The same after one more call, before its closure is called. */
  predicate IsServing(cfg: Config, g: Ledger, name: Bytes, n: nat, call: Call) {
    && |g.s.conns| == 1 && g.s.service.dict == cfg.dict && g.s.service.clients == {0}
    && g.s.service.pending[(name, 0)] == 1
    && var k := g.s.conns[0];
       && k.reading && k.up == [] && k.down == [] && |Of(name, k.served)| == n + 1
       && k.client.phase == OPEN && k.client.limit == 1
       && name in k.client.closures && k.client.closures[name] == call.closure
  }

  lemma CallAndServe(cfg: Config, g: Ledger, name: Bytes, n: nat, call: Call)
    requires IsReady(cfg, g, name, n) && IsTwoWay(cfg, name) && CanWrite(Named(name, call.args))
    ensures
      var e1, e2 := Plain(CallTwoWay(0, name, call, NO_ERROR)), Plain(Serve(0, true));
      && CanStep(cfg, g.s, e1)
      && var g1 := StepTo(cfg, g, e1, 0, name);
         && CanStep(cfg, g1.s, e2)
         && var g2 := StepTo(cfg, g1, e2, 0, name);
            && IsServing(cfg, g2, name, n, call) && g2.uses == g.uses && g2.called == g.called
            && g2.s.conns[0].client.invoked == g.s.conns[0].client.invoked
  {
    var g1 := StepTo(cfg, g, Plain(CallTwoWay(0, name, call, NO_ERROR)), 0, name);
    assert g1.s.conns[0].up == [Named(name, call.args)];
    OfAppend(name, g.s.conns[0].served, Named(name, call.args));
  }

  lemma UseAndDeliver(cfg: Config, g: Ledger, name: Bytes, n: nat, call: Call, i: nat, archive: Bytes)
    requires IsConfig(cfg) && IsServing(cfg, g, name, n, call) && IsTwoWay(cfg, name) && i <= n
    ensures
      var e1, e2 := Use(0, name, i, archive, true), Plain(Deliver(0, NO_ERROR));
      && CanStep(cfg, g.s, e1)
      && var g1 := StepTo(cfg, g, e1, 0, name);
         && CanStep(cfg, g1.s, e2)
         && var g2 := StepTo(cfg, g1, e2, 0, name);
            && IsReady(cfg, g2, name, n + 1) && g2.uses == g.uses + [(i, archive)] && g2.called == g.called + {i}
            && g2.s.conns[0].client.invoked
               == g.s.conns[0].client.invoked + [Named(name, Invocation(call.closure, archive))]
  {
    var g1 := StepTo(cfg, g, Use(0, name, i, archive, true), 0, name);
    assert g1.s.conns[0].down == [Named(name, archive)];
  }

  function Round(name: Bytes, call: Call, i: nat, archive: Bytes): seq<Step> {
    [Plain(CallTwoWay(0, name, call, NO_ERROR)), Plain(Serve(0, true))]
    + [Use(0, name, i, archive, true), Plain(Deliver(0, NO_ERROR))]
  }

  lemma ServeRuns(cfg: Config, es: seq<Step>, g: Ledger, name: Bytes, n: nat, call: Call) returns (g1: Ledger)
    requires IsTwoWay(cfg, name) && RunSteps(cfg, es, 0, name) == Some(g) && IsReady(cfg, g, name, n)
    requires CanWrite(Named(name, call.args))
    ensures RunSteps(cfg, es + [Plain(CallTwoWay(0, name, call, NO_ERROR)), Plain(Serve(0, true))], 0, name) == Some(g1)
    ensures IsServing(cfg, g1, name, n, call) && g1.uses == g.uses && g1.called == g.called
    ensures g1.s.conns[0].client.invoked == g.s.conns[0].client.invoked
  {
    var e1, e2 := Plain(CallTwoWay(0, name, call, NO_ERROR)), Plain(Serve(0, true));
    CallAndServe(cfg, g, name, n, call);
    TwoMore(cfg, es, e1, e2, 0, name);
    g1 := StepTo(cfg, StepTo(cfg, g, e1, 0, name), e2, 0, name);
  }

  lemma DeliverRuns(cfg: Config, es: seq<Step>, g: Ledger, name: Bytes, n: nat, call: Call, i: nat, archive: Bytes)
    returns (g1: Ledger)
    requires IsConfig(cfg) && IsTwoWay(cfg, name) && i <= n
    requires RunSteps(cfg, es, 0, name) == Some(g) && IsServing(cfg, g, name, n, call)
    ensures RunSteps(cfg, es + [Use(0, name, i, archive, true), Plain(Deliver(0, NO_ERROR))], 0, name) == Some(g1)
    ensures IsReady(cfg, g1, name, n + 1) && g1.uses == g.uses + [(i, archive)] && g1.called == g.called + {i}
    ensures g1.s.conns[0].client.invoked
         == g.s.conns[0].client.invoked + [Named(name, Invocation(call.closure, archive))]
  {
    var e1, e2 := Use(0, name, i, archive, true), Plain(Deliver(0, NO_ERROR));
    UseAndDeliver(cfg, g, name, n, call, i, archive);
    TwoMore(cfg, es, e1, e2, 0, name);
    g1 := StepTo(cfg, StepTo(cfg, g, e1, 0, name), e2, 0, name);
  }

  lemma RoundRuns(cfg: Config, es: seq<Step>, g: Ledger, name: Bytes, n: nat, call: Call, i: nat, archive: Bytes)
    returns (g1: Ledger)
    requires IsConfig(cfg) && IsTwoWay(cfg, name) && i <= n && CanWrite(Named(name, call.args))
    requires RunSteps(cfg, es, 0, name) == Some(g) && IsReady(cfg, g, name, n)
    ensures RunSteps(cfg, es + Round(name, call, i, archive), 0, name) == Some(g1)
    ensures IsReady(cfg, g1, name, n + 1) && g1.uses == g.uses + [(i, archive)] && g1.called == g.called + {i}
    ensures g1.s.conns[0].client.invoked
         == g.s.conns[0].client.invoked + [Named(name, Invocation(call.closure, archive))]
  {
    var asking := [Plain(CallTwoWay(0, name, call, NO_ERROR)), Plain(Serve(0, true))];
    var serving := ServeRuns(cfg, es, g, name, n, call);
    g1 := DeliverRuns(cfg, es + asking, serving, name, n, call, i, archive);
    Associate(es, asking, [Use(0, name, i, archive, true), Plain(Deliver(0, NO_ERROR))]);
  }

  lemma AppendTwo<T>(s: seq<T>, a: T, b: T)
    ensures s + [a] + [b] == s + [a, b]
  {
  }

  lemma TwoMore(cfg: Config, es: seq<Step>, e1: Step, e2: Step, c: nat, name: Bytes)
    requires RunSteps(cfg, es, c, name).Some? && CanStep(cfg, RunSteps(cfg, es, c, name).value.s, e1)
    requires CanStep(cfg, StepTo(cfg, RunSteps(cfg, es, c, name).value, e1, c, name).s, e2)
    ensures RunSteps(cfg, es + [e1, e2], c, name)
         == Some(StepTo(cfg, StepTo(cfg, RunSteps(cfg, es, c, name).value, e1, c, name), e2, c, name))
  {
    OneMore(cfg, es, e1, c, name);
    OneMore(cfg, es + [e1], e2, c, name);
    AppendTwo(es, e1, e2);
  }

  lemma OneMore(cfg: Config, es: seq<Step>, e: Step, c: nat, name: Bytes)
    requires RunSteps(cfg, es, c, name).Some? && CanStep(cfg, RunSteps(cfg, es, c, name).value.s, e)
    ensures RunSteps(cfg, es + [e], c, name) == Some(StepTo(cfg, RunSteps(cfg, es, c, name).value, e, c, name))
  {
    assert (es + [e])[..|es|] == es;
  }

  /**
   * The run of two calls in which the first service closure is called twice: the closure of the second
   * call is run with the result from the first service closure, and the call of the second is refused.
   */
  lemma StaleIsDelivered(cfg: Config, name: Bytes, a: Call, b: Call, first: Bytes, again: Bytes, right: Bytes)
    requires IsConfig(cfg) && IsTwoWay(cfg, name)
    requires CanWrite(Named(name, a.args)) && CanWrite(Named(name, b.args))
    ensures
      var es := [Plain(Connect(1))] + Round(name, a, 0, first) + Round(name, b, 0, again);
      && RunSteps(cfg, es, 0, name).Some? && !NeverStale(cfg, es, 0, name)
      && var g := RunSteps(cfg, es, 0, name).value;
         && g.uses == [(0, first), (0, again)] && |g.s.conns| == 1
         && g.s.conns[0].client.invoked
            == [Named(name, Invocation(a.closure, first)), Named(name, Invocation(b.closure, again))]
         && CanStep(cfg, g.s, Use(0, name, 1, right, true))
         && ResultAlreadyDelivered in AnswerAt(g.s, 0, name, right, true).faults
  {
    var connect := Plain(Connect(1));
    OneMore(cfg, [], connect, 0, name);
    assert [] + [connect] == [connect];
    var g1 := RoundRuns(cfg, [connect], RunSteps(cfg, [connect], 0, name).value, name, 0, a, 0, first);
    var es1 := [connect] + Round(name, a, 0, first);
    var g2 := RoundRuns(cfg, es1, g1, name, 1, b, 0, again);
    Ledgers(cfg, es1 + Round(name, b, 0, again), 0, name);
    assert g2.uses[1].0 == 0;
  }
}
