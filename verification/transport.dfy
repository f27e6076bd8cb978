/** The life of a client transport: its opens, what it tells its listener, and its end. */
module TransportModel {
  import opened Wrappers
  import opened Codec
  import opened Results
  import opened Connections

  /** How far an asynchronous open has come. */
  datatype Phase = Resolving | Connecting

  /** What a user of open() gets to see. */
  datatype Outcome = Returned(ok: bool) | ClosureRan(id: nat, result: Result)

  datatype Transport = Transport(
    state: State,
    opens: map<nat, Phase>,       // asynchronous opens in progress
    started: set<nat>,            // every asynchronous open
    notes: seq<Note>,             // what the listener was told
    outcomes: seq<Outcome>)

  const ALREADY_CONNECTED := Error(106, "Transport endpoint is already connected")

  function Success(): Result {
    Result(NO_ERROR, Some(VBool(true)))
  }

  function Failure(e: Error): Result {
    Result(e, Some(VBool(false)))
  }

  const START := Transport(NEW, map[], {}, [], [])

  function OpenSync(t: Transport, ec: Error): Transport {
    if t.state != NEW then t.(outcomes := t.outcomes + [Returned(false)])
    else if ec.code != 0 then t.(notes := t.notes + [ConnectionFailed(ec)], outcomes := t.outcomes + [Returned(false)])
    else t.(state := OPEN, notes := t.notes + [Connected], outcomes := t.outcomes + [Returned(true)])
  }

  function OpenAsync(t: Transport, id: nat): Transport {
    if t.state == NEW then t.(opens := t.opens[id := Resolving], started := t.started + {id})
    else
      t.(started := t.started + {id}, outcomes := t.outcomes + [ClosureRan(id, Failure(ALREADY_CONNECTED))])
  }

  function Fail(t: Transport, id: nat, ec: Error): Transport {
    t.(opens := t.opens - {id}, notes := t.notes + [ConnectionFailed(ec)],
       outcomes := t.outcomes + [ClosureRan(id, Failure(ec))])
  }

  function HandleResolve(t: Transport, id: nat, ec: Error): Transport {
    if ec.code != 0 then Fail(t, id, ec) else t.(opens := t.opens[id := Connecting])
  }

  /** A success opens the transport whatever its state: that it is NEW is only asserted. */
  function HandleConnect(t: Transport, id: nat, ec: Error): Transport {
    if ec.code != 0 then Fail(t, id, ec)
    else
      t.(state := OPEN, opens := t.opens - {id}, notes := t.notes + [Connected],
         outcomes := t.outcomes + [ClosureRan(id, Success())])
  }

  function Close(t: Transport): Transport {
    if t.state == OPEN then t.(state := CLOSED, notes := t.notes + [Disconnected]) else t
  }

  /** The abort that follows a close is passed over in silence. */
  function HandleRecv(t: Transport, ec: Error, len: nat): Transport {
    if ec.code == 0 then t.(notes := t.notes + [IncomingData(len)])
    else
      var told :=
        if ec.code == OPERATION_ABORTED && t.state == CLOSED then t
        else t.(notes := t.notes + [ConnectionFailed(ec)]);
      if IsRecoverable(ec.code) then told else Close(told)
  }
}

/** All the lives that a client transport can have. */
module TransportRuns {
  import opened Wrappers
  import opened Codec
  import opened Results
  import opened Connections
  import opened TransportModel

  /** `Closing` stands for a close by the user and for the one that follows a failed write. */
  datatype Event =
    | Opening(ec: Error)
    | OpeningAsync(id: nat)
    | Resolved(id: nat, ec: Error)
    | ConnectDone(id: nat, ec: Error)
    | Closing
    | Received(ec: Error, len: nat)

  /** A completion belongs to an open that has come so far; a read is made only once connected. */
  predicate Enabled(t: Transport, e: Event) {
    match e
    case OpeningAsync(id) => id !in t.started
    case Resolved(id, _) => id in t.opens && t.opens[id] == Resolving
    case ConnectDone(id, _) => id in t.opens && t.opens[id] == Connecting
    case Received(_, _) => t.state != NEW
    case _ => true
  }

  function Apply(t: Transport, e: Event): Transport {
    match e
    case Opening(ec) => OpenSync(t, ec)
    case OpeningAsync(id) => OpenAsync(t, id)
    case Resolved(id, ec) => HandleResolve(t, id, ec)
    case ConnectDone(id, ec) => HandleConnect(t, id, ec)
    case Closing => Close(t)
    case Received(ec, len) => HandleRecv(t, ec, len)
  }

  function Run(es: seq<Event>): Option<Transport> {
    if es == [] then Some(START)
    else
      match Run(es[..|es| - 1])
      case None => None
      case Some(t) => if Enabled(t, es[|es| - 1]) then Some(Apply(t, es[|es| - 1])) else None
  }

  predicate IsIdle(t: Transport) {
    forall id | id in t.opens :: false
  }

  /** No open is made while an asynchronous one is in progress. */
  predicate OneAtATime(es: seq<Event>)
    requires Run(es).Some?
  {
    es != [] ==>
      && OneAtATime(es[..|es| - 1])
      && (es[|es| - 1].Opening? || es[|es| - 1].OpeningAsync? ==> IsIdle(Run(es[..|es| - 1]).value))
  }

  /** Whenever the transport is opened it is NEW, as its open() asserts. */
  predicate AssertionsHold(es: seq<Event>)
    requires Run(es).Some?
  {
    es != [] ==>
      && AssertionsHold(es[..|es| - 1])
      && (es[|es| - 1].ConnectDone? && es[|es| - 1].ec.code == 0 ==> Run(es[..|es| - 1]).value.state == NEW)
  }

  /** The listener's on_connected and on_disconnected, in order. */
  function Milestones(notes: seq<Note>): seq<Note> {
    if notes == [] then []
    else
      var last := notes[|notes| - 1];
      Milestones(notes[..|notes| - 1]) + if last.Connected? || last.Disconnected? then [last] else []
  }

  function Path(state: State): seq<Note> {
    match state
    case NEW => []
    case OPEN => [Connected]
    case CLOSED => [Connected, Disconnected]
  }

  function CountConnected(notes: seq<Note>): nat {
    if notes == [] then 0
    else CountConnected(notes[..|notes| - 1]) + if notes[|notes| - 1].Connected? then 1 else 0
  }

  /** How often the closure of one open was run. */
  function CountRan(id: nat, outcomes: seq<Outcome>): nat {
    if outcomes == [] then 0
    else
      var last := outcomes[|outcomes| - 1];
      CountRan(id, outcomes[..|outcomes| - 1]) + if last.ClosureRan? && last.id == id then 1 else 0
  }

  predicate IsSuccess(o: Outcome) {
    o == Returned(true) || (o.ClosureRan? && o.result == Success())
  }

  function CountSuccess(outcomes: seq<Outcome>): nat {
    if outcomes == [] then 0
    else CountSuccess(outcomes[..|outcomes| - 1]) + if IsSuccess(outcomes[|outcomes| - 1]) then 1 else 0
  }

  lemma NoteAppend(notes: seq<Note>, n: Note)
    ensures Milestones(notes + [n]) == Milestones(notes) + if n.Connected? || n.Disconnected? then [n] else []
    ensures CountConnected(notes + [n]) == CountConnected(notes) + if n.Connected? then 1 else 0
  {
    assert (notes + [n])[..|notes|] == notes;
  }

  lemma OutcomeAppend(id: nat, outcomes: seq<Outcome>, o: Outcome)
    ensures CountRan(id, outcomes + [o]) == CountRan(id, outcomes) + if o.ClosureRan? && o.id == id then 1 else 0
    ensures CountSuccess(outcomes + [o]) == CountSuccess(outcomes) + if IsSuccess(o) then 1 else 0
  {
    assert (outcomes + [o])[..|outcomes|] == outcomes;
  }

  /** The listener heard what the state says, and nothing of it twice. */
  predicate ToldOnce(t: Transport) {
    && Milestones(t.notes) == Path(t.state)
    && CountConnected(t.notes) == (if t.state == NEW then 0 else 1)
  }

  predicate IsAsserted(t: Transport, e: Event) {
    e.ConnectDone? && e.ec.code == 0 ==> t.state == NEW
  }

  lemma CloseTellsOnce(t: Transport)
    requires ToldOnce(t)
    ensures ToldOnce(Close(t)) && CountConnected(Close(t).notes) == CountConnected(t.notes)
  {
    NoteAppend(t.notes, Disconnected);
  }

  lemma ReceiveTellsOnce(t: Transport, ec: Error, len: nat)
    requires ToldOnce(t)
    ensures ToldOnce(HandleRecv(t, ec, len))
  {
    if ec.code == 0 {
      NoteAppend(t.notes, IncomingData(len));
    } else if ec.code == OPERATION_ABORTED && t.state == CLOSED {
    } else {
      var told := t.(notes := t.notes + [ConnectionFailed(ec)]);
      NoteAppend(t.notes, ConnectionFailed(ec));
      assert ToldOnce(told);
      CloseTellsOnce(told);
    }
  }

  lemma StepTellsOnce(t: Transport, e: Event)
    requires Enabled(t, e) && ToldOnce(t) && IsAsserted(t, e)
    ensures ToldOnce(Apply(t, e))
  {
    match e
    case Closing => CloseTellsOnce(t);
    case Received(ec, len) => ReceiveTellsOnce(t, ec, len);
    case OpeningAsync(_) =>
    case Opening(ec) => NoteAppend(t.notes, Connected); NoteAppend(t.notes, ConnectionFailed(ec));
    case Resolved(_, ec) => NoteAppend(t.notes, ConnectionFailed(ec));
    case ConnectDone(_, ec) => NoteAppend(t.notes, Connected); NoteAppend(t.notes, ConnectionFailed(ec));
  }

  /** Every success that a user is told of is one on_connected. */
  predicate SuccessIsConnection(t: Transport) {
    CountSuccess(t.outcomes) == CountConnected(t.notes)
  }

  lemma OpenSuccess(t: Transport, ec: Error)
    requires SuccessIsConnection(t)
    ensures SuccessIsConnection(OpenSync(t, ec)) && CountConnected(OpenSync(t, ec).notes) >= CountConnected(t.notes)
  {
    if t.state != NEW {
      OutcomeAppend(0, t.outcomes, Returned(false));
    } else if ec.code != 0 {
      NoteAppend(t.notes, ConnectionFailed(ec));
      OutcomeAppend(0, t.outcomes, Returned(false));
    } else {
      NoteAppend(t.notes, Connected);
      OutcomeAppend(0, t.outcomes, Returned(true));
    }
  }

  lemma FailSuccess(t: Transport, id: nat, ec: Error)
    requires SuccessIsConnection(t)
    ensures SuccessIsConnection(Fail(t, id, ec)) && CountConnected(Fail(t, id, ec).notes) == CountConnected(t.notes)
  {
    NoteAppend(t.notes, ConnectionFailed(ec));
    OutcomeAppend(id, t.outcomes, ClosureRan(id, Failure(ec)));
  }

  lemma ConnectSuccess(t: Transport, id: nat, ec: Error)
    requires SuccessIsConnection(t)
    ensures
      var t1 := HandleConnect(t, id, ec);
      SuccessIsConnection(t1) && CountConnected(t1.notes) == CountConnected(t.notes) + if ec.code == 0 then 1 else 0
  {
    if ec.code != 0 {
      FailSuccess(t, id, ec);
    } else {
      NoteAppend(t.notes, Connected);
      OutcomeAppend(id, t.outcomes, ClosureRan(id, Success()));
    }
  }

  lemma CloseSuccess(t: Transport)
    ensures CountConnected(Close(t).notes) == CountConnected(t.notes)
  {
    if t.state == OPEN {
      NoteAppend(t.notes, Disconnected);
    }
  }

  lemma ReceiveSuccess(t: Transport, ec: Error, len: nat)
    ensures CountConnected(HandleRecv(t, ec, len).notes) == CountConnected(t.notes)
  {
    if ec.code == 0 {
      NoteAppend(t.notes, IncomingData(len));
    } else if ec.code == OPERATION_ABORTED && t.state == CLOSED {
    } else {
      var told := t.(notes := t.notes + [ConnectionFailed(ec)]);
      NoteAppend(t.notes, ConnectionFailed(ec));
      assert CountConnected(told.notes) == CountConnected(t.notes);
      CloseSuccess(told);
    }
  }

  lemma StepSuccess(t: Transport, e: Event)
    requires Enabled(t, e) && SuccessIsConnection(t)
    ensures SuccessIsConnection(Apply(t, e)) && CountConnected(Apply(t, e).notes) >= CountConnected(t.notes)
    ensures e.ConnectDone? && e.ec.code == 0 ==> CountConnected(Apply(t, e).notes) == CountConnected(t.notes) + 1
  {
    match e
    case Closing => CloseSuccess(t);
    case Received(ec, len) => ReceiveSuccess(t, ec, len);
    case OpeningAsync(id) => OutcomeAppend(id, t.outcomes, ClosureRan(id, Failure(ALREADY_CONNECTED)));
    case Opening(ec) => OpenSuccess(t, ec);
    case Resolved(id, ec) => FailSuccess(t, id, ec);
    case ConnectDone(id, ec) => ConnectSuccess(t, id, ec);
  }

  /** Every open that was started is in progress or its closure was run once, never both. */
  predicate Answered(t: Transport, id: nat) {
    && CountRan(id, t.outcomes) + (if id in t.opens then 1 else 0) == (if id in t.started then 1 else 0)
    && forall d | d in t.opens :: d in t.started
  }

  lemma OpenAnswers(t: Transport, ec: Error, id: nat)
    requires Answered(t, id)
    ensures Answered(OpenSync(t, ec), id)
  {
    OutcomeAppend(id, t.outcomes, Returned(false));
    OutcomeAppend(id, t.outcomes, Returned(true));
  }

  lemma AsyncAnswers(t: Transport, d: nat, id: nat)
    requires Answered(t, id) && d !in t.started
    ensures Answered(OpenAsync(t, d), id)
  {
    OutcomeAppend(id, t.outcomes, ClosureRan(d, Failure(ALREADY_CONNECTED)));
  }

  lemma FailAnswers(t: Transport, d: nat, ec: Error, id: nat)
    requires Answered(t, id) && d in t.opens
    ensures Answered(Fail(t, d, ec), id)
  {
    var t1 := Fail(t, d, ec);
    assert t1.outcomes == t.outcomes + [ClosureRan(d, Failure(ec))] && t1.started == t.started;
    assert forall x :: x in t1.opens <==> x in t.opens && x != d;
    OutcomeAppend(id, t.outcomes, ClosureRan(d, Failure(ec)));
  }

  lemma ConnectAnswers(t: Transport, d: nat, ec: Error, id: nat)
    requires Answered(t, id) && d in t.opens
    ensures Answered(HandleConnect(t, d, ec), id)
  {
    if ec.code != 0 {
      FailAnswers(t, d, ec, id);
    } else {
      OutcomeAppend(id, t.outcomes, ClosureRan(d, Success()));
    }
  }

  lemma StepAnswers(t: Transport, e: Event, id: nat)
    requires Enabled(t, e) && Answered(t, id)
    ensures Answered(Apply(t, e), id)
  {
    match e
    case OpeningAsync(d) => AsyncAnswers(t, d, id);
    case Opening(ec) => OpenAnswers(t, ec, id);
    case Resolved(d, ec) => FailAnswers(t, d, ec, id);
    case ConnectDone(d, ec) => ConnectAnswers(t, d, ec, id);
    case _ =>
  }

  lemma {:induction false} Invariant(es: seq<Event>, id: nat)
    requires Run(es).Some?
    ensures
      var t := Run(es).value;
      && SuccessIsConnection(t) && Answered(t, id)
      && (AssertionsHold(es) ==> ToldOnce(t)) && (!AssertionsHold(es) ==> CountConnected(t.notes) >= 2)
  {
    if es != [] {
      var t, e := Run(es[..|es| - 1]).value, es[|es| - 1];
      Invariant(es[..|es| - 1], id);
      StepSuccess(t, e);
      StepAnswers(t, e, id);
      if AssertionsHold(es) {
        StepTellsOnce(t, e);
      }
    }
  }

  /**
   * Whatever the users and the network do: the listener is told of one connection at most, if and only if
   * the open() assertion never fails; then what it was told is just what the state says, the transport was
   * opened by the one open that reported success, and every closure of an open in progress is still owed.
   */
  lemma LifeCycle(es: seq<Event>, id: nat)
    requires Run(es).Some?
    ensures
      var t := Run(es).value;
      && (AssertionsHold(es) <==> CountConnected(t.notes) <= 1)
      && (AssertionsHold(es) ==> Milestones(t.notes) == Path(t.state))
      && CountSuccess(t.outcomes) == CountConnected(t.notes)
      && CountRan(id, t.outcomes) == (if id in t.started && id !in t.opens then 1 else 0)
  {
    Invariant(es, id);
  }

  // ---- what users and listener are told ----

  /** What the closure of one open was run with. */
  function ResultsOf(id: nat, outcomes: seq<Outcome>): seq<Result> {
    if outcomes == [] then []
    else
      var last := outcomes[|outcomes| - 1];
      ResultsOf(id, outcomes[..|outcomes| - 1]) + if last.ClosureRan? && last.id == id then [last.result] else []
  }

  /** What the synchronous opens returned. */
  function ReturnsOf(outcomes: seq<Outcome>): seq<bool> {
    if outcomes == [] then []
    else
      var last := outcomes[|outcomes| - 1];
      ReturnsOf(outcomes[..|outcomes| - 1]) + if last.Returned? then [last.ok] else []
  }

  lemma ResultsAppend(id: nat, outcomes: seq<Outcome>, o: Outcome)
    ensures ResultsOf(id, outcomes + [o])
         == ResultsOf(id, outcomes) + if o.ClosureRan? && o.id == id then [o.result] else []
    ensures ReturnsOf(outcomes + [o]) == ReturnsOf(outcomes) + if o.Returned? then [o.ok] else []
  {
    assert (outcomes + [o])[..|outcomes|] == outcomes;
  }

  /**
   * The end of an open as its events tell it: a transport that was not NEW when it was made, a resolve or a
   * connect that failed, each with its own error, or a connect that succeeded.
   */
  function EndOfOpen(es: seq<Event>, id: nat): seq<Result>
    requires Run(es).Some?
  {
    if es == [] then []
    else
      var before := es[..|es| - 1];
      match es[|es| - 1]
      case OpeningAsync(d) =>
        if d == id && Run(before).value.state != NEW
        then [Result(Error(106, "Transport endpoint is already connected"), Some(VBool(false)))]
        else EndOfOpen(before, id)
      case Resolved(d, ec) =>
        if d == id && ec.code != 0 then [Result(ec, Some(VBool(false)))] else EndOfOpen(before, id)
      case ConnectDone(d, ec) =>
        if d != id then EndOfOpen(before, id)
        else if ec.code != 0 then [Result(ec, Some(VBool(false)))]
        else [Result(Error(0, []), Some(VBool(true)))]
      case _ => EndOfOpen(before, id)
  }

  /** A synchronous open succeeds when its connect does, on a transport that is NEW. */
  function ReturnsBy(es: seq<Event>): seq<bool>
    requires Run(es).Some?
  {
    if es == [] then []
    else
      var before, e := es[..|es| - 1], es[|es| - 1];
      ReturnsBy(before) + if e.Opening? then [Run(before).value.state == NEW && e.ec.code == 0] else []
  }

  lemma StepResults(t: Transport, e: Event, id: nat)
    requires Enabled(t, e)
    ensures ResultsOf(id, Apply(t, e).outcomes) == ResultsOf(id, t.outcomes) +
      match e
      case OpeningAsync(d) =>
        if d == id && t.state != NEW
        then [Result(Error(106, "Transport endpoint is already connected"), Some(VBool(false)))] else []
      case Resolved(d, ec) => if d == id && ec.code != 0 then [Result(ec, Some(VBool(false)))] else []
      case ConnectDone(d, ec) =>
        if d != id then [] else if ec.code != 0 then [Result(ec, Some(VBool(false)))]
        else [Result(Error(0, []), Some(VBool(true)))]
      case _ => []
  {
    assert ResultsOf(id, t.outcomes) + [] == ResultsOf(id, t.outcomes);
    match e
    case OpeningAsync(d) => ResultsAppend(id, t.outcomes, ClosureRan(d, Failure(ALREADY_CONNECTED)));
    case Opening(ec) => ResultsAppend(id, t.outcomes, Returned(t.state == NEW && ec.code == 0));
    case Resolved(d, ec) => ResultsAppend(id, t.outcomes, ClosureRan(d, Failure(ec)));
    case ConnectDone(d, ec) =>
      ResultsAppend(id, t.outcomes, ClosureRan(d, if ec.code != 0 then Failure(ec) else Success()));
    case _ =>
  }

  lemma StepReturns(t: Transport, e: Event)
    requires Enabled(t, e)
    ensures ReturnsOf(Apply(t, e).outcomes)
         == ReturnsOf(t.outcomes) + if e.Opening? then [t.state == NEW && e.ec.code == 0] else []
  {
    assert ReturnsOf(t.outcomes) + [] == ReturnsOf(t.outcomes);
    match e
    case OpeningAsync(d) => ResultsAppend(d, t.outcomes, ClosureRan(d, Failure(ALREADY_CONNECTED)));
    case Opening(ec) => ResultsAppend(0, t.outcomes, Returned(t.state == NEW && ec.code == 0));
    case Resolved(d, ec) => ResultsAppend(d, t.outcomes, ClosureRan(d, Failure(ec)));
    case ConnectDone(d, ec) =>
      ResultsAppend(d, t.outcomes, ClosureRan(d, if ec.code != 0 then Failure(ec) else Success()));
    case _ =>
  }

  /** An open that is still to end was told nothing, by the transport or by its events. */
  predicate EndsOnce(es: seq<Event>, id: nat)
    requires Run(es).Some?
  {
    var t := Run(es).value;
    && ResultsOf(id, t.outcomes) == EndOfOpen(es, id)
    && (id in t.opens || id !in t.started ==> EndOfOpen(es, id) == [])
    && (id in t.opens ==> id in t.started)
  }

  lemma {:induction false} EachEndsOnce(es: seq<Event>, id: nat)
    requires Run(es).Some?
    ensures EndsOnce(es, id)
  {
    if es != [] {
      var before, e := es[..|es| - 1], es[|es| - 1];
      EachEndsOnce(before, id);
      StepResults(Run(before).value, e, id);
    }
  }

  lemma {:induction false} SyncReturns(es: seq<Event>)
    requires Run(es).Some?
    ensures ReturnsOf(Run(es).value.outcomes) == ReturnsBy(es)
  {
    if es != [] {
      SyncReturns(es[..|es| - 1]);
      StepReturns(Run(es[..|es| - 1]).value, es[|es| - 1]);
    }
  }

  /** What one event tells the listener. */
  function NotesOf(state: State, e: Event): seq<Note> {
    match e
    case Opening(ec) => if state != NEW then [] else if ec.code != 0 then [ConnectionFailed(ec)] else [Connected]
    case Resolved(_, ec) => if ec.code != 0 then [ConnectionFailed(ec)] else []
    case ConnectDone(_, ec) => if ec.code != 0 then [ConnectionFailed(ec)] else [Connected]
    case Closing => if state == OPEN then [Disconnected] else []
    case Received(ec, len) =>
      if ec.code == 0 then [IncomingData(len)]
      else
        (if ec.code == 125 && state == CLOSED then [] else [ConnectionFailed(ec)])
        + (if ec.code in {4, 11} || state != OPEN then [] else [Disconnected])
    case _ => []
  }

  function NotesBy(es: seq<Event>): seq<Note>
    requires Run(es).Some?
  {
    if es == [] then []
    else NotesBy(es[..|es| - 1]) + NotesOf(Run(es[..|es| - 1]).value.state, es[|es| - 1])
  }

  lemma StepNotes(t: Transport, e: Event)
    requires Enabled(t, e)
    ensures Apply(t, e).notes == t.notes + NotesOf(t.state, e)
  {
    if e.Received? && e.ec.code != 0 {
      assert HandleRecv(t, e.ec, e.len).notes == t.notes + NotesOf(t.state, e);
    }
  }

  lemma {:induction false} NotesAreOf(es: seq<Event>)
    requires Run(es).Some?
    ensures Run(es).value.notes == NotesBy(es)
  {
    if es != [] {
      NotesAreOf(es[..|es| - 1]);
      StepNotes(Run(es[..|es| - 1]).value, es[|es| - 1]);
    }
  }

  /**
   * Who is told what, in every run: each closure the end of its own open and nothing else, each synchronous
   * open whether it made the connection, and the listener every connection, disconnection, error and arrival
   * of data, in order.
   */
  lemma EachIsTold(es: seq<Event>, id: nat)
    requires Run(es).Some?
    ensures
      var t := Run(es).value;
      && ResultsOf(id, t.outcomes) == EndOfOpen(es, id)
      && ReturnsOf(t.outcomes) == ReturnsBy(es)
      && t.notes == NotesBy(es)
  {
    EachEndsOnce(es, id);
    SyncReturns(es);
    NotesAreOf(es);
  }

  predicate AtMostOne(t: Transport) {
    && (forall a, b | a in t.opens && b in t.opens :: a == b)
    && (IsIdle(t) || t.state == NEW)
  }

  lemma StepAtMostOne(t: Transport, e: Event)
    requires Enabled(t, e) && AtMostOne(t) && (e.Opening? || e.OpeningAsync? ==> IsIdle(t))
    ensures AtMostOne(Apply(t, e)) && IsAsserted(t, e)
  {
    assert e.Resolved? || e.ConnectDone? ==> e.id in t.opens;
  }

  lemma {:induction false} OneAtATimeIsAsserted(es: seq<Event>)
    requires Run(es).Some? && OneAtATime(es)
    ensures AssertionsHold(es) && AtMostOne(Run(es).value)
  {
    if es != [] {
      OneAtATimeIsAsserted(es[..|es| - 1]);
      StepAtMostOne(Run(es[..|es| - 1]).value, es[|es| - 1]);
    }
  }

  lemma StepForward(t: Transport, e: Event)
    requires Enabled(t, e) && IsAsserted(t, e)
    ensures Path(t.state) <= Path(Apply(t, e).state)
  {
    assert Apply(t, e).state in {t.state, OPEN, CLOSED} && (t.state == CLOSED ==> Apply(t, e).state == CLOSED);
  }

  lemma {:induction false} Forward(es: seq<Event>, i: nat)
    requires Run(es).Some? && AssertionsHold(es) && i <= |es|
    ensures Run(es[..i]).Some? && Path(Run(es[..i]).value.state) <= Path(Run(es).value.state)
  {
    if i == |es| {
      assert es[..i] == es;
    } else {
      Forward(es[..|es| - 1], i);
      assert es[..|es| - 1][..i] == es[..i];
      StepForward(Run(es[..|es| - 1]).value, es[|es| - 1]);
    }
  }

  /**
   * With one open in progress at a time: the state only moves from NEW to OPEN to CLOSED, on_connected and
   * on_disconnected each happen once at most and in that order, and an asynchronous open that has completed
   * ran its closure once.
   */
  lemma OneOpenAtATime(es: seq<Event>, i: nat, id: nat)
    requires Run(es).Some? && OneAtATime(es) && i <= |es|
    ensures
      var t := Run(es).value;
      && Milestones(t.notes) == Path(t.state)
      && Run(es[..i]).Some? && Path(Run(es[..i]).value.state) <= Path(t.state)
      && (id in t.started && IsIdle(t) ==> CountRan(id, t.outcomes) == 1)
  {
    OneAtATimeIsAsserted(es);
    LifeCycle(es, id);
    Forward(es, i);
  }

  /** A close before the connection is made is lost: whatever comes after it comes as if it had not been. */
  lemma {:induction false} EarlyClose(es: seq<Event>, later: seq<Event>)
    requires Run(es).Some? && Run(es).value.state == NEW
    ensures Run(es + [Closing] + later) == Run(es + later)
  {
    if later == [] {
      assert (es + [Closing])[..|es|] == es && es + [] == es;
      assert es + [Closing] + [] == es + [Closing];
    } else {
      var before, e := later[..|later| - 1], later[|later| - 1];
      EarlyClose(es, before);
      RunLast(es + [Closing] + before, e);
      RunLast(es + before, e);
      assert es + [Closing] + later == es + [Closing] + before + [e];
      assert es + later == es + before + [e];
    }
  }

  lemma RunLast(es: seq<Event>, e: Event)
    ensures Run(es + [e])
         == match Run(es) case None => None case Some(t) => if Enabled(t, e) then Some(Apply(t, e)) else None
  {
    assert (es + [e])[..|es|] == es;
  }

  /** An open() during an asynchronous one: its listener is told twice of a connection, against the assertion. */
  lemma TwoOpens()
    ensures
      var es := [OpeningAsync(0), Resolved(0, NO_ERROR), Opening(NO_ERROR), ConnectDone(0, NO_ERROR)];
      && Run(es).Some? && !OneAtATime(es) && !AssertionsHold(es)
      && Run(es[..3]).Some? && Run(es[..3]).value.state == OPEN && CountConnected(Run(es).value.notes) == 2
  {
    var es := [OpeningAsync(0), Resolved(0, NO_ERROR), Opening(NO_ERROR), ConnectDone(0, NO_ERROR)];
    assert es[..0] == [] && es[..4] == es;
    RunNext(es, 0);
    assert Run(es[..1]).value.state == NEW && Run(es[..1]).value.opens == map[0 := Resolving];
    RunNext(es, 1);
    assert Run(es[..2]).value.state == NEW && Run(es[..2]).value.opens == map[0 := Connecting];
    RunNext(es, 2);
    assert Run(es[..3]).value.notes == [Connected];
    RunNext(es, 3);
    assert es[..|es| - 1] == es[..3];
    NoteAppend([Connected], Connected);
    if OneAtATime(es) {
      OneAtATimeIsAsserted(es);
    }
  }

  /**
   * The same with a close between them: nothing in the code keeps a transport that was closed from being
   * opened again, if the connect completes with success all the same.
   */
  lemma OpenedAgain()
    ensures
      var es := [OpeningAsync(0), Resolved(0, NO_ERROR), Opening(NO_ERROR), Closing, ConnectDone(0, NO_ERROR)];
      && Run(es).Some? && !OneAtATime(es) && !AssertionsHold(es)
      && Run(es[..4]).Some? && Run(es[..4]).value.state == CLOSED && Run(es).value.state == OPEN
  {
    var es := [OpeningAsync(0), Resolved(0, NO_ERROR), Opening(NO_ERROR), Closing, ConnectDone(0, NO_ERROR)];
    assert es[..0] == [] && es[..5] == es;
    RunNext(es, 0);
    assert Run(es[..1]).value.state == NEW && Run(es[..1]).value.opens == map[0 := Resolving];
    RunNext(es, 1);
    assert Run(es[..2]).value.state == NEW && Run(es[..2]).value.opens == map[0 := Connecting];
    RunNext(es, 2);
    OpenedThenClosed(es);
  }

  lemma OpenedThenClosed(es: seq<Event>)
    requires es == [OpeningAsync(0), Resolved(0, NO_ERROR), Opening(NO_ERROR), Closing, ConnectDone(0, NO_ERROR)]
    requires Run(es[..3]).Some? && Run(es[..3]).value.state == OPEN && Run(es[..3]).value.opens == map[0 := Connecting]
    ensures Run(es).Some? && !OneAtATime(es) && !AssertionsHold(es)
    ensures Run(es[..4]).Some? && Run(es[..4]).value.state == CLOSED && Run(es).value.state == OPEN
  {
    assert es[..5] == es;
    RunNext(es, 3);
    RunNext(es, 4);
    assert es[..|es| - 1] == es[..4];
    if OneAtATime(es) {
      OneAtATimeIsAsserted(es);
    }
  }

  lemma RunNext(es: seq<Event>, i: nat)
    requires i < |es| && Run(es[..i]).Some? && Enabled(Run(es[..i]).value, es[i])
    ensures Run(es[..i + 1]) == Some(Apply(Run(es[..i]).value, es[i]))
  {
    assert es[..i + 1][..i] == es[..i];
  }
}

/** The class, with the completion handlers of its asynchronous open. */
module ClientTransport {
  import opened Wrappers
  import opened ByteStrings
  import opened Codec
  import opened Results
  import opened Framing
  import opened Connections
  import opened Endpoints
  import ClientModel
  import opened TransportModel

  class ClientTcpTransport {
    /** What it inherits: state, listener and stream. */
    const base: BasicStreamTransport
    /** The asynchronous operations that were started and did not complete. */
    var myOpens: map<nat, Phase>
    ghost var started: set<nat>
    ghost var outcomes: seq<Outcome>
    /** Its listener, which must be set before an open. */
    ghost const listener: Client

    ghost function View(): Transport
      reads this, base
    {
      Transport(base.myState, myOpens, started, base.notes, outcomes)
    }

    ghost predicate Valid()
      reads this, base, base.rx, listener, listener.myTransport, listener.myCallQueue, listener.myMessenger
    {
      && listener.myTransport == base && listener.Valid()
      && (base.myState == NEW ==> listener.myMessenger.State() == Header && base.rx.outstanding.None?)
    }

    constructor (base: BasicStreamTransport, ghost listener: Client)
      requires base.myState == NEW && base.notes == [] && listener.myTransport == base && listener.Valid()
      requires listener.myMessenger.State() == Header && base.rx.outstanding.None?
      ensures Valid() && View() == TransportModel.START && this.base == base && this.listener == listener
    {
      this.base, this.listener, myOpens, started, outcomes := base, listener, map[], {}, [];
    }

    /** The listener reads, or was told the error of the open; before, it was in the state `before`. */
    ghost predicate IsOpenedOrTold(ec: Error, before: ClientModel.ClientState, order: seq<Bytes>)
      reads this, base, base.rx, listener, listener.myTransport, listener.myCallQueue, listener.myMessenger
    {
      if ec.code == 0 then
        listener.myMessenger.Reading(base.rx) && listener.View() == ClientModel.Open(before)
      else
        && ClientModel.IsOrder(order, before.closures.Keys)
        && listener.View() == ClientModel.ConnectionError(before, EncodeResult(Result(ec, None)), order)
    }

    /** `ec` is what the connect answers. */
    method OpenSync(ec: Error) returns (ok: bool, ghost order: seq<Bytes>)
      requires Valid()
      modifies this`outcomes, base`myState, base`notes, base.rx`outstanding
      modifies listener`myClosures, listener`failed, listener.streams
      ensures Valid() && View() == TransportModel.OpenSync(old(View()), ec)
      ensures outcomes == old(outcomes) + [Returned(ok)]
      ensures old(base.myState) == NEW ==> IsOpenedOrTold(ec, old(listener.View()), order)
      ensures old(base.myState) != NEW ==> listener.View() == old(listener.View())
    {
      order := [];
      if base.myState == NEW {
        if ec.code != 0 {
          order := base.TellError(ec);
          ok := false;
        } else {
          base.Open();
          ok := true;
        }
      } else {
        ok := false;
      }
      outcomes := outcomes + [Returned(ok)];
    }

    method OpenAsync(id: nat)
      requires Valid() && id !in started
      modifies this
      ensures Valid() && View() == TransportModel.OpenAsync(old(View()), id)
    {
      started := started + {id};
      if base.myState == NEW {
        myOpens := myOpens[id := Resolving];
      } else {
        outcomes := outcomes + [ClosureRan(id, Failure(ALREADY_CONNECTED))];
      }
    }

    method HandleResolve(id: nat, ec: Error) returns (ghost order: seq<Bytes>)
      requires Valid() && id in myOpens && myOpens[id] == Resolving
      modifies this, base`notes, listener`myClosures, listener`failed, listener.streams
      ensures Valid() && View() == TransportModel.HandleResolve(old(View()), id, ec)
      ensures ec.code != 0 ==> IsOpenedOrTold(ec, old(listener.View()), order)
      ensures ec.code == 0 ==> listener.View() == old(listener.View())
    {
      order := [];
      if ec.code != 0 {
        order := base.TellError(ec);
        myOpens := myOpens - {id};
        outcomes := outcomes + [ClosureRan(id, Failure(ec))];
      } else {
        myOpens := myOpens[id := Connecting];
      }
    }

    /** false: the assertion in open() fails, which ends the program where assertions are on. */
    method HandleConnect(id: nat, ec: Error) returns (asserted: bool, ghost order: seq<Bytes>)
      requires Valid() && id in myOpens && myOpens[id] == Connecting
      modifies this, base`myState, base`notes, base.rx`outstanding
      modifies listener`myClosures, listener`failed, listener.streams
      ensures Valid() && (asserted <==> (ec.code == 0 ==> old(base.myState) == NEW))
      ensures View() == if asserted then TransportModel.HandleConnect(old(View()), id, ec) else old(View())
      ensures asserted ==> IsOpenedOrTold(ec, old(listener.View()), order)
      ensures !asserted ==> listener.View() == old(listener.View())
    {
      order := [];
      asserted := ec.code != 0 || base.myState == NEW;
      if !asserted {
        return;
      }
      myOpens := myOpens - {id};
      if ec.code != 0 {
        order := base.TellError(ec);
        outcomes := outcomes + [ClosureRan(id, Failure(ec))];
      } else {
        base.Open();
        outcomes := outcomes + [ClosureRan(id, Success())];
      }
    }

    method Close()
      requires Valid()
      modifies base`myState, base`myListener, base`notes
      ensures Valid() && View() == TransportModel.Close(old(View()))
    {
      base.Close();
    }

    method HandleRecv(ec: Error, bytesTransferred: nat) returns (ghost order: seq<Bytes>)
      requires Valid() && base.rx.outstanding.Some?
      modifies base`myState, base`myListener, base`notes, base.rx`outstanding
      modifies listener`myClosures, listener`failed, listener.streams
      ensures Valid() && View() == TransportModel.HandleRecv(old(View()), ec, bytesTransferred)
      ensures ec.code == 0 ==> listener.View() == old(listener.View()) && base.rx.outstanding == old(base.rx.outstanding)
      ensures ec.code != 0 ==>
        && ClientModel.IsOrder(order, old(listener.myClosures).Keys) && base.rx.outstanding.None?
        && listener.View() == ClientModel.ReadFailed(old(listener.View()), ec, order)
    {
      order := base.HandleRecv(ec, bytesTransferred);
    }
  }
}
