/**
 * The service as a state machine on values.  T is the identity of a client transport: an object in the
 * class Service, a number in the whole system.
 */
module ServiceModel {
  import opened ByteStrings
  import opened FunctionDictionary

  datatype ServiceState<!T(==)> = ServiceState(
    dict: Dict,
    clients: set<T>,
    pending: multiset<(Bytes, T)>)

  function Start<T>(dict: Dict): ServiceState<T> {
    ServiceState(dict, {}, multiset{})
  }

  function Accept<T>(s: ServiceState<T>, t: T): ServiceState<T> {
    s.(clients := s.clients + {t})
  }

  /** A pending call of a client that disconnects stays pending. */
  function Disconnect<T>(s: ServiceState<T>, t: T): ServiceState<T> {
    s.(clients := s.clients - {t})
  }

  datatype DispatchOutcome = UnknownFunction | InProgress | CalledTwoWay | CalledOneWay

  /** `written`: whether the reply to a second call in progress can be written. */
  function Dispatch<T>(s: ServiceState<T>, t: T, name: Bytes, written: bool): (ServiceState<T>, DispatchOutcome) {
    if name !in s.dict then (s, UnknownFunction)
    else if s.dict[name].oneWay then (s, CalledOneWay)
    else if (name, t) in s.pending then (if written then s else Disconnect(s, t), InProgress)
    else (s.(pending := s.pending + multiset{(name, t)}), CalledTwoWay)
  }

  datatype AnswerOutcome = AlreadyDelivered | ResultSent | SendFailed | ResultDropped

  /** `written`: whether the result can be written; if not, the transport closes and disconnects. */
  function SendResult<T>(s: ServiceState<T>, t: T, name: Bytes, written: bool): (ServiceState<T>, AnswerOutcome) {
    if (name, t) !in s.pending then (s, AlreadyDelivered)
    else
      var s1 := s.(pending := s.pending - multiset{(name, t)});
      if t !in s.clients then (s1, ResultDropped)
      else if written then (s1, ResultSent)
      else (Disconnect(s1, t), SendFailed)
  }
}

/** What every service keeps, in every interleaving of its clients' and its own actions. */
module ServiceRuns {
  import opened Wrappers
  import opened ByteStrings
  import opened FunctionDictionary
  import opened ServiceModel

  datatype Event<T> =
    | Accepted(t: T)
    | Disconnected(t: T)
    | Dispatched(t: T, name: Bytes, written: bool)
    | Answered(t: T, name: Bytes, written: bool)

  /** A call message is dispatched only while its client is connected; closures may be called at any time. */
  predicate Enabled<T>(s: ServiceState<T>, e: Event<T>) {
    e.Dispatched? ==> e.t in s.clients
  }

  function Apply<T>(s: ServiceState<T>, e: Event<T>): ServiceState<T> {
    match e
    case Accepted(t) => Accept(s, t)
    case Disconnected(t) => Disconnect(s, t)
    case Dispatched(t, name, written) => Dispatch(s, t, name, written).0
    case Answered(t, name, written) => SendResult(s, t, name, written).0
  }

  /** The books of a run for one function and client: calls taken, and how their results fared. */
  datatype Books = Books(called: nat, sent: nat, failed: nat, dropped: nat)

  function Enter<T>(b: Books, s: ServiceState<T>, e: Event<T>, t: T, name: Bytes): Books {
    if e.Dispatched? && e.t == t && e.name == name then
      if Dispatch(s, t, name, e.written).1 == CalledTwoWay then b.(called := b.called + 1) else b
    else if e.Answered? && e.t == t && e.name == name then
      match SendResult(s, t, name, e.written).1
      case ResultSent => b.(sent := b.sent + 1)
      case SendFailed => b.(failed := b.failed + 1)
      case ResultDropped => b.(dropped := b.dropped + 1)
      case AlreadyDelivered => b
    else b
  }

  function Run<T>(dict: Dict, es: seq<Event<T>>, t: T, name: Bytes): Option<(ServiceState<T>, Books)> {
    if es == [] then Some((Start(dict), Books(0, 0, 0, 0)))
    else
      match Run(dict, es[..|es| - 1], t, name)
      case None => None
      case Some((s, b)) =>
        var e := es[|es| - 1];
        if Enabled(s, e) then Some((Apply(s, e), Enter(b, s, e, t, name))) else None
  }

  function Settled(b: Books): nat {
    b.sent + b.failed + b.dropped
  }

  lemma DispatchOnPending<T>(s: ServiceState<T>, t: T, name: Bytes, written: bool, call: (Bytes, T))
    ensures
      var (s1, outcome) := Dispatch(s, t, name, written);
      && (outcome == CalledTwoWay ==> s.pending[(name, t)] == 0)
      && s1.pending[call] == s.pending[call] + if outcome == CalledTwoWay && call == (name, t) then 1 else 0
  {
  }

  lemma AnswerOnPending<T>(s: ServiceState<T>, t: T, name: Bytes, written: bool, call: (Bytes, T))
    ensures
      var (s1, outcome) := SendResult(s, t, name, written);
      && (outcome == AlreadyDelivered <==> s.pending[(name, t)] == 0)
      && s1.pending[call] == s.pending[call] - if outcome != AlreadyDelivered && call == (name, t) then 1 else 0
  {
  }

  lemma EnterBalances<T>(b: Books, s: ServiceState<T>, e: Event<T>, t: T, name: Bytes)
    requires s.pending[(name, t)] <= 1 && b.called == s.pending[(name, t)] + Settled(b)
    ensures
      var (s1, b1) := (Apply(s, e), Enter(b, s, e, t, name));
      s1.pending[(name, t)] <= 1 && b1.called == s1.pending[(name, t)] + Settled(b1)
  {
    match e
    case Dispatched(t0, name0, written) => DispatchOnPending(s, t0, name0, written, (name, t));
    case Answered(t0, name0, written) => AnswerOnPending(s, t0, name0, written, (name, t));
    case _ =>
  }

  /**
   * For every function and client: at most one call is pending, and the calls that were dispatched are
   * the one pending, those answered (the write succeeding or not) and those dropped because the client
   * was gone.  Disconnects come at any time, also from the write that answers.
   */
  lemma {:induction false} PendingCalls<T>(dict: Dict, es: seq<Event<T>>, t: T, name: Bytes)
    requires Run(dict, es, t, name).Some?
    ensures
      var (s, b) := Run(dict, es, t, name).value;
      && s.pending[(name, t)] <= 1
      && b.called == s.pending[(name, t)] + b.sent + b.failed + b.dropped
  {
    if es != [] {
      PendingCalls(dict, es[..|es| - 1], t, name);
      var (s, b) := Run(dict, es[..|es| - 1], t, name).value;
      EnterBalances(b, s, es[|es| - 1], t, name);
    }
  }

  /**
   * Exactly when a closure call is refused ("results already delivered") and when a call message is
   * (operation in progress), told from the books alone: every call taken is settled, or one is not.
   */
  lemma RefusedExactly<T>(dict: Dict, es: seq<Event<T>>, s: ServiceState<T>, b: Books, t: T, name: Bytes, written: bool)
    requires Run(dict, es, t, name) == Some((s, b))
    ensures
      var (s1, answer) := SendResult(s, t, name, written);
      var (s2, call) := Dispatch(s, t, name, written);
      && (answer == AlreadyDelivered <==> b.called == Settled(b))
      && (answer == AlreadyDelivered ==> s1 == s)
      && (call == InProgress <==>
            name in s.dict && !s.dict[name].oneWay && b.called == Settled(b) + 1)
      && (call == InProgress ==> s2.pending == s.pending)
  {
    PendingCalls(dict, es, t, name);
  }
}
