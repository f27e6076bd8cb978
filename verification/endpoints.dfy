/**
 * The classes at the two ends of a connection: the stream transport, the client and the service.  They are
 * one module because a transport calls its listener back, and the listener acts on the transport.  Each
 * method takes exactly the step of ClientModel or ServiceModel that its contract names.
 *
 * `ec` is what the socket answers to a write the method makes; code 0 is success.
 */
module Endpoints {
  import opened Wrappers
  import opened ByteStrings
  import opened Codec
  import opened Results
  import opened Messages
  import opened Serialization
  import opened FunctionDictionary
  import opened Framing
  import opened Messenger
  import opened Connections
  import opened CallQueues
  import opened Interfaces
  import opened Link
  import opened Incoming
  import ClientModel
  import ServiceModel
  import WholeSystem

  datatype Listener = NoListener | ServiceListener(service: Service) | ClientListener(client: Client)

  class BasicStreamTransport {
    var myState: State
    var myListener: Listener
    const rx: ReadChannel
    /** The bytes the socket took, and the notifications made. */
    ghost var written: Bytes
    ghost var notes: seq<Note>

    constructor ()
      ensures myState == NEW && myListener == NoListener && fresh(rx) && rx.outstanding.None?
      ensures written == [] && notes == []
    {
      myState, myListener, written, notes := NEW, NoListener, [], [];
      rx := new ReadChannel();
    }

    /** The service that a close is reported to. */
    ghost function Owner(): set<Service>
      reads this
    {
      if myListener.ServiceListener? then {myListener.service} else {}
    }

    ghost function OwnerClients(): map<BasicStreamTransport, Messenger>
      reads this, Owner()
    {
      if myListener.ServiceListener? then myListener.service.myClients else map[]
    }

    /** What was there before a call: the listener, its notifications and its clients if it is a service. */
    ghost function Before(): (b: (Listener, seq<Note>, map<BasicStreamTransport, Messenger>))
      reads this, Owner()
    {
      (myListener, notes, OwnerClients())
    }

    /** The listener, if there was one, was told once of the close, and a service forgot the transport. */
    ghost predicate ClosedSince(b: (Listener, seq<Note>, map<BasicStreamTransport, Messenger>))
      reads this, if b.0.ServiceListener? then {b.0.service} else {}
    {
      && myState == CLOSED
      && notes == b.1 + (if b.0.NoListener? then [] else [Disconnected])
      && (b.0.ServiceListener? ==> myListener == NoListener && b.0.service.myClients == b.2 - {this})
      && (!b.0.ServiceListener? ==> myListener == b.0)
    }

    /** Closed by the service that it belonged to, which was told just once. */
    ghost predicate GoneSince(notes0: seq<Note>)
      reads this
    {
      myState == CLOSED && myListener == NoListener && notes == notes0 + [Disconnected]
    }

    ghost predicate SameSince(b: (Listener, seq<Note>, map<BasicStreamTransport, Messenger>))
      reads this, Owner()
    {
      Before() == b
    }

    method Close()
      modifies this`myState, this`myListener, this`notes, Owner()`myClients
      ensures
        if old(myState) == OPEN then ClosedSince(old(Before()))
        else myState == old(myState) && SameSince(old(Before()))
    {
      if myState == OPEN {
        myState := CLOSED;
        match myListener {
          case NoListener =>
          case ServiceListener(s) =>
            notes := notes + [Disconnected];
            s.OnDisconnected(this);
          case ClientListener(c) =>
            notes := notes + [Disconnected];
        }
      }
    }

    method Write(msg: Bytes, ec: Error) returns (err: Error)
      modifies this`myState, this`myListener, this`notes, this`written, Owner()`myClients
      ensures
        if old(myState) != OPEN then
          err == NOT_CONNECTED && myState == old(myState) && SameSince(old(Before())) && written == old(written)
        else if ec.code != 0 then err == ec && ClosedSince(old(Before())) && written == old(written)
        else err == NO_ERROR && myState == OPEN && SameSince(old(Before())) && written == old(written) + msg
    {
      if myState == OPEN {
        if ec.code != 0 {
          Close();
          return ec;
        }
        written := written + msg;
        return NO_ERROR;
      }
      return NOT_CONNECTED;
    }

    ghost function Clients(): set<Client>
      reads this
    {
      if myListener.ClientListener? then {myListener.client} else {}
    }

    /** The transport is the one that its listener, if that is a client, knows. */
    ghost predicate Wired()
      reads this, Clients(), set c <- Clients() :: c.myTransport, set c <- Clients() :: c.myCallQueue
    {
      myListener.ClientListener? ==> myListener.client.myTransport == this && myListener.client.Valid()
    }

    /** A client starts to read; for a service, on_connected does nothing. */
    method Open()
      requires myState == NEW && myListener != NoListener && Wired()
      requires myListener.ClientListener? ==> myListener.client.myMessenger.State() == Header && rx.outstanding.None?
      modifies this`myState, this`notes, (set c <- Clients() :: c.myTransport.rx)`outstanding
      ensures myState == OPEN && notes == old(notes) + [Connected]
      ensures myListener.ClientListener? ==>
        var c := myListener.client;
        c.Valid() && c.myMessenger.Reading(rx) && c.View() == ClientModel.Open(old(c.View()))
    {
      myState := OPEN;
      notes := notes + [Connected];
      match myListener {
        case ClientListener(c) => c.OnConnected();
        case _ =>
      }
    }

    /** A service ignores the error, a client fails its calls in flight. */
    method TellError(e: Error) returns (ghost order: seq<Bytes>)
      requires myListener != NoListener && Wired()
      modifies this`notes, Clients()`myClosures, Clients()`failed, set c <- Clients() :: c.streams
      ensures notes == old(notes) + [ConnectionFailed(e)] && Wired()
      ensures myListener.ClientListener? ==>
        var c := myListener.client;
        && ClientModel.IsOrder(order, old(c.myClosures).Keys)
        && c.View() == ClientModel.ConnectionError(old(c.View()), EncodeResult(Result(e, None)), order)
    {
      notes := notes + [ConnectionFailed(e)];
      order := [];
      match myListener {
        case ClientListener(c) => order := c.OnConnectionError(e);
        case _ =>
      }
    }

    /**
     * A read completed.  After an error no read is in progress, whether or not the transport stays open; the
     * abort that follows a close is passed over in silence.
     */
    method HandleRecv(ec: Error, bytesTransferred: nat) returns (ghost order: seq<Bytes>)
      requires rx.outstanding.Some? && Wired() && (ec.code == 0 ==> myListener != NoListener)
      modifies this`myState, this`myListener, this`notes, Owner()`myClients, rx`outstanding
      modifies Clients()`myClosures, Clients()`failed, set c <- Clients() :: c.streams
      ensures Wired() && rx.outstanding == if ec.code != 0 then None else old(rx.outstanding)
      ensures myState == if Closes(ec, old(myState)) then CLOSED else old(myState)
      ensures notes == old(notes) + Told(ec, bytesTransferred, old(myState), old(myListener) != NoListener)
      ensures myListener ==
        if old(myListener).ServiceListener? && Closes(ec, old(myState)) then NoListener else old(myListener)
      ensures old(myListener).ServiceListener? ==>
        old(myListener).service.myClients ==
        if Closes(ec, old(myState)) then old(OwnerClients()) - {this} else old(OwnerClients())
      ensures old(myListener).ClientListener? ==>
        var c := old(myListener).client;
        if ec.code == 0 then c.View() == old(c.View())
        else
          && ClientModel.IsOrder(order, old(c.myClosures).Keys)
          && c.View() == ClientModel.ReadFailed(old(c.View()), ec, order) && !c.myMessenger.Reading(rx)
    {
      order := [];
      if ec.code != 0 {
        rx.Fail();
        if !(ec.code == OPERATION_ABORTED && myState == CLOSED) {
          if myListener != NoListener {
            order := TellError(ec);
          }
        } else if myListener.ClientListener? {
          order := ClientModel.OrderExists(myListener.client.myClosures.Keys);
        }
        if !IsRecoverable(ec.code) {
          Close();
        }
      } else {
        notes := notes + [IncomingData(bytesTransferred)];
      }
    }
  }

  /** Whether a read that completes in `state` closes the transport. */
  predicate Closes(ec: Error, state: State) {
    ec.code != 0 && !IsRecoverable(ec.code) && state == OPEN
  }

  /** What the listener is told when a read completes in `state`. */
  function Told(ec: Error, len: nat, state: State, listener: bool): seq<Note> {
    if ec.code == 0 then [IncomingData(len)]
    else if !listener then []
    else
      (if ec.code == OPERATION_ABORTED && state == CLOSED then [] else [ConnectionFailed(ec)])
      + (if IsRecoverable(ec.code) || state != OPEN then [] else [Disconnected])
  }

  /** The header is filled in where its place was reserved, and the whole is written. */
  method WriteMessageWithHeader(tr: BasicStreamTransport, msg: Bytes, ec: Error) returns (result: Attempt<Error>)
    requires HEADER_SIZE <= |msg|
    modifies tr`myState, tr`myListener, tr`notes, tr`written, tr.Owner()`myClients
    ensures result.TooLong? <==> |msg| > MAX_SIZE - HEADER_SIZE
    ensures
      if result.TooLong? || old(tr.myState) != OPEN then
        && (result.Done? ==> result.value == NOT_CONNECTED) && tr.myState == old(tr.myState)
        && tr.SameSince(old(tr.Before())) && tr.written == old(tr.written)
      else if ec.code != 0 then
        result.value == ec && tr.ClosedSince(old(tr.Before())) && tr.written == old(tr.written)
      else
        && result.value == NO_ERROR && tr.myState == OPEN
        && tr.SameSince(old(tr.Before())) && tr.written == old(tr.written) + Frame(msg[HEADER_SIZE..])
  {
    var buffer := new Byte[|msg|](i requires 0 <= i < |msg| => msg[i]);
    assert buffer[..] == msg && buffer[HEADER_SIZE..] == msg[HEADER_SIZE..];
    var ok := PutHeader(buffer);
    if !ok {
      return TooLong;
    }
    var err := tr.Write(buffer[..], ec);
    result := Done(err);
  }

  lemma WithoutOne<T>(s: seq<T>, i: nat)
    requires i < |s|
    ensures multiset(s[..i] + s[i + 1..]) == multiset(s) - multiset{s[i]}
  {
    assert s == s[..i] + [s[i]] + s[i + 1..];
  }

  class Service {
    const myFuncPrefix: Bytes
    var myFuncDict: FunctionDict
    var myClients: map<BasicStreamTransport, Messenger>
    /** The entries of the multimap, in the order of insertion. */
    var myPendingCalls: seq<(Bytes, BasicStreamTransport)>
    var acceptorIsOpen: bool
    /** Every transport that was ever accepted. */
    ghost var known: set<BasicStreamTransport>

    constructor (prefix: Bytes)
      ensures myFuncPrefix == prefix && fresh(myFuncDict) && myFuncDict.myFunctionDict == DictOf(prefix, [])
      ensures myClients == map[] && myPendingCalls == [] && !acceptorIsOpen && known == {}
    {
      myFuncPrefix := prefix;
      myFuncDict := new FunctionDict();
      myClients, myPendingCalls, acceptorIsOpen, known := map[], [], false, {};
    }

    /** `before` are the functions that were added so far. */
    method AddFunction(f: Function, ghost before: seq<Function>)
      requires IsSignature(f.oneWay, f.params) && AreSignatures(before)
      requires myFuncDict.myFunctionDict == DictOf(myFuncPrefix, before)
      modifies myFuncDict
      ensures myFuncDict.myFunctionDict == DictOf(myFuncPrefix, before + [f])
    {
      assert (before + [f])[..|before|] == before;
      myFuncDict.AddFunction(f.oneWay, FullName(myFuncPrefix, f.name), f.params);
    }

    method Start()
      modifies this`acceptorIsOpen
      ensures acceptorIsOpen
    {
      if !acceptorIsOpen {
        acceptorIsOpen := true;
      }
    }

    ghost function View(): ServiceModel.ServiceState<BasicStreamTransport>
      reads this, myFuncDict
    {
      ServiceModel.ServiceState(myFuncDict.myFunctionDict, myClients.Keys, multiset(myPendingCalls))
    }

    /** The client map holds exactly the accepted transports that are open with this service as listener. */
    ghost predicate Valid()
      reads this, known
    {
      && myClients.Keys <= known
      && forall t | t in known ::
           t in myClients <==> t.myState == OPEN && t.myListener == ServiceListener(this)
    }

    method OnDisconnected(client: BasicStreamTransport)
      modifies this`myClients, client`myListener
      ensures myClients == old(myClients) - {client} && client.myListener == NoListener
    {
      client.myListener := NoListener;
      myClients := myClients - {client};
    }

    /** A transport comes new from the acceptor, so that it is never in the map already. */
    method OnClientAccepted(client: BasicStreamTransport)
      requires Valid() && client !in known && client.myState == NEW && client.rx.outstanding.None?
      modifies this`myClients, this`known, client, client.rx`outstanding
      ensures Valid() && known == old(known) + {client}
      ensures View() == ServiceModel.Accept(old(View()), client)
      ensures client.notes == old(client.notes) + [Connected] && client.written == old(client.written)
      ensures client in myClients && myClients[client].Reading(client.rx)
      ensures forall t | t in old(myClients) :: t in myClients && myClients[t] == old(myClients[t])
    {
      client.myListener := ServiceListener(this);
      var messenger := new Messenger();
      myClients := myClients[client := messenger];
      known := known + {client};
      client.Open();
      messenger.InitTransport(client.rx);
    }

    /** The position of the pending call, -1 when there is none. */
    method FindPendingCall(name: Bytes, client: BasicStreamTransport) returns (i: int)
      ensures -1 <= i < |myPendingCalls|
      ensures i >= 0 ==> myPendingCalls[i] == (name, client)
      ensures i < 0 <==> (name, client) !in multiset(myPendingCalls)
    {
      i := 0;
      while i < |myPendingCalls|
        invariant 0 <= i <= |myPendingCalls|
        invariant forall j | 0 <= j < i :: myPendingCalls[j] != (name, client)
      {
        if myPendingCalls[i].0 == name && myPendingCalls[i].1 == client {
          assert myPendingCalls[i] in multiset(myPendingCalls);
          return;
        }
        i := i + 1;
      }
      i := -1;
    }

    method ErasePendingCall(i: nat)
      requires i < |myPendingCalls|
      modifies this`myPendingCalls
      ensures multiset(myPendingCalls) == multiset(old(myPendingCalls)) - multiset{old(myPendingCalls)[i]}
    {
      WithoutOne(myPendingCalls, i);
      myPendingCalls := myPendingCalls[..i] + myPendingCalls[i + 1..];
    }

    /** A peer that is gone, or any other read error: that client alone leaves the map, unless it may stay. */
    method ReadFailed(client: BasicStreamTransport, ec: Error)
      requires Valid() && client in myClients && client.rx.outstanding.Some? && ec.code != 0
      modifies this`myClients, client`myState, client`myListener, client`notes, client.rx`outstanding
      ensures Valid() && known == old(known) && client.rx.outstanding.None?
      ensures View() == if IsRecoverable(ec.code) then old(View()) else ServiceModel.Disconnect(old(View()), client)
      ensures myClients == if IsRecoverable(ec.code) then old(myClients) else old(myClients) - {client}
      ensures client.notes
           == old(client.notes) + [ConnectionFailed(ec)] + if IsRecoverable(ec.code) then [] else [Disconnected]
    {
      var _ := client.HandleRecv(ec, 0);
    }

    /** A write that fails closes the transport, which comes back as OnDisconnected. */
    method WriteToClient(client: BasicStreamTransport, msg: Bytes, ghost m: Msg, ec: Error) returns (tooLong: bool)
      requires Valid() && client in myClients && msg == HEADER_PLACE + EncodeMsg(m)
      modifies this`myClients, client`myState, client`myListener, client`notes, client`written
      ensures Valid() && (tooLong <==> !CanWrite(m))
      ensures if tooLong || ec.code == 0 then client.notes == old(client.notes) else client.GoneSince(old(client.notes))
      ensures myClients == if tooLong || ec.code == 0 then old(myClients) else old(myClients) - {client}
      ensures client.written == old(client.written) + if !tooLong && ec.code == 0 then Frame(EncodeMsg(m)) else []
    {
      assert msg[HEADER_SIZE..] == EncodeMsg(m);
      var result := WriteMessageWithHeader(client, msg, ec);
      tooLong := result.TooLong?;
    }

    /**
     * A call message of a connected client; `call` is what became of its arguments.  If they cannot be read
     * that ends in an exception, and the call stays pending all the same.
     */
    method DispatchFunc(client: BasicStreamTransport, name: Bytes, streams: Streams, ec: Error)
      returns (outcome: Attempt<ServiceModel.DispatchOutcome>, call: Outcome)
      requires Valid() && client in myClients
      modifies this`myClients, this`myPendingCalls, streams
      modifies client`myState, client`myListener, client`notes, client`written
      ensures Valid() && known == old(known)
      ensures outcome.TooLong? <==>
        && ServiceModel.Dispatch(old(View()), client, name, true).1 == ServiceModel.InProgress
        && !CanWrite(Named(name, WholeSystem.IN_PROGRESS_ARCHIVE))
      ensures
        if outcome.TooLong? then View() == old(View())
        else (View(), outcome.value) == ServiceModel.Dispatch(old(View()), client, name, ec.code == 0)
      ensures outcome == Done(ServiceModel.CalledTwoWay) || outcome == Done(ServiceModel.CalledOneWay) ==>
        call == CallOutcome(myFuncDict.myFunctionDict, Named(name, old(streams.inStream)))
      ensures client.written ==
        if outcome == Done(ServiceModel.InProgress) && ec.code == 0
        then old(client.written) + Frame(EncodeMsg(Named(name, WholeSystem.IN_PROGRESS_ARCHIVE)))
        else old(client.written)
      ensures client !in myClients ==> client.myState == CLOSED && client.notes == old(client.notes) + [Disconnected]
      ensures myClients == old(myClients) || myClients == old(myClients) - {client}
    {
      call := NotFound;
      var oneWay := myFuncDict.IsOneWay(name);
      if oneWay.None? {
        outcome := Done(ServiceModel.UnknownFunction);
        return;
      }
      if !oneWay.value {
        var i := FindPendingCall(name, client);
        if i >= 0 {
          var msg := streams.SerializeCallResult(name, Result(WholeSystem.IN_PROGRESS, None));
          var tooLong := WriteToClient(client, msg, Named(name, WholeSystem.IN_PROGRESS_ARCHIVE), ec);
          outcome := if tooLong then TooLong else Done(ServiceModel.InProgress);
          return;
        }
        myPendingCalls := myPendingCalls + [(name, client)];
      }
      outcome := Done(if oneWay.value then ServiceModel.CalledOneWay else ServiceModel.CalledTwoWay);
      call := myFuncDict.CallFunction(name, streams);
    }

    /** The call that a message holds: dispatched, and its exceptions told. */
    method HandleCall(client: BasicStreamTransport, name: Bytes, streams: Streams, ec: Error) returns (end: End)
      requires Valid() && client in myClients
      modifies this`myClients, this`myPendingCalls, streams
      modifies client`myState, client`myListener, client`notes, client`written
      ensures Valid() && known == old(known)
      ensures
        var m := Named(name, old(streams.inStream));
        var answered := !CanWrite(Named(name, WholeSystem.IN_PROGRESS_ARCHIVE)) || ec.code == 0;
        var (s1, outcome) := ServiceModel.Dispatch(old(View()), client, name, answered);
        View() == s1 && end == EndOf(old(View()).dict, m, outcome, ec)
      ensures end != Gone ==> myClients == old(myClients)
    {
      var outcome, call := DispatchFunc(client, name, streams, ec);
      match outcome
      case TooLong => end := Thrown;
      case Done(UnknownFunction) => end := Thrown;
      case Done(InProgress) => end := if ec.code != 0 then Gone else ReadOn;
      case Done(_) => end := if call == BadArchive then Thrown else ReadOn;
    }

    /** The handler of the service's messages: a name, and the arguments of the function of that name. */
    method HandleMessage(client: BasicStreamTransport, msg: Bytes, streams: Streams, ec: Error) returns (end: End)
      requires Valid() && client in myClients
      modifies this`myClients, this`myPendingCalls, streams
      modifies client`myState, client`myListener, client`notes, client`written
      ensures Valid() && known == old(known)
      ensures (View(), end) == TakeUp(old(View()), client, msg, ec)
      ensures end != Gone ==> myClients == old(myClients)
    {
      var name := streams.DeserializeCall(msg);
      if name.None? {
        return Thrown;
      }
      end := HandleCall(client, name.value, streams, ec);
    }

    /** The next header is awaited if the handler returned. */
    method HandleAndResume(client: BasicStreamTransport, msg: Bytes, streams: Streams, ec: Error) returns (end: End)
      requires Valid() && client in myClients && client.rx.outstanding.None?
      modifies this`myClients, this`myPendingCalls, streams, myClients[client], client.rx`outstanding
      modifies client`myState, client`myListener, client`notes, client`written
      ensures Valid() && known == old(known)
      ensures (View(), end) == TakeUp(old(View()), client, msg, ec)
      ensures if end != ReadOn then client.rx.outstanding.None?
              else
                && myClients == old(myClients)
                && myClients[client].Reading(client.rx) && myClients[client].State() == Header
    {
      end := HandleMessage(client, msg, streams, ec);
      if end == ReadOn {
        myClients[client].Resume(client.rx);
      }
    }

    /** As in the client: so many messages were taken up, and the rest is to come. */
    ghost predicate IsUnderWay(client: BasicStreamTransport, p0: Parsed,
                               all: (ServiceModel.ServiceState<BasicStreamTransport>, End), ecs: nat -> Error, i: nat)
      requires client in myClients
      reads this, myFuncDict, known, client.rx, myClients[client]
    {
      && Valid() && myClients[client].Reading(client.rx)
      && var p := Parse(myClients[client].State(), client.rx.data);
         && p0.state == p.state && p0.rest == p.rest && p0.failed == p.failed
         && all == TakeUpAll(View(), client, p.delivered, ecs, i)
    }

    method ReadRound(client: BasicStreamTransport, available: nat, streams: Streams, ecs: nat -> Error, i: nat,
                     ghost p0: Parsed, ghost all: (ServiceModel.ServiceState<BasicStreamTransport>, End))
      returns (r: ReadStep, end: End)
      requires client in myClients && IsUnderWay(client, p0, all, ecs, i) && available == |client.rx.data|
      modifies this`myClients, this`myPendingCalls, streams, myClients[client], client.rx
      modifies client`myState, client`myListener, client`notes, client`written
      ensures Valid() && known == old(known)
      ensures |client.rx.data| + Taken(r) == available && (r.NoMore? || 0 < Taken(r))
      ensures end == ReadOn ==>
        myClients == old(myClients) && IsUnderWay(client, p0, all, ecs, if r.MessageRead? then i + 1 else i)
      ensures r.NoMore? ==> end == ReadOn && available < Wanted(myClients[client].State())
      ensures end != ReadOn ==>
        View() == all.0 && end == (if all.1 == ReadOn then Thrown else all.1) && (all.1 == ReadOn ==> p0.failed)
      ensures end == Thrown ==> client.rx.outstanding.None?
    {
      var messenger := myClients[client];
      end := ReadOn;
      r := messenger.Step(client.rx, available);
      match r {
        case BadHeader =>
          end := Thrown;
        case MessageRead(msg) =>
          TakeUpFirst(View(), client, msg, Parse(Header, client.rx.data).delivered, ecs, i);
          end := HandleAndResume(client, msg, streams, ecs(i));
        case _ =>
      }
    }

    /** The same for the service; a client that goes while its messages are read takes its reader along. */
    method OnIncomingData(client: BasicStreamTransport, dataLenInBuffer: nat, streams: Streams, ecs: nat -> Error)
      returns (bytesRead: nat, end: End)
      requires Valid() && client in myClients && myClients[client].Reading(client.rx)
      requires dataLenInBuffer == |client.rx.data|
      modifies this`myClients, this`myPendingCalls, streams, myClients[client], client.rx
      modifies client`myState, client`myListener, client`notes, client`written
      ensures Valid() && known == old(known)
      ensures
        var m := old(myClients[client]);
        var p := Parse(old(m.State()), old(client.rx.data));
        var (s1, e) := TakeUpAll(old(View()), client, p.delivered, ecs, 0);
        && View() == s1 && end == (if e == ReadOn && p.failed then Thrown else e)
        && (end == ReadOn ==>
              && myClients == old(myClients) && m.Reading(client.rx) && m.State() == p.state
              && client.rx.data == p.rest && bytesRead + |p.rest| == dataLenInBuffer)
        && (end == Thrown ==> client.rx.outstanding.None?)
    {
      var hasMoreData, i := true, 0;
      ghost var p0 := Parse(myClients[client].State(), client.rx.data);
      ghost var all := TakeUpAll(View(), client, p0.delivered, ecs, 0);
      bytesRead, end := 0, ReadOn;
      while hasMoreData
        invariant known == old(known) && myClients == old(myClients) && IsUnderWay(client, p0, all, ecs, i)
        invariant bytesRead + |client.rx.data| == dataLenInBuffer && end == ReadOn
        invariant !hasMoreData ==> |client.rx.data| < Wanted(myClients[client].State())
        decreases dataLenInBuffer - bytesRead, hasMoreData
      {
        var r;
        r, end := ReadRound(client, dataLenInBuffer - bytesRead, streams, ecs, i, p0, all);
        if end != ReadOn {
          return;
        }
        bytesRead := bytesRead + Taken(r);
        i := if r.MessageRead? then i + 1 else i;
        hasMoreData := !r.NoMore?;
      }
    }

    /**
     * What a service closure does when service code calls it with the result `r`.  A result that is too long
     * to be written leaves the call pending.
     */
    method SendResult(client: BasicStreamTransport, name: Bytes, r: Result, streams: Streams, ec: Error)
      returns (outcome: Attempt<ServiceModel.AnswerOutcome>)
      requires Valid() && client in known
      modifies this`myClients, this`myPendingCalls, streams
      modifies client`myState, client`myListener, client`notes, client`written
      ensures Valid() && known == old(known)
      ensures outcome.TooLong? <==>
        (name, client) in old(View()).pending && client in old(myClients) && !CanWrite(ResultMsg(name, r))
      ensures
        if outcome.TooLong? then View() == old(View())
        else (View(), outcome.value) == ServiceModel.SendResult(old(View()), client, name, ec.code == 0)
      ensures client.written ==
        if outcome == Done(ServiceModel.ResultSent) then old(client.written) + Frame(EncodeMsg(ResultMsg(name, r)))
        else old(client.written)
      ensures client.notes ==
        if outcome == Done(ServiceModel.SendFailed) then old(client.notes) + [Disconnected] else old(client.notes)
    {
      var resultMsg := streams.SerializeCallResult(name, r);
      var i := FindPendingCall(name, client);
      if i < 0 {
        outcome := Done(ServiceModel.AlreadyDelivered);
        return;
      }
      if client in myClients {
        var tooLong := WriteToClient(client, resultMsg, ResultMsg(name, r), ec);
        if tooLong {
          return TooLong;
        }
        outcome := Done(if ec.code == 0 then ServiceModel.ResultSent else ServiceModel.SendFailed);
      } else {
        outcome := Done(ServiceModel.ResultDropped);
      }
      ErasePendingCall(i);
    }

    /** Closing the transport of a client comes back as OnDisconnected, which takes it off the map. */
    method CloseClient(t: BasicStreamTransport)
      requires Valid() && t in myClients
      modifies this`myClients, t`myState, t`myListener, t`notes
      ensures Valid() && myClients == old(myClients) - {t}
      ensures t.GoneSince(old(t.notes))
    {
      t.Close();
    }

    /** Does nothing unless the acceptor is open; then no client is left, and each was told once. */
    method Stop()
      requires Valid()
      modifies this`acceptorIsOpen, this`myClients
      modifies myClients.Keys`myState, myClients.Keys`myListener, myClients.Keys`notes
      ensures Valid() && !acceptorIsOpen
      ensures myClients == if old(acceptorIsOpen) then map[] else old(myClients)
      ensures forall t | t in old(myClients) && t !in myClients :: t.GoneSince(old(t.notes))
    {
      if acceptorIsOpen {
        acceptorIsOpen := false;
        CloseClients();
      }
    }

    /** Part of the clients is closed: those that are not are as they were. */
    ghost predicate PartlyClosed(before: map<BasicStreamTransport, seq<Note>>)
      reads this, known, before.Keys
    {
      && Valid() && myClients.Keys <= before.Keys
      && forall t | t in before :: if t in myClients then t.notes == before[t] else t.GoneSince(before[t])
    }

    method CloseClients()
      requires Valid()
      modifies this`myClients, myClients.Keys`myState, myClients.Keys`myListener, myClients.Keys`notes
      ensures Valid() && myClients == map[]
      ensures forall t | t in old(myClients) :: t.GoneSince(old(t.notes))
    {
      ghost var before := map t | t in myClients :: t.notes;
      while myClients.Keys != {}
        invariant PartlyClosed(before)
        decreases myClients.Keys
      {
        var t :| t in myClients.Keys;
        CloseOne(t, before);
      }
    }

    method CloseOne(t: BasicStreamTransport, ghost before: map<BasicStreamTransport, seq<Note>>)
      requires PartlyClosed(before) && t in myClients
      modifies this`myClients, t`myState, t`myListener, t`notes
      ensures PartlyClosed(before) && myClients == old(myClients) - {t}
    {
      CloseClient(t);
    }

    /** All clients but those in `rest` were written the message. */
    ghost predicate PartlyWritten(before: map<BasicStreamTransport, (Bytes, seq<Note>)>,
                                  rest: set<BasicStreamTransport>, m: Msg)
      reads this, known, before.Keys
    {
      && Valid() && rest <= myClients.Keys == before.Keys
      && forall t | t in before ::
           t.written == before[t].0 + (if t in rest then [] else Frame(EncodeMsg(m))) && t.notes == before[t].1
    }

    /** Every connected client is written the event once; the writes are assumed to succeed. */
    method Broadcast(ev: Value, streams: Streams) returns (tooLong: bool)
      requires Valid()
      modifies this`myClients, streams
      modifies myClients.Keys`myState, myClients.Keys`myListener, myClients.Keys`notes, myClients.Keys`written
      ensures Valid() && myClients == old(myClients)
      ensures tooLong <==> myClients.Keys != {} && !CanWrite(EventMsg(myFuncPrefix, ev))
      ensures forall t | t in myClients ::
        && t.written == old(t.written) + (if tooLong then [] else Frame(EncodeMsg(EventMsg(myFuncPrefix, ev))))
        && t.notes == old(t.notes)
    {
      ghost var before := map t | t in myClients :: (t.written, t.notes);
      var rest := myClients.Keys;
      while rest != {}
        invariant PartlyWritten(before, rest, EventMsg(myFuncPrefix, ev)) && myClients == old(myClients)
        invariant rest != myClients.Keys ==> CanWrite(EventMsg(myFuncPrefix, ev))
        decreases rest
      {
        var t :| t in rest;
        tooLong := BroadcastTo(t, ev, streams, before, rest);
        if tooLong {
          return;
        }
        rest := rest - {t};
      }
      tooLong := false;
    }

    method BroadcastTo(t: BasicStreamTransport, ev: Value, streams: Streams,
                       ghost before: map<BasicStreamTransport, (Bytes, seq<Note>)>,
                       ghost rest: set<BasicStreamTransport>)
      returns (tooLong: bool)
      requires PartlyWritten(before, rest, EventMsg(myFuncPrefix, ev)) && t in rest
      modifies this`myClients, streams, t`myState, t`myListener, t`notes, t`written
      ensures PartlyWritten(before, if tooLong then rest else rest - {t}, EventMsg(myFuncPrefix, ev))
      ensures myClients == old(myClients)
      ensures tooLong <==> !CanWrite(EventMsg(myFuncPrefix, ev))
    {
      var msg := streams.SerializeEvent(FullName(myFuncPrefix, BROADCAST_EVENT), ev);
      tooLong := WriteToClient(t, msg, EventMsg(myFuncPrefix, ev), NO_ERROR);
    }
  }

  const PLACEHOLDER: Bytes := "placeholder"

  lemma FailAllNext(closures: map<Bytes, Closure>, order: seq<Bytes>, done: set<Bytes>, archive: Bytes, name: Bytes)
    requires ClientModel.IsOrder(order, done) && done <= closures.Keys && name in closures && name !in done
    ensures ClientModel.IsOrder(order + [name], done + {name})
    ensures ClientModel.FailAll(closures, order + [name], archive) == ClientModel.FailAll(closures, order, archive)
         + if name == [] then [] else [Named(name, ClientModel.Invocation(closures[name], archive))]
  {
    assert (order + [name])[..|order|] == order;
  }

  class Client {
    const limit: nat                  // MaxCallsInProgress
    const myFuncPrefix: Bytes
    const myTransport: BasicStreamTransport
    const myMessenger: Messenger
    const myCallQueue: CallQueue
    const streams: Streams
    var myClosures: map<Bytes, Closure>
    var myEventListeners: seq<nat>

    // What happened so far, as in ClientState.
    ghost var accepted: seq<Named<Call>>
    ghost var sent: seq<Msg>
    ghost var invoked: seq<Named<ClientModel.Invocation>>
    ghost var failed: seq<Named<ClientModel.Invocation>>
    ghost var lost: seq<Named<ClientModel.Invocation>>
    ghost var refused: seq<Named<(Closure, Error)>>
    ghost var events: seq<Bytes>
    /** Which listener was handed which event. */
    ghost var notified: seq<(nat, Bytes)>

    ghost function View(): ClientModel.ClientState
      reads this, myTransport, myCallQueue
    {
      ClientModel.ClientState(limit, myTransport.myState, myClosures, myCallQueue.myQueueMap,
                              accepted, sent, invoked, failed, lost, refused, events)
    }

    /** The bytes on the wire are the frames of the messages sent. */
    ghost predicate Valid()
      reads this, myTransport, myCallQueue
    {
      && 0 < limit == myCallQueue.limit + 1 && myFuncPrefix != []
      && myTransport.myListener == ClientListener(this)
      && myTransport.written == Stream(Payloads(sent))
    }

    constructor (t: BasicStreamTransport, limit: nat, prefix: Bytes)
      requires t.myState == NEW && t.written == [] && 0 < limit && prefix != []
      modifies t`myListener
      ensures Valid() && View() == ClientModel.Start(limit)
      ensures myTransport == t && myFuncPrefix == prefix && fresh(myCallQueue) && fresh(streams)
      ensures fresh(myMessenger) && myMessenger.State() == Header
      ensures myEventListeners == [] && notified == []
    {
      this.limit, myFuncPrefix, myTransport := limit, prefix, t;
      myMessenger := new Messenger();
      myCallQueue := new CallQueue(limit - 1);
      streams := new Streams();
      myClosures, myEventListeners := map[], [];
      accepted, sent, invoked, failed, lost, refused, events, notified := [], [], [], [], [], [], [], [];
      new;
      t.myListener := ClientListener(this);
    }

    method AddListener(l: nat)
      modifies this`myEventListeners
      ensures myEventListeners == old(myEventListeners) + [l]
    {
      myEventListeners := myEventListeners + [l];
    }

    /** Writes the message and records it if that succeeded. */
    method WriteMsg(msg: Bytes, ghost m: Msg, ec: Error) returns (result: Attempt<Error>)
      requires Valid() && msg == HEADER_PLACE + EncodeMsg(m)
      modifies this`sent, myTransport
      ensures Valid() && (result.TooLong? <==> !CanWrite(m))
      ensures
        if result.TooLong? then View() == old(View())
        else (View(), result.value) == ClientModel.Write(old(View()), m, ec)
    {
      result := WriteMessageWithHeader(myTransport, msg, ec);
      if result.Done? && result.value.code == 0 {
        WriteAppends(sent, m);
        assert msg[HEADER_SIZE..] == EncodeMsg(m);
        sent := sent + [m];
      }
    }

    method SendCall(func: Bytes, args: seq<Value>, closure: Closure, ec: Error)
      returns (outcome: ClientModel.SendOutcome)
      requires Valid()
      modifies this, myTransport, myCallQueue, streams
      ensures Valid() && myEventListeners == old(myEventListeners) && notified == old(notified)
      ensures (View(), outcome) ==
        ClientModel.SendCall(old(View()), FullName(myFuncPrefix, func), Call(EncodeAll(args), closure), ec)
    {
      if myTransport.myState != OPEN {
        return ClientModel.NotOpen;
      }
      var name := FullName(myFuncPrefix, func);
      var msg := streams.SerializeCall(name, args);
      ghost var call := Named(name, Call(EncodeAll(args), closure));
      if name !in myClosures {
        var result := WriteMsg(msg, CallMsg(name, args), ec);
        if result.TooLong? {
          return ClientModel.CallTooLong;
        }
        if result.value.code != 0 {
          refused := refused + [Named(name, (closure, result.value))];
          outcome := ClientModel.WriteFailed;
        } else {
          myClosures := myClosures[name := closure];
          accepted := accepted + [call];
          outcome := ClientModel.Written;
        }
      } else {
        var can := myCallQueue.CanEnqueue(name);
        if can {
          myCallQueue.EnqueueCall(name, Call(EncodeAll(args), closure));
          accepted := accepted + [call];
          outcome := ClientModel.Enqueued;
        } else {
          outcome := ClientModel.LimitExceeded;
        }
      }
    }

    method SendOneWay(func: Bytes, args: seq<Value>, ec: Error) returns (outcome: ClientModel.SendOutcome)
      requires Valid()
      modifies this`sent, myTransport, streams
      ensures Valid()
      ensures (View(), outcome) ==
        ClientModel.SendOneWay(old(View()), FullName(myFuncPrefix, func), EncodeAll(args), ec)
    {
      if myTransport.myState != OPEN {
        return ClientModel.NotOpen;
      }
      var name := FullName(myFuncPrefix, func);
      var msg := streams.SerializeCall(name, args);
      var result := WriteMsg(msg, CallMsg(name, args), ec);
      if result.TooLong? {
        return ClientModel.CallTooLong;
      }
      outcome := if result.value.code != 0 then ClientModel.WriteFailed else ClientModel.Written;
    }

    /**
     * The action of a queued call: its message is written, and its closure awaits the result.  A message that
     * is too long ends it with an exception, before the call leaves the queue.
     */
    method SendNext(name: Bytes, ec: Error) returns (tooLong: bool)
      requires Valid() && QueueOf(myCallQueue.myQueueMap, name) != []
      modifies this`myClosures, this`sent, myTransport, myCallQueue
      ensures Valid() && (tooLong <==> !ClientModel.NextFits(old(View()), name))
      ensures View() == if tooLong then old(View()) else ClientModel.SendNext(old(View()), name, ec)
    {
      var call := myCallQueue.myQueueMap[name][0];
      var result := WriteMsg(HEADER_PLACE + EncodeMsg(Named(name, call.args)), Named(name, call.args), ec);
      if result.TooLong? {
        return true;
      }
      myClosures := myClosures[name := call.closure];
      var _ := myCallQueue.DequeueCall(name);
      return false;
    }

    /** The exception of SendNext leaves no trace of the closure, which the code drops without running it. */
    method DispatchResult(name: Bytes, archive: Bytes, ec: Error) returns (outcome: ClientModel.Dispatched)
      requires Valid()
      modifies this`myClosures, this`sent, this`invoked, this`lost, myTransport, myCallQueue
      ensures Valid()
      ensures (View(), outcome) == ClientModel.DispatchResult(old(View()), name, archive, ec)
    {
      if name !in myClosures {
        return ClientModel.NotAwaited;
      }
      var closure := myClosures[name];
      myClosures := myClosures - {name};
      var waiting := myCallQueue.IsEnqueued(name);
      if waiting {
        var tooLong := SendNext(name, ec);
        if tooLong {
          lost := lost + [Named(name, ClientModel.Invocation(closure, archive))];
          return ClientModel.Lost;
        }
      }
      invoked := invoked + [Named(name, ClientModel.Invocation(closure, archive))];
      return ClientModel.Ran;
    }

    /** Every listener is handed the event, in the order in which the listeners were added. */
    method DispatchEvent(archive: Bytes)
      requires Valid()
      modifies this`events, this`notified
      ensures Valid() && View() == old(View()).(events := old(events) + [archive])
      ensures |notified| == |old(notified)| + |myEventListeners| && old(notified) <= notified
      ensures forall i | 0 <= i < |myEventListeners| :: notified[|old(notified)| + i] == (myEventListeners[i], archive)
    {
      events := events + [archive];
      var i := 0;
      while i < |myEventListeners|
        invariant 0 <= i <= |myEventListeners|
        invariant events == old(events) + [archive]
        invariant |notified| == |old(notified)| + i && old(notified) <= notified
        invariant forall j | 0 <= j < i :: notified[|old(notified)| + j] == (myEventListeners[j], archive)
      {
        notified := notified + [(myEventListeners[i], archive)];
        i := i + 1;
      }
    }

    /** The handler of the client's messages.  None: the message could not be read. */
    method HandleMessage(msg: Bytes, ec: Error) returns (handled: Option<ClientModel.Dispatched>)
      requires Valid()
      modifies this`myClosures, this`sent, this`invoked, this`lost, this`events, this`notified
      modifies myTransport, myCallQueue, streams
      ensures Valid() && (handled.Some? <==> DecodeMsg(msg).Some?)
      ensures if handled.None? then View() == old(View())
              else
                var m := DecodeMsg(msg).value;
                (View(), handled.value) ==
                  ClientModel.HandleMessage(old(View()), FullName(myFuncPrefix, BROADCAST_EVENT), m, ec)
    {
      var name := streams.DeserializeCall(msg);
      if name.None? {
        return None;
      }
      if name.value == FullName(myFuncPrefix, BROADCAST_EVENT) {
        DispatchEvent(streams.inStream);
        return Some(ClientModel.Ran);
      }
      var outcome := DispatchResult(name.value, streams.inStream, ec);
      return Some(outcome);
    }

    /** Of data that parses as `p0` and leads to `all`, so many messages were handled; the rest is to come. */
    ghost predicate IsUnderWay(p0: Parsed, all: (ClientModel.ClientState, bool), ecs: nat -> Error, i: nat)
      reads this, myTransport, myTransport.rx, myCallQueue, myMessenger
    {
      && Valid() && myMessenger.Reading(myTransport.rx)
      && var p := Parse(myMessenger.State(), myTransport.rx.data);
         && p0.state == p.state && p0.rest == p.rest && p0.failed == p.failed
         && all == HandleAll(View(), FullName(myFuncPrefix, BROADCAST_EVENT), p.delivered, ecs, i)
    }

    /** One round of the read loop, the handler of the message included. */
    method ReadRound(available: nat, ecs: nat -> Error, i: nat,
                     ghost p0: Parsed, ghost all: (ClientModel.ClientState, bool)) returns (r: ReadStep, failed: bool)
      requires IsUnderWay(p0, all, ecs, i) && available == |myTransport.rx.data|
      modifies this`myClosures, this`sent, this`invoked, this`lost, this`events, this`notified
      modifies myTransport, myTransport.rx, myCallQueue, streams, myMessenger
      ensures Valid() && |myTransport.rx.data| + Taken(r) == available && (r.NoMore? || 0 < Taken(r))
      ensures !failed ==> IsUnderWay(p0, all, ecs, if r.MessageRead? then i + 1 else i)
      ensures r.NoMore? ==> !failed && available < Wanted(myMessenger.State())
      ensures failed ==> myTransport.rx.outstanding.None? && View() == all.0 && (all.1 || p0.failed)
    {
      failed := false;
      r := myMessenger.Step(myTransport.rx, available);
      match r {
        case BadHeader =>
          failed := true;
        case MessageRead(msg) =>
          var handled := HandleMessage(msg, ecs(i));
          if handled != Some(ClientModel.Ran) {
            failed := true;
          } else {
            myMessenger.Resume(myTransport.rx);
          }
        case _ =>
      }
    }

    /**
     * Reads what is available, and handles each message as it is read.  `failed` is an exception, of the
     * framing or of a message: it leaves the loop with no read in progress.
     */
    method OnIncomingData(dataLenInBuffer: nat, ecs: nat -> Error) returns (bytesRead: nat, failed: bool)
      requires Valid() && myMessenger.Reading(myTransport.rx) && dataLenInBuffer == |myTransport.rx.data|
      modifies this`myClosures, this`sent, this`invoked, this`lost, this`events, this`notified
      modifies myTransport, myTransport.rx, myCallQueue, streams, myMessenger
      ensures Valid()
      ensures
        var p := Parse(old(myMessenger.State()), old(myTransport.rx.data));
        var broadcast := FullName(myFuncPrefix, BROADCAST_EVENT);
        var (s1, thrown) := HandleAll(old(View()), broadcast, p.delivered, ecs, 0);
        && View() == s1 && failed == (thrown || p.failed)
        && (!failed ==>
              && myMessenger.Reading(myTransport.rx) && myMessenger.State() == p.state
              && myTransport.rx.data == p.rest && bytesRead + |p.rest| == dataLenInBuffer)
        && (failed ==> myTransport.rx.outstanding.None?)
    {
      var hasMoreData, i := true, 0;
      ghost var p0 := Parse(myMessenger.State(), myTransport.rx.data);
      ghost var all := HandleAll(View(), FullName(myFuncPrefix, BROADCAST_EVENT), p0.delivered, ecs, 0);
      bytesRead, failed := 0, false;
      while hasMoreData
        invariant IsUnderWay(p0, all, ecs, i) && bytesRead + |myTransport.rx.data| == dataLenInBuffer
        invariant !hasMoreData ==> |myTransport.rx.data| < Wanted(myMessenger.State())
        decreases dataLenInBuffer - bytesRead, hasMoreData
      {
        var r;
        r, failed := ReadRound(dataLenInBuffer - bytesRead, ecs, i, p0, all);
        if failed {
          return;
        }
        bytesRead := bytesRead + Taken(r);
        i := if r.MessageRead? then i + 1 else i;
        hasMoreData := !r.NoMore?;
      }
    }

    /**
     * Every closure in flight is run on one archive that holds the error as a Result<void>; `order` is the
     * order in which the map happens to be walked.
     */
    method OnConnectionError(e: Error) returns (ghost order: seq<Bytes>)
      requires Valid()
      modifies this`myClosures, this`failed, streams
      ensures Valid() && ClientModel.IsOrder(order, old(myClosures).Keys)
      ensures View() == ClientModel.ConnectionError(old(View()), EncodeResult(Result(e, None)), order)
    {
      var errCallResMsg := streams.SerializeCallResult(PLACEHOLDER, Result(e, None));
      errCallResMsg := StripHeader(errCallResMsg);
      MsgRoundTrip(ResultMsg(PLACEHOLDER, Result(e, None)), errCallResMsg);
      order := FailClosures(errCallResMsg, EncodeResult(Result(e, None)));
      myClosures := map[];
    }

    method FailClosures(errorMsg: Bytes, ghost archive: Bytes) returns (ghost order: seq<Bytes>)
      requires DecodeMsg(errorMsg) == Some(Named(PLACEHOLDER, archive))
      modifies this`failed, streams
      ensures ClientModel.IsOrder(order, myClosures.Keys)
      ensures failed == old(failed) + ClientModel.FailAll(myClosures, order, archive)
    {
      order := [];
      var rest := myClosures.Keys;
      while rest != {}
        invariant rest <= myClosures.Keys
        invariant ClientModel.IsOrder(order, myClosures.Keys - rest)
        invariant failed == old(failed) + ClientModel.FailAll(myClosures, order, archive)
        decreases rest
      {
        var name :| name in rest;
        FailOne(name, errorMsg, archive);
        FailAllNext(myClosures, order, myClosures.Keys - rest, archive, name);
        assert myClosures.Keys - (rest - {name}) == (myClosures.Keys - rest) + {name};
        order := order + [name];
        rest := rest - {name};
      }
    }

    method FailOne(name: Bytes, errorMsg: Bytes, ghost archive: Bytes)
      requires name in myClosures && DecodeMsg(errorMsg) == Some(Named(PLACEHOLDER, archive))
      modifies this`failed, streams
      ensures failed == old(failed) +
        if name == [] then [] else [Named(name, ClientModel.Invocation(myClosures[name], archive))]
    {
      if name != [] {
        var read := streams.DeserializeCall(errorMsg);
        failed := failed + [Named(name, ClientModel.Invocation(myClosures[name], streams.inStream))];
      }
    }

    /** The connection is made: the client starts to read. */
    method OnConnected()
      requires Valid() && myMessenger.State() == Header && myTransport.rx.outstanding.None?
      modifies myTransport.rx`outstanding
      ensures myMessenger.Reading(myTransport.rx)
    {
      myMessenger.InitTransport(myTransport.rx);
    }

    /** All that follows when a read of the client completes: its messages are handled, or the error is. */
    method HandleRecv(ec: Error, bytesTransferred: nat, ecs: nat -> Error)
      returns (failed: bool, ghost order: seq<Bytes>)
      requires Valid() && myMessenger.Reading(myTransport.rx)
      requires ec.code == 0 ==> bytesTransferred == |myTransport.rx.data|
      modifies this`myClosures, this`sent, this`invoked, this`failed, this`lost, this`events, this`notified
      modifies myTransport, myTransport.rx, myCallQueue, streams, myMessenger
      ensures Valid()
      ensures ec.code == 0 ==>
        var p := Parse(old(myMessenger.State()), old(myTransport.rx.data));
        var broadcast := FullName(myFuncPrefix, BROADCAST_EVENT);
        var (s1, thrown) := HandleAll(old(View()), broadcast, p.delivered, ecs, 0);
        View() == s1 && failed == (thrown || p.failed) && (failed <==> !myMessenger.Reading(myTransport.rx))
      ensures ec.code != 0 ==>
        && ClientModel.IsOrder(order, old(myClosures).Keys) && !myMessenger.Reading(myTransport.rx)
        && View() == ClientModel.ReadFailed(old(View()), ec, order)
    {
      failed := false;
      order := myTransport.HandleRecv(ec, bytesTransferred);
      if ec.code == 0 {
        var _, thrown := OnIncomingData(bytesTransferred, ecs);
        failed := thrown;
      }
    }

    method Close()
      requires Valid()
      modifies myTransport`myState, myTransport`myListener, myTransport`notes
      ensures Valid() && View() == ClientModel.Close(old(View()))
      ensures myTransport.notes
           == old(myTransport.notes) + if old(myTransport.myState) == OPEN then [Disconnected] else []
    {
      myTransport.Close();
    }
  }
}
