/** Length-prefixed framing: the byte stream of a sequence of messages, and its incremental parser. */
module Framing {
  import opened ByteStrings
  import opened Serialization

  const MAX_SIZE := 0xffff_ffff

  /** A message the header can announce and the receiver accepts. */
  predicate IsPayload(p: Bytes) {
    0 < |p| <= MAX_SIZE
  }

  function Frame(p: Bytes): Bytes {
    NatToBytes(|p|, HEADER_SIZE) + p
  }

  function Stream(ps: seq<Bytes>): Bytes {
    if ps == [] then [] else Frame(ps[0]) + Stream(ps[1..])
  }

  /** What the receiver waits for: a header, or a message of the announced (positive) size. */
  datatype Awaits = Header | Message(size: nat)

  predicate IsState(st: Awaits) {
    st.Message? ==> 0 < st.size
  }

  function Wanted(st: Awaits): nat {
    match st case Header => HEADER_SIZE case Message(size) => size
  }

  /** Where the receiver stands, what its handler was given so far and the bytes not read yet. */
  datatype Parsed = Parsed(state: Awaits, delivered: seq<Bytes>, rest: Bytes, failed: bool)

  const START := Parsed(Header, [], [], false)

  function After(delivered: seq<Bytes>, p: Parsed): Parsed {
    p.(delivered := delivered + p.delivered)
  }

  /** All that can be read of `data`; a zero length in a header ends it with an exception. */
  function Parse(st: Awaits, data: Bytes): (p: Parsed)
    requires IsState(st)
    ensures IsState(p.state) && |p.rest| <= |data|
    ensures !p.failed ==> |p.rest| < Wanted(p.state)
    decreases |data|
  {
    if |data| < Wanted(st) then Parsed(st, [], data, false)
    else
      match st
      case Header =>
        var size := BytesToNat(data[..HEADER_SIZE]);
        if size == 0 then Parsed(Header, [], data[HEADER_SIZE..], true)
        else Parse(Message(size), data[HEADER_SIZE..])
      case Message(size) =>
        After([data[..size]], Parse(Header, data[size..]))
  }

  /** More bytes arrive. */
  function Feed(p: Parsed, chunk: Bytes): Parsed
    requires IsState(p.state)
  {
    if p.failed then p.(rest := p.rest + chunk) else After(p.delivered, Parse(p.state, p.rest + chunk))
  }

  function FeedAll(p: Parsed, chunks: seq<Bytes>): Parsed
    requires IsState(p.state)
    decreases |chunks|
  {
    if chunks == [] then p else FeedAll(Feed(p, chunks[0]), chunks[1..])
  }

  function Concat(chunks: seq<Bytes>): Bytes {
    if chunks == [] then [] else chunks[0] + Concat(chunks[1..])
  }

  /** Reading the available bytes in one call or in two makes no difference. */
  lemma {:induction false} ParseInTwo(st: Awaits, a: Bytes, b: Bytes)
    requires IsState(st)
    ensures Parse(st, a + b) == Feed(Parse(st, a), b)
    decreases |a|
  {
    if |a| < Wanted(st) {
    } else {
      var n := Wanted(st);
      assert (a + b)[..n] == a[..n] && (a + b)[n..] == a[n..] + b;
      match st
      case Header =>
        var size := BytesToNat(a[..n]);
        if size != 0 {
          ParseInTwo(Message(size), a[n..], b);
        }
      case Message(size) =>
        ParseInTwo(Header, a[n..], b);
        var p := Parse(Header, a[n..]);
        Associate([a[..n]], p.delivered, Parse(p.state, p.rest + b).delivered);
    }
  }

  lemma FeedInTwo(p: Parsed, a: Bytes, b: Bytes)
    requires IsState(p.state)
    ensures Feed(Feed(p, a), b) == Feed(p, a + b)
  {
    Associate(p.rest, a, b);
    if !p.failed {
      ParseInTwo(p.state, p.rest + a, b);
      var q := Parse(p.state, p.rest + a);
      if !q.failed {
        var r := Parse(q.state, q.rest + b);
        Associate(p.delivered, q.delivered, r.delivered);
      }
    }
  }

  /** However the stream is cut, the receiver ends in the same state with the same messages delivered. */
  lemma {:induction false} AnySegmentation(p: Parsed, chunks: seq<Bytes>)
    requires IsState(p.state) && (!p.failed ==> |p.rest| < Wanted(p.state))
    ensures FeedAll(p, chunks) == Feed(p, Concat(chunks))
    decreases |chunks|
  {
    if chunks == [] {
      assert p.rest + [] == p.rest && p.delivered + [] == p.delivered;
    } else {
      AnySegmentation(Feed(p, chunks[0]), chunks[1..]);
      FeedInTwo(p, chunks[0], Concat(chunks[1..]));
    }
  }

  lemma FrameIsRead(p: Bytes, more: Bytes)
    requires IsPayload(p)
    ensures Parse(Header, Frame(p) + more) == After([p], Parse(Header, more))
  {
    Pow256Values();
    NatRoundTrip(|p|, HEADER_SIZE);
    var data := Frame(p) + more;
    assert data[..HEADER_SIZE] == NatToBytes(|p|, HEADER_SIZE);
    assert data[HEADER_SIZE..] == p + more;
    assert (p + more)[..|p|] == p && (p + more)[|p|..] == more;
  }

  lemma {:induction false} StreamIsRead(ps: seq<Bytes>)
    requires forall p | p in ps :: IsPayload(p)
    ensures Parse(Header, Stream(ps)) == Parsed(Header, ps, [], false)
  {
    if ps != [] {
      FrameIsRead(ps[0], Stream(ps[1..]));
      StreamIsRead(ps[1..]);
      assert ps == [ps[0]] + ps[1..];
    }
  }

  lemma {:induction false} StreamConcat(a: seq<Bytes>, b: seq<Bytes>)
    ensures Stream(a + b) == Stream(a) + Stream(b)
  {
    if a == [] {
      assert a + b == b;
    } else {
      StreamConcat(a[1..], b);
      assert (a + b)[1..] == a[1..] + b;
    }
  }

  /** The longest message is the longest that four bytes can announce. */
  lemma HeaderHolds(p: Bytes)
    ensures BytesToNat(Frame(p)[..HEADER_SIZE]) == |p| <==> |p| <= MAX_SIZE
  {
    Pow256Values();
    assert Frame(p)[..HEADER_SIZE] == NatToBytes(|p|, HEADER_SIZE);
    if |p| <= MAX_SIZE {
      NatRoundTrip(|p|, HEADER_SIZE);
    }
  }

  /** A message announced as empty is an exception: those before it are delivered, and nothing after it. */
  lemma {:induction false} EmptyMessageEnds(ps: seq<Bytes>, more: Bytes)
    requires forall p | p in ps :: IsPayload(p)
    ensures Parse(Header, Stream(ps) + (Frame([]) + more)) == Parsed(Header, ps, more, true)
  {
    if ps == [] {
      Pow256Values();
      NatRoundTrip(0, HEADER_SIZE);
      var data := Stream([]) + (Frame([]) + more);
      assert data[..HEADER_SIZE] == NatToBytes(0, HEADER_SIZE) && data[HEADER_SIZE..] == more;
    } else {
      EmptyMessageEnds(ps[1..], more);
      Associate(Frame(ps[0]), Stream(ps[1..]), Frame([]) + more);
      FrameIsRead(ps[0], Stream(ps[1..]) + (Frame([]) + more));
      assert ps == [ps[0]] + ps[1..];
    }
  }

  /** Of a stream of messages cut off anywhere, the messages delivered are a prefix. */
  lemma PrefixIsRead(ps: seq<Bytes>, got: Bytes)
    requires (forall p | p in ps :: IsPayload(p)) && got <= Stream(ps)
    ensures !Parse(Header, got).failed && Parse(Header, got).delivered <= ps
  {
    var missing := Stream(ps)[|got|..];
    StreamIsRead(ps);
    assert Stream(ps) == got + missing;
    ParseInTwo(Header, got, missing);
  }

  /**
   * The framing round trip.  Of the messages written, cut into any chunks and received up to any point,
   * the handler got a prefix, in order and unchanged; what is not delivered is less than one complete
   * header or message; and when everything was received, everything was delivered.
   */
  lemma FramingRoundTrip(ps: seq<Bytes>, chunks: seq<Bytes>)
    requires forall p | p in ps :: IsPayload(p)
    requires Concat(chunks) <= Stream(ps)
    ensures
      var p := FeedAll(START, chunks);
      && !p.failed
      && p.delivered <= ps
      && |p.rest| < Wanted(p.state)
      && (Concat(chunks) == Stream(ps) ==> p == Parsed(Header, ps, [], false))
  {
    var got := Concat(chunks);
    AnySegmentation(START, chunks);
    assert [] + got == got;
    assert FeedAll(START, chunks) == Parse(Header, got);
    PrefixIsRead(ps, got);
    StreamIsRead(ps);
  }
}

/** The receiving half of a transport, as its read and get_read_data functions promise it. */
module Messenger {
  import opened Wrappers
  import opened ByteStrings
  import opened Serialization
  import opened Framing

  class ReadChannel {
    /** Received and not handed out yet. */
    var data: Bytes
    /** The length of the read in progress, if there is one. */
    var outstanding: Option<nat>
    /** What the last completed read handed out. */
    var current: Bytes

    constructor ()
      ensures data == [] && outstanding.None?
    {
      data, outstanding, current := [], None, [];
    }

    /** Starts a read; two may not be in progress at a time. */
    method Read(len: nat)
      requires outstanding.None?
      modifies this`outstanding
      ensures outstanding == Some(len)
    {
      outstanding := Some(len);
    }

    /** Completes the read; asked again before the next one starts, it returns the same bytes. */
    method GetReadData() returns (b: Bytes)
      requires outstanding.Some? ==> outstanding.value <= |data|
      modifies this
      ensures outstanding.None? && b == current
      ensures match old(outstanding)
              case Some(n) => b == old(data)[..n] && data == old(data)[n..]
              case None => b == old(current) && data == old(data)
    {
      match outstanding {
        case Some(n) =>
          current, data, outstanding := data[..n], data[n..], None;
        case None =>
      }
      b := current;
    }

    /** The read completes with an error: nothing is handed out. */
    method Fail()
      modifies this`outstanding
      ensures outstanding.None?
    {
      outstanding := None;
    }

    method Receive(chunk: Bytes)
      modifies this`data
      ensures data == old(data) + chunk
    {
      data := data + chunk;
    }
  }

  datatype MsgRecvState = HEADER | MESSAGE

  datatype ReadStep = NoMore | HeaderRead | BadHeader | MessageRead(msg: Bytes)

  function Taken(r: ReadStep): nat {
    match r
    case NoMore => 0
    case MessageRead(msg) => |msg|
    case _ => HEADER_SIZE
  }

  class Messenger {
    var myReceiveState: MsgRecvState
    var myIncomingMsgSize: nat
    /** The messages the handler was called with. */
    ghost var handled: seq<Bytes>

    function State(): Awaits
      reads this
    {
      if myReceiveState == HEADER then Header else Message(myIncomingMsgSize)
    }

    /** Between two runs of Read exactly one read is in progress, for just what is awaited. */
    ghost predicate Reading(rx: ReadChannel)
      reads this, rx
    {
      IsState(State()) && rx.outstanding == Some(Wanted(State()))
    }

    constructor ()
      ensures State() == Header && handled == []
    {
      myReceiveState, myIncomingMsgSize, handled := HEADER, 0, [];
    }

    method InitTransport(rx: ReadChannel)
      requires State() == Header && rx.outstanding.None?
      modifies rx`outstanding
      ensures Reading(rx)
    {
      rx.Read(HEADER_SIZE);
    }

    /** One round of the read loop, up to the point where a message is handed to its handler. */
    method Step(rx: ReadChannel, available: nat) returns (r: ReadStep)
      requires Reading(rx) && available == |rx.data|
      modifies this`myReceiveState, this`myIncomingMsgSize, rx
      ensures match r
              case NoMore =>
                && Reading(rx) && State() == old(State()) && rx.data == old(rx.data)
                && available < Wanted(State())
              case HeaderRead =>
                && Reading(rx) && |rx.data| == available - HEADER_SIZE
                && Parse(old(State()), old(rx.data)) == Parse(State(), rx.data)
              case BadHeader =>
                && State() == Header && rx.outstanding.None? && |rx.data| == available - HEADER_SIZE
                && Parse(old(State()), old(rx.data)) == Parsed(Header, [], rx.data, true)
              case MessageRead(msg) =>
                && rx.outstanding.None? && msg != [] && |rx.data| == available - |msg|
                && Parse(old(State()), old(rx.data)) == After([msg], Parse(Header, rx.data))
    {
      match myReceiveState {
        case HEADER =>
          if available < HEADER_SIZE {
            return NoMore;
          }
          var readData := rx.GetReadData();
          assert readData[..HEADER_SIZE] == readData;
          myIncomingMsgSize := BytesToNat(readData[..HEADER_SIZE]);
          if myIncomingMsgSize == 0 {
            return BadHeader;
          }
          myReceiveState := MESSAGE;
          rx.Read(myIncomingMsgSize);
          return HeaderRead;
        case MESSAGE =>
          if available < myIncomingMsgSize {
            return NoMore;
          }
          var msgData := rx.GetReadData();
          return MessageRead(msgData);
      }
    }

    /** After its handler returned: the next header is awaited. */
    method Resume(rx: ReadChannel)
      requires rx.outstanding.None?
      modifies this`myReceiveState, rx`outstanding
      ensures Reading(rx) && State() == Header
    {
      myReceiveState := HEADER;
      rx.Read(HEADER_SIZE);
    }

    /** Reads what is available.  `failed` is the exception of an announced length of 0. */
    method Read(rx: ReadChannel, dataLenInBuffer: nat) returns (bytesRead: nat, failed: bool)
      requires Reading(rx) && dataLenInBuffer == |rx.data|
      modifies this, rx
      ensures
        var p := Parse(old(State()), old(rx.data));
        && State() == p.state && handled == old(handled) + p.delivered
        && rx.data == p.rest && failed == p.failed
      ensures bytesRead + |rx.data| == dataLenInBuffer
      ensures !failed ==> Reading(rx)
    {
      var hasMoreData := true;
      bytesRead, failed := 0, false;
      ghost var done: seq<Bytes> := [];
      while hasMoreData
        invariant Reading(rx) && bytesRead + |rx.data| == dataLenInBuffer
        invariant handled == old(handled) + done
        invariant Parse(old(State()), old(rx.data)) == After(done, Parse(State(), rx.data))
        invariant !hasMoreData ==> |rx.data| < Wanted(State())
        decreases dataLenInBuffer - bytesRead, hasMoreData
      {
        var r := Step(rx, dataLenInBuffer - bytesRead);
        match r {
          case NoMore =>
            hasMoreData := false;
          case HeaderRead =>
            bytesRead := bytesRead + HEADER_SIZE;
          case BadHeader =>
            bytesRead := bytesRead + HEADER_SIZE;
            return bytesRead, true;
          case MessageRead(msg) =>
            handled := handled + [msg];
            bytesRead := bytesRead + |msg|;
            Associate(done, [msg], Parse(Header, rx.data).delivered);
            done := done + [msg];
            Resume(rx);
        }
      }
    }
  }

  /** Fills in the place that was reserved for the header.  false: the message is too long to announce. */
  method PutHeader(msg: array<Byte>) returns (ok: bool)
    requires HEADER_SIZE <= msg.Length
    modifies msg
    ensures ok <==> msg.Length <= MAX_SIZE - HEADER_SIZE
    ensures msg[..] == if ok then Frame(old(msg[HEADER_SIZE..])) else old(msg[..])
  {
    if msg.Length > MAX_SIZE - HEADER_SIZE {
      return false;
    }
    var header := NatToBytes(msg.Length - HEADER_SIZE, HEADER_SIZE);
    var i := 0;
    while i < HEADER_SIZE
      invariant 0 <= i <= HEADER_SIZE
      invariant msg[..i] == header[..i]
      invariant msg[HEADER_SIZE..] == old(msg[HEADER_SIZE..])
    {
      msg[i] := header[i];
      i := i + 1;
    }
    assert msg[..] == msg[..HEADER_SIZE] + msg[HEADER_SIZE..];
    return true;
  }

  function StripHeader(msg: Bytes): Bytes
    requires HEADER_SIZE <= |msg|
  {
    msg[HEADER_SIZE..]
  }
}
