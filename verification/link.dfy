/** A link of messages over a byte stream: what the queues `up` and `down` of the whole system stand for. */
module Link {
  import opened Wrappers
  import opened ByteStrings
  import opened Codec
  import opened Messages
  import opened Framing

  /** A message whose encoding the header can announce. */
  predicate Fits(m: Msg) {
    |EncodeMsg(m)| <= MAX_SIZE
  }

  function Payloads(ms: seq<Msg>): (ps: seq<Bytes>)
    ensures |ps| == |ms|
    ensures forall i | 0 <= i < |ms| :: ps[i] == EncodeMsg(ms[i])
  {
    seq(|ms|, i requires 0 <= i < |ms| => EncodeMsg(ms[i]))
  }

  /** What the message handler makes of the payloads it is called with; None when one has no name. */
  function Handled(ps: seq<Bytes>): (r: Option<seq<Msg>>)
    ensures r.Some? ==> |r.value| == |ps| && forall i | 0 <= i < |ps| :: DecodeMsg(ps[i]) == Some(r.value[i])
  {
    if ps == [] then Some([])
    else
      match (Handled(ps[..|ps| - 1]), DecodeMsg(ps[|ps| - 1]))
      case (Some(ms), Some(m)) => Some(ms + [m])
      case _ => None
  }

  lemma {:induction false} HandledPayloads(ms: seq<Msg>)
    requires forall m | m in ms :: Fits(m)
    ensures Handled(Payloads(ms)) == Some(ms)
  {
    if ms != [] {
      var before, m := ms[..|ms| - 1], ms[|ms| - 1];
      HandledPayloads(before);
      assert Payloads(ms)[..|ms| - 1] == Payloads(before);
      assert Fits(m);
      MsgRoundTrip(m, EncodeMsg(m));
      assert ms == before + [m];
    }
  }

  /**
   * Whatever was written to the stream and however it is cut on the way, the handler at the other end is
   * called with a prefix of the messages, each of them whole and in order, and with all of them once all
   * the bytes are there.
   */
  lemma LinkCarriesMessages(ms: seq<Msg>, chunks: seq<Bytes>)
    requires forall m | m in ms :: Fits(m)
    requires Concat(chunks) <= Stream(Payloads(ms))
    ensures
      var p := FeedAll(START, chunks);
      && !p.failed && |p.delivered| <= |ms|
      && Handled(p.delivered) == Some(ms[..|p.delivered|])
      && (Concat(chunks) == Stream(Payloads(ms)) ==> |p.delivered| == |ms| && p.rest == [] && p.state == Header)
  {
    var ps := Payloads(ms);
    forall p | p in ps
      ensures IsPayload(p)
    {
      var i :| 0 <= i < |ps| && ps[i] == p;
      assert Fits(ms[i]);
    }
    FramingRoundTrip(ps, chunks);
    var got := FeedAll(START, chunks).delivered;
    assert got == ps[..|got|] == Payloads(ms[..|got|]);
    HandledPayloads(ms[..|got|]);
  }

  /** Each write appends one frame to the stream. */
  lemma WriteAppends(ms: seq<Msg>, m: Msg)
    ensures Stream(Payloads(ms + [m])) == Stream(Payloads(ms)) + Frame(EncodeMsg(m))
  {
    assert Payloads(ms + [m]) == Payloads(ms) + [EncodeMsg(m)];
    StreamConcat(Payloads(ms), [EncodeMsg(m)]);
    assert [EncodeMsg(m)][1..] == [];
    assert Stream([EncodeMsg(m)]) == Frame(EncodeMsg(m)) + [];
  }
}
