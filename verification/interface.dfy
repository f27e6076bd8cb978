/** The functions of one interface, as client and service name them. */
module Interfaces {
  import opened Wrappers
  import opened ByteStrings
  import opened Codec
  import opened Results
  import opened Messages
  import opened Serialization
  import opened FunctionDictionary

  /** The name under which a function is called, and events are broadcast; the prefix ends in "::". */
  function FullName(prefix: Bytes, func: Bytes): (name: Bytes)
    ensures prefix <= name && name[|prefix|..] == func
  {
    prefix + func
  }

  const BROADCAST_EVENT: Bytes := "broadcast_event"

  /** Different functions have different names, and none but that one has the name of the events. */
  lemma FullNamesDiffer(prefix: Bytes, f: Bytes, g: Bytes)
    ensures FullName(prefix, f) == FullName(prefix, g) <==> f == g
    ensures f != BROADCAST_EVENT <==> FullName(prefix, f) != FullName(prefix, BROADCAST_EVENT)
    ensures prefix != [] ==> FullName(prefix, f) != []
  {
    assert FullName(prefix, f)[|prefix|..] == f && FullName(prefix, g)[|prefix|..] == g;
  }

  /** A function that the service adds to its dictionary. */
  datatype Function = Function(name: Bytes, oneWay: bool, params: seq<Param>)

  predicate AreSignatures(fs: seq<Function>) {
    forall f | f in fs :: IsSignature(f.oneWay, f.params)
  }

  /** The dictionary after these functions were added, in order. */
  function DictOf(prefix: Bytes, fs: seq<Function>): Dict
    requires AreSignatures(fs)
  {
    if fs == [] then map[]
    else
      var f := fs[|fs| - 1];
      DictOf(prefix, fs[..|fs| - 1])[FullName(prefix, f.name) := EntryOf(f.oneWay, f.params)]
  }

  /** Each name is registered to the last function that was added under it, and no other name is. */
  lemma {:induction false} DictFinds(prefix: Bytes, fs: seq<Function>, i: nat)
    requires AreSignatures(fs) && i < |fs| && forall j | i < j < |fs| :: fs[j].name != fs[i].name
    ensures FullName(prefix, fs[i].name) in DictOf(prefix, fs)
    ensures DictOf(prefix, fs)[FullName(prefix, fs[i].name)] == EntryOf(fs[i].oneWay, fs[i].params)
  {
    var last := |fs| - 1;
    if i < last {
      DictFinds(prefix, fs[..last], i);
      FullNamesDiffer(prefix, fs[i].name, fs[last].name);
    }
  }

  lemma {:induction false} DictOnly(prefix: Bytes, fs: seq<Function>, name: Bytes)
    requires AreSignatures(fs)
    ensures name in DictOf(prefix, fs) <==> exists i :: 0 <= i < |fs| && name == FullName(prefix, fs[i].name)
  {
    if fs != [] {
      var before, f := fs[..|fs| - 1], fs[|fs| - 1];
      DictOnly(prefix, before, name);
      if name in DictOf(prefix, before) {
        var i :| 0 <= i < |before| && name == FullName(prefix, before[i].name);
        assert fs[i] == before[i];
      }
      if exists i :: 0 <= i < |fs| && name == FullName(prefix, fs[i].name) {
        var i :| 0 <= i < |fs| && name == FullName(prefix, fs[i].name);
        assert i == |fs| - 1 || before[i] == fs[i];
      }
    }
  }

  /** Client and service agree on the names: events are not calls, whatever the functions are. */
  lemma EventsAreNoCalls(prefix: Bytes, fs: seq<Function>)
    requires AreSignatures(fs) && forall f | f in fs :: f.name != BROADCAST_EVENT
    ensures FullName(prefix, BROADCAST_EVENT) !in DictOf(prefix, fs)
    ensures prefix != [] ==> [] !in DictOf(prefix, fs)
  {
    DictOnly(prefix, fs, FullName(prefix, BROADCAST_EVENT));
    DictOnly(prefix, fs, []);
    forall i | 0 <= i < |fs|
      ensures FullName(prefix, fs[i].name) != FullName(prefix, BROADCAST_EVENT)
      ensures prefix != [] ==> FullName(prefix, fs[i].name) != []
    {
      assert fs[i] in fs;
      FullNamesDiffer(prefix, fs[i].name, BROADCAST_EVENT);
    }
  }

  /**
   * From the call of a function by its own name to the function of the service: the message that the client
   * makes of the name and the arguments calls the function that was last added under that name, with the
   * same arguments, and no other.
   */
  lemma CallReachesFunction(prefix: Bytes, fs: seq<Function>, i: nat, args: seq<Value>)
    requires AreSignatures(fs) && i < |fs| && forall j | i < j < |fs| :: fs[j].name != fs[i].name
    requires |FullName(prefix, fs[i].name)| < LENGTH_LIMIT
    requires
      var f := fs[i];
      HaveTypes(args, ArgTypes(if f.oneWay then f.params else f.params[..|f.params| - 1]))
    ensures
      var name, f := FullName(prefix, fs[i].name), fs[i];
      && DecodeMsg(EncodeMsg(CallMsg(name, args))) == Some(CallMsg(name, args))
      && CallOutcome(DictOf(prefix, fs), CallMsg(name, args)) == Called(name, args, EntryOf(f.oneWay, f.params))
  {
    assert fs[i] in fs;
    DictFinds(prefix, fs, i);
    CallRoundTrip(DictOf(prefix, fs), FullName(prefix, fs[i].name), fs[i].oneWay, fs[i].params, args);
  }

  /** The message of an event, under the name that the clients of the interface know. */
  function EventMsg(prefix: Bytes, ev: Value): Msg {
    Named(FullName(prefix, BROADCAST_EVENT), Encode(ev))
  }

  /**
   * The way back: the result message of a function carries its name, and the closure that awaits it reads
   * the result from the archive that is left; an event comes under no function's name, and unchanged.
   */
  lemma ResultReachesClosure(name: Bytes, r: Result, rt: ResultType)
    requires |name| < LENGTH_LIMIT && IsResult(r, rt)
    ensures
      var m := DecodeMsg(EncodeMsg(ResultMsg(name, r)));
      m.Some? && m.value.name == name && DecodeResult(rt, m.value.item) == Some((Received(r, rt), []))
  {
    MsgRoundTrip(ResultMsg(name, r), EncodeMsg(ResultMsg(name, r)));
    ResultRoundTrip(r, rt, []);
    assert EncodeResult(r) + [] == EncodeResult(r);
  }

  lemma EventReachesListeners(prefix: Bytes, ev: Value, ty: Ty)
    requires |prefix| + |BROADCAST_EVENT| < LENGTH_LIMIT && HasType(ev, ty)
    ensures
      var m := DecodeMsg(EncodeMsg(EventMsg(prefix, ev)));
      m.Some? && m.value.name == prefix + "broadcast_event" && Decode(ty, m.value.item) == Some((ev, []))
  {
    var name := FullName(prefix, BROADCAST_EVENT);
    assert name == name[..|prefix|] + name[|prefix|..];
    MsgRoundTrip(EventMsg(prefix, ev), EncodeMsg(EventMsg(prefix, ev)));
    RoundTrip(ev, ty, []);
    assert Encode(ev) + [] == Encode(ev);
  }
}
