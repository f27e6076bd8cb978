/** Results and errors as they travel between a service closure and a client closure. */
module Results {
  import opened Wrappers
  import opened ByteStrings
  import opened Codec

  datatype Error = Error(code: int, message: Bytes)

  const NO_ERROR := Error(0, [])

  /** The T of Closure<T> and Result<T>; None is void. */
  type ResultType = Option<Ty>

  /** A Result<T>: without a value exactly when T is void. */
  datatype Result = Result(error: Error, value: Option<Value>)

  predicate IsError(e: Error) {
    INT_MIN <= e.code <= INT_MAX && |e.message| < LENGTH_LIMIT
  }

  predicate IsResult(r: Result, rt: ResultType) {
    && IsError(r.error)
    && match (r.value, rt)
       case (None, None) => true
       case (Some(v), Some(ty)) => HasType(v, ty)
       case _ => false
  }

  function DefaultValue(rt: ResultType): Option<Value> {
    match rt case None => None case Some(ty) => Some(Default(ty))
  }

  function EncodeError(e: Error): Bytes {
    EncodeInt(e.code) + EncodeString(e.message)
  }

  /** The value is written only when there is no error. */
  function EncodeResult(r: Result): Bytes {
    EncodeError(r.error) + if r.error.code == 0 && r.value.Some? then Encode(r.value.value) else []
  }

  function DecodeError(b: Bytes): Option<(Error, Bytes)> {
    match DecodeInt(b)
    case None => None
    case Some((code, rest)) =>
      match DecodeString(rest)
      case None => None
      case Some((message, last)) => Some((Error(code, message), last))
  }

  function DecodeResult(rt: ResultType, b: Bytes): Option<(Result, Bytes)> {
    match DecodeError(b)
    case None => None
    case Some((e, rest)) =>
      if rt.None? || e.code != 0 then Some((Result(e, DefaultValue(rt)), rest))
      else
        match Decode(rt.value, rest)
        case None => None
        case Some((v, last)) => Some((Result(e, Some(v)), last))
  }

  /** What the receiver of `r` sees: the value beside an error does not travel. */
  function Received(r: Result, rt: ResultType): Result {
    if r.error.code == 0 then r else Result(r.error, DefaultValue(rt))
  }

  lemma ErrorRoundTrip(e: Error, rest: Bytes)
    requires IsError(e)
    ensures DecodeError(EncodeError(e) + rest) == Some((e, rest))
  {
    assert EncodeError(e) + rest == EncodeInt(e.code) + (EncodeString(e.message) + rest);
    IntRoundTrip(e.code, EncodeString(e.message) + rest);
    StringRoundTrip(e.message, rest);
  }

  lemma ResultRoundTrip(r: Result, rt: ResultType, rest: Bytes)
    requires IsResult(r, rt)
    ensures DecodeResult(rt, EncodeResult(r) + rest) == Some((Received(r, rt), rest))
    ensures Received(r, rt) == r <==> r.error.code == 0 || r.value == DefaultValue(rt)
  {
    var value := if r.error.code == 0 && r.value.Some? then Encode(r.value.value) else [];
    assert EncodeResult(r) + rest == EncodeError(r.error) + (value + rest);
    ErrorRoundTrip(r.error, value + rest);
    if r.error.code == 0 && r.value.Some? {
      RoundTrip(r.value.value, rt.value, rest);
    } else {
      assert value + rest == rest;
    }
  }

  lemma {:induction false} NothingToDecode(ty: Ty)
    ensures Decode(ty, []).None?
  {
    match ty
    case TPair(t1, _) => NothingToDecode(t1);
    case _ =>
  }

  /**
   * One message that holds a Result<void> is decoded by a closure of any result type, and the closure
   * then sees that error: for every non-void type this works if and only if the error code is not 0.
   */
  lemma ErrorIsTypeAgnostic(e: Error, rt: ResultType)
    requires IsError(e)
    ensures e.code != 0 || rt.None? <==> DecodeResult(rt, EncodeResult(Result(e, None))).Some?
    ensures e.code != 0 ==>
      DecodeResult(rt, EncodeResult(Result(e, None))) == Some((Result(e, DefaultValue(rt)), []))
  {
    assert EncodeResult(Result(e, None)) == EncodeError(e) + [];
    ErrorRoundTrip(e, []);
    if rt.Some? {
      NothingToDecode(rt.value);
    }
  }
}

/** The one message layout of the library: a function name, then an archive the name's owner can read. */
module Messages {
  import opened Wrappers
  import opened ByteStrings
  import opened Codec

  datatype Named<+T> = Named(name: Bytes, item: T)

  type Msg = Named<Bytes>

  function EncodeMsg(m: Msg): Bytes {
    EncodeString(m.name) + m.item
  }

  function DecodeMsg(b: Bytes): Option<Msg> {
    match DecodeString(b)
    case None => None
    case Some((name, archive)) => Some(Named(name, archive))
  }

  /** Messages and the byte strings that decode correspond one to one. */
  lemma MsgRoundTrip(m: Msg, b: Bytes)
    requires |m.name| < LENGTH_LIMIT
    ensures EncodeMsg(m) != []
    ensures DecodeMsg(b) == Some(m) <==> b == EncodeMsg(m)
  {
    StringRoundTrip(m.name, m.item);
    if DecodeMsg(b) == Some(m) {
      CanonicalString(b, m.name, m.item);
    }
  }

  // ---- logs of named items, seen per function ----

  /** The items of one function, in the order of the log. */
  function Of<T>(name: Bytes, log: seq<Named<T>>): seq<T> {
    if log == [] then []
    else Of(name, log[..|log| - 1]) + if log[|log| - 1].name == name then [log[|log| - 1].item] else []
  }

  lemma OfAppend<T>(name: Bytes, log: seq<Named<T>>, m: Named<T>)
    ensures Of(name, log + [m]) == Of(name, log) + if m.name == name then [m.item] else []
  {
    assert (log + [m])[..|log|] == log;
  }

  lemma {:induction false} OfConcat<T>(name: Bytes, a: seq<Named<T>>, b: seq<Named<T>>)
    ensures Of(name, a + b) == Of(name, a) + Of(name, b)
  {
    if b == [] {
      assert a + b == a;
    } else {
      OfConcat(name, a, b[..|b| - 1]);
      assert a + b == (a + b[..|b| - 1]) + [b[|b| - 1]];
      OfAppend(name, a + b[..|b| - 1], b[|b| - 1]);
    }
  }

  lemma OfFront<T>(name: Bytes, log: seq<Named<T>>)
    requires log != []
    ensures Of(name, log) == (if log[0].name == name then [log[0].item] else []) + Of(name, log[1..])
  {
    assert log == [log[0]] + log[1..];
    OfConcat(name, [log[0]], log[1..]);
    assert [log[0]][..0] == [];
  }
}

/** The serialization adapters: every function resets and then uses a pair of shared streams. */
module Serialization {
  import opened Wrappers
  import opened ByteStrings
  import opened Codec
  import opened Results
  import opened Messages

  const HEADER_SIZE := 4

  const HEADER_PLACE: Bytes := [0 as char, 0 as char, 0 as char, 0 as char]

  function CallMsg(name: Bytes, args: seq<Value>): Msg {
    Named(name, EncodeAll(args))
  }

  function ResultMsg(name: Bytes, r: Result): Msg {
    Named(name, EncodeResult(r))
  }

  lemma {:induction false} EncodeAllAppend(vs: seq<Value>, v: Value)
    ensures EncodeAll(vs + [v]) == EncodeAll(vs) + Encode(v)
  {
    if vs == [] {
      assert vs + [v] == [v];
      assert [v][1..] == [];
    } else {
      EncodeAllAppend(vs[1..], v);
      assert (vs + [v])[0] == vs[0] && (vs + [v])[1..] == vs[1..] + [v];
      Associate(Encode(vs[0]), EncodeAll(vs[1..]), Encode(v));
    }
  }

  class Streams {
    var outStream: Bytes
    var inStream: Bytes

    constructor ()
      ensures outStream == inStream == []
    {
      outStream, inStream := [], [];
    }

    /** Room for the length that Messenger.WriteMessageWithHeader fills in, then the function name. */
    method StartMessage(name: Bytes)
      modifies this`outStream
      ensures outStream == HEADER_PLACE + EncodeString(name)
    {
      outStream := [];
      outStream := outStream + HEADER_PLACE;
      outStream := outStream + EncodeString(name);
    }

    method SerializeCall(name: Bytes, args: seq<Value>) returns (msg: Bytes)
      modifies this`outStream
      ensures msg == outStream == HEADER_PLACE + EncodeMsg(CallMsg(name, args))
    {
      StartMessage(name);
      var i := 0;
      while i < |args|
        invariant 0 <= i <= |args|
        invariant outStream == HEADER_PLACE + EncodeString(name) + EncodeAll(args[..i])
      {
        outStream := outStream + Encode(args[i]);
        EncodeAllAppend(args[..i], args[i]);
        assert args[..i + 1] == args[..i] + [args[i]];
        i := i + 1;
      }
      assert args[..i] == args;
      msg := outStream;
    }

    method SerializeError(e: Error)
      modifies this`outStream
      ensures outStream == old(outStream) + EncodeError(e)
    {
      outStream := outStream + EncodeInt(e.code);
      outStream := outStream + EncodeString(e.message);
    }

    /** The value goes out only when there is no error. */
    method SerializeCallResult(name: Bytes, r: Result) returns (msg: Bytes)
      modifies this`outStream
      ensures msg == outStream == HEADER_PLACE + EncodeMsg(ResultMsg(name, r))
    {
      StartMessage(name);
      SerializeError(r.error);
      var value := if r.error.code == 0 && r.value.Some? then Encode(r.value.value) else [];
      outStream := outStream + value;
      Associate(HEADER_PLACE + EncodeString(name), EncodeError(r.error), value);
      Associate(HEADER_PLACE, EncodeString(name), EncodeError(r.error) + value);
      msg := outStream;
    }

    method SerializeEvent(name: Bytes, ev: Value) returns (msg: Bytes)
      modifies this`outStream
      ensures msg == outStream == HEADER_PLACE + EncodeMsg(Named(name, Encode(ev)))
    {
      StartMessage(name);
      outStream := outStream + Encode(ev);
      msg := outStream;
    }

    /** Reads the name; the archive its handler is given is what stays in the stream. None: a read error. */
    method DeserializeCall(msg: Bytes) returns (name: Option<Bytes>)
      modifies this`inStream
      ensures name.Some? <==> DecodeMsg(msg).Some?
      ensures name.Some? ==> DecodeMsg(msg) == Some(Named(name.value, inStream))
    {
      inStream := msg;
      match DecodeString(inStream)
      case None => name := None;
      case Some((n, rest)) =>
        inStream := rest;
        name := Some(n);
    }

    method DeserializeArg(ty: Ty) returns (v: Option<Value>)
      modifies this`inStream
      ensures v.Some? <==> Decode(ty, old(inStream)).Some?
      ensures v.Some? ==> Decode(ty, old(inStream)) == Some((v.value, inStream))
    {
      match Decode(ty, inStream)
      case None => v := None;
      case Some((x, rest)) =>
        inStream := rest;
        v := Some(x);
    }
  }
}

/** typeutil.h: the last type of a parameter list, and the list without it. */
module TypeUtil {

  /** One step a head at a time, as the template does. */
  function LastTypeOf<T>(types: seq<T>): T
    requires types != []
  {
    if |types| == 1 then types[0] else LastTypeOf(types[1..])
  }

  /** The three specialisations of remove_last_type_priv, `left` being the types collected so far. */
  function RemoveLastTypePriv<T>(left: seq<T>, types: seq<T>): seq<T>
    requires types != [] && (|types| == 1 ==> left == [])
    decreases |types|
  {
    if |types| == 1 then []
    else if |types| == 2 then left + [types[0]]
    else RemoveLastTypePriv(left + [types[0]], types[1..])
  }

  function RemoveLastTypeOf<T>(types: seq<T>): seq<T>
    requires types != []
  {
    RemoveLastTypePriv([], types)
  }

  lemma {:induction false} LastType<T>(types: seq<T>)
    requires types != []
    ensures LastTypeOf(types) == types[|types| - 1]
  {
    if |types| > 1 {
      LastType(types[1..]);
    }
  }

  lemma {:induction false} RemoveLastPriv<T>(left: seq<T>, types: seq<T>)
    requires types != [] && (|types| == 1 ==> left == [])
    ensures RemoveLastTypePriv(left, types) == left + types[..|types| - 1]
    decreases |types|
  {
    if |types| > 2 {
      RemoveLastPriv(left + [types[0]], types[1..]);
      assert types[..|types| - 1] == [types[0]] + types[1..][..|types| - 2];
    }
  }

  /** Exactly the last type goes: putting it back restores the list. */
  lemma RemoveLastType<T>(types: seq<T>)
    requires types != []
    ensures RemoveLastTypeOf(types) + [LastTypeOf(types)] == types
  {
    RemoveLastPriv([], types);
    LastType(types);
  }
}

/** The dictionary of service functions, and the way from a call message to a function call. */
module FunctionDictionary {
  import opened Wrappers
  import opened ByteStrings
  import opened Codec
  import opened Results
  import opened Messages
  import opened Serialization
  import TypeUtil

  /** A parameter of a service function: an argument, or the closure that takes the result. */
  datatype Param = Arg(ty: Ty) | ClosureOf(result: ResultType)

  datatype DictEntry = DictEntry(args: seq<Ty>, result: ResultType, oneWay: bool)

  type Dict = map<Bytes, DictEntry>

  /** A one-way function has no closure; any other function has one, and it comes last. */
  predicate IsSignature(oneWay: bool, params: seq<Param>) {
    if oneWay then forall p | p in params :: p.Arg?
    else params != [] && params[|params| - 1].ClosureOf? && forall p | p in params[..|params| - 1] :: p.Arg?
  }

  function ArgTypes(params: seq<Param>): (tys: seq<Ty>)
    requires forall p | p in params :: p.Arg?
    ensures |tys| == |params|
    ensures forall i | 0 <= i < |params| :: tys[i] == params[i].ty
  {
    seq(|params|, i requires 0 <= i < |params| => params[i].ty)
  }

  function EntryOf(oneWay: bool, params: seq<Param>): DictEntry
    requires IsSignature(oneWay, params)
  {
    if oneWay then DictEntry(ArgTypes(params), None, true)
    else
      assert TypeUtil.RemoveLastTypeOf(params) == params[..|params| - 1] by {
        TypeUtil.RemoveLastPriv([], params);
      }
      assert TypeUtil.LastTypeOf(params).ClosureOf? by {
        TypeUtil.LastType(params);
      }
      DictEntry(ArgTypes(TypeUtil.RemoveLastTypeOf(params)), TypeUtil.LastTypeOf(params).result, false)
  }

  predicate HaveTypes(args: seq<Value>, tys: seq<Ty>) {
    |args| == |tys| && forall i | 0 <= i < |args| :: HasType(args[i], tys[i])
  }

  /** Collects the arguments one type at a time; also the bytes that are left over. */
  function DecodeArgs(tys: seq<Ty>, b: Bytes, collected: seq<Value>): Option<(seq<Value>, Bytes)> {
    if tys == [] then Some((collected, b))
    else
      match Decode(tys[0], b)
      case None => None
      case Some((v, rest)) => DecodeArgs(tys[1..], rest, collected + [v])
  }

  /** What became of a call message: two exceptions, or the function that was called and with what. */
  datatype Outcome = NotFound | BadArchive | Called(name: Bytes, args: seq<Value>, entry: DictEntry)

  function CallOutcome(dict: Dict, m: Msg): Outcome {
    if m.name !in dict then NotFound
    else
      match DecodeArgs(dict[m.name].args, m.item, [])
      case None => BadArchive
      case Some((args, _)) => Called(m.name, args, dict[m.name])
  }

  lemma EncodeFirst(v: Value, others: seq<Value>, rest: Bytes)
    ensures EncodeAll([v] + others) + rest == Encode(v) + (EncodeAll(others) + rest)
  {
    assert ([v] + others)[1..] == others;
  }

  lemma FirstArg(tys: seq<Ty>, b: Bytes, collected: seq<Value>, v: Value, rest: Bytes)
    requires tys != [] && Decode(tys[0], b) == Some((v, rest))
    ensures DecodeArgs(tys, b, collected) == DecodeArgs(tys[1..], rest, collected + [v])
  {
  }

  lemma {:induction false} ArgsRoundTrip(args: seq<Value>, tys: seq<Ty>, collected: seq<Value>)
    requires HaveTypes(args, tys)
    ensures DecodeArgs(tys, EncodeAll(args), collected) == Some((collected + args, []))
  {
    if args == [] {
      assert collected + args == collected;
    } else {
      RoundTrip(args[0], tys[0], EncodeAll(args[1..]));
      FirstArg(tys, EncodeAll(args), collected, args[0], EncodeAll(args[1..]));
      ArgsRoundTrip(args[1..], tys[1..], collected + [args[0]]);
      assert collected + [args[0]] + args[1..] == collected + args;
    }
  }

  lemma {:induction false} ArgsCanonical(tys: seq<Ty>, b: Bytes, collected: seq<Value>) returns (args: seq<Value>)
    requires DecodeArgs(tys, b, collected).Some?
    ensures HaveTypes(args, tys)
    ensures
      var (all, rest) := DecodeArgs(tys, b, collected).value;
      all == collected + args && b == EncodeAll(args) + rest
    decreases |tys|
  {
    if tys == [] {
      args := [];
      assert collected + args == collected && EncodeAll([]) + b == b;
    } else {
      var (v, rest1) := Decode(tys[0], b).value;
      Canonical(tys[0], b, v, rest1);
      FirstArg(tys, b, collected, v, rest1);
      var others := ArgsCanonical(tys[1..], rest1, collected + [v]);
      args := [v] + others;
      EncodeFirst(v, others, DecodeArgs(tys[1..], rest1, collected + [v]).value.1);
      assert collected + args == (collected + [v]) + others;
    }
  }

  /**
   * A call of a registered function reaches that function with the same arguments in the same order, and
   * its message is consumed to the last byte.  The arguments are those of the signature without its last
   * (closure) parameter, or of the whole signature of a one-way function.
   */
  lemma CallRoundTrip(dict: Dict, name: Bytes, oneWay: bool, params: seq<Param>, args: seq<Value>)
    requires |name| < LENGTH_LIMIT && IsSignature(oneWay, params)
    requires name in dict && dict[name] == EntryOf(oneWay, params)
    requires
      HaveTypes(args, ArgTypes(if oneWay then params else params[..|params| - 1]))
    ensures DecodeMsg(EncodeMsg(CallMsg(name, args))) == Some(CallMsg(name, args))
    ensures CallOutcome(dict, CallMsg(name, args)) == Called(name, args, EntryOf(oneWay, params))
    ensures DecodeArgs(dict[name].args, EncodeAll(args), []) == Some((args, []))
    ensures !oneWay ==> dict[name].result == params[|params| - 1].result
  {
    MsgRoundTrip(CallMsg(name, args), EncodeMsg(CallMsg(name, args)));
    if !oneWay {
      TypeUtil.RemoveLastPriv([], params);
      TypeUtil.LastType(params);
    }
    ArgsRoundTrip(args, dict[name].args, []);
    assert [] + args == args;
  }

  /** Conversely a function is only ever called with arguments of its own types, which the message holds. */
  lemma CallsAreTyped(dict: Dict, m: Msg)
    requires CallOutcome(dict, m).Called?
    ensures
      var call := CallOutcome(dict, m);
      && call.name == m.name && m.name in dict && HaveTypes(call.args, dict[m.name].args)
      && exists rest :: m.item == EncodeAll(call.args) + rest
  {
    var args := ArgsCanonical(dict[m.name].args, m.item, []);
    var (all, rest) := DecodeArgs(dict[m.name].args, m.item, []).value;
    assert all == [] + args == args;
    assert m.item == EncodeAll(args) + rest;
  }

  class FunctionDict {
    var myFunctionDict: Dict

    constructor ()
      ensures myFunctionDict == map[]
    {
      myFunctionDict := map[];
    }

    method AddFunction(oneWay: bool, name: Bytes, params: seq<Param>)
      requires IsSignature(oneWay, params)
      modifies this
      ensures myFunctionDict == old(myFunctionDict)[name := EntryOf(oneWay, params)]
    {
      myFunctionDict := myFunctionDict[name := EntryOf(oneWay, params)];
    }

    /** None: the name is not in the dictionary, which the source reports with an exception. */
    method IsOneWay(name: Bytes) returns (oneWay: Option<bool>)
      ensures oneWay == if name in myFunctionDict then Some(myFunctionDict[name].oneWay) else None
    {
      if name !in myFunctionDict {
        return None;
      }
      return Some(myFunctionDict[name].oneWay);
    }

    /** Calls the function with the arguments that the streams hold after its name. */
    method CallFunction(name: Bytes, streams: Streams) returns (outcome: Outcome)
      modifies streams`inStream
      ensures outcome == CallOutcome(myFunctionDict, Named(name, old(streams.inStream)))
      ensures outcome.Called? ==>
        DecodeArgs(myFunctionDict[name].args, old(streams.inStream), []) == Some((outcome.args, streams.inStream))
    {
      if name !in myFunctionDict {
        return NotFound;
      }
      var args := DeserializeArgs(myFunctionDict[name].args, streams, []);
      match args
      case None => outcome := BadArchive;
      case Some(vs) => outcome := Called(name, vs, myFunctionDict[name]);
    }

    method DeserializeArgs(tys: seq<Ty>, streams: Streams, collected: seq<Value>)
      returns (args: Option<seq<Value>>)
      modifies streams`inStream
      ensures args.Some? <==> DecodeArgs(tys, old(streams.inStream), collected).Some?
      ensures args.Some? ==>
        DecodeArgs(tys, old(streams.inStream), collected) == Some((args.value, streams.inStream))
      decreases |tys|
    {
      if tys == [] {
        return Some(collected);
      }
      var v := streams.DeserializeArg(tys[0]);
      if v.None? {
        return None;
      }
      args := DeserializeArgs(tys[1..], streams, collected + [v.value]);
    }
  }
}
