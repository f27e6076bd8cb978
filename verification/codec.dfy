/**
 * A prefix-decodable codec for the values that cross the wire.  Like the library's binary archives it
 * writes no type tags: a reader must know the type it reads.
 */
module Codec {
  import opened Wrappers
  import opened ByteStrings

  /** Serializable C++ types: a 32-bit integer, a flag, a string, a vector, and fields side by side. */
  datatype Ty = TInt | TBool | TString | TVec(elem: Ty) | TPair(first: Ty, second: Ty)

  datatype Value =
    | VInt(i: int)
    | VBool(b: bool)
    | VString(s: Bytes)
    | VVec(vs: seq<Value>)
    | VPair(v1: Value, v2: Value)

  const INT_MIN := -0x8000_0000
  const INT_MAX := 0x7fff_ffff
  const LENGTH_LIMIT := 0x1_0000_0000_0000_0000

  predicate HasType(v: Value, ty: Ty) {
    match (v, ty)
    case (VInt(i), TInt) => INT_MIN <= i <= INT_MAX
    case (VBool(_), TBool) => true
    case (VString(s), TString) => |s| < LENGTH_LIMIT
    case (VVec(vs), TVec(elem)) => |vs| < LENGTH_LIMIT && forall x | x in vs :: HasType(x, elem)
    case (VPair(v1, v2), TPair(t1, t2)) => HasType(v1, t1) && HasType(v2, t2)
    case _ => false
  }

  /** The value a default-constructed object of the type holds. */
  function Default(ty: Ty): (v: Value)
    ensures HasType(v, ty)
  {
    match ty
    case TInt => VInt(0)
    case TBool => VBool(false)
    case TString => VString([])
    case TVec(_) => VVec([])
    case TPair(t1, t2) => VPair(Default(t1), Default(t2))
  }

  // ---- writing ----

  function EncodeInt(i: int): Bytes {
    NatToBytes(i % 0x1_0000_0000, 4)
  }

  function EncodeString(s: Bytes): Bytes {
    NatToBytes(|s|, 8) + s
  }

  function Encode(v: Value): Bytes {
    match v
    case VInt(i) => EncodeInt(i)
    case VBool(b) => if b then [1 as char] else [0 as char]
    case VString(s) => EncodeString(s)
    case VVec(vs) => NatToBytes(|vs|, 8) + EncodeAll(vs)
    case VPair(v1, v2) => Encode(v1) + Encode(v2)
  }

  function EncodeAll(vs: seq<Value>): Bytes {
    if vs == [] then [] else Encode(vs[0]) + EncodeAll(vs[1..])
  }

  // ---- reading: every decoder returns what it read and the bytes it left ----

  function DecodeInt(b: Bytes): Option<(int, Bytes)> {
    if |b| < 4 then None
    else
      var n := BytesToNat(b[..4]);
      Some((if n <= INT_MAX then n else n - 0x1_0000_0000, b[4..]))
  }

  function DecodeString(b: Bytes): Option<(Bytes, Bytes)> {
    if |b| < 8 then None
    else
      var n := BytesToNat(b[..8]);
      if |b| - 8 < n then None else Some((b[8..8 + n], b[8 + n..]))
  }

  function Decode(ty: Ty, b: Bytes): Option<(Value, Bytes)>
    decreases ty, 0
  {
    match ty
    case TInt =>
      (match DecodeInt(b) case None => None case Some((i, rest)) => Some((VInt(i), rest)))
    case TBool =>
      if b == [] || b[0] as int > 1 then None else Some((VBool(b[0] as int == 1), b[1..]))
    case TString =>
      (match DecodeString(b) case None => None case Some((s, rest)) => Some((VString(s), rest)))
    case TVec(elem) =>
      if |b| < 8 then None
      else
        (match DecodeMany(elem, BytesToNat(b[..8]), b[8..])
         case None => None
         case Some((vs, rest)) => Some((VVec(vs), rest)))
    case TPair(t1, t2) =>
      match Decode(t1, b)
      case None => None
      case Some((v1, rest1)) =>
        match Decode(t2, rest1)
        case None => None
        case Some((v2, rest2)) => Some((VPair(v1, v2), rest2))
  }

  function DecodeMany(ty: Ty, n: nat, b: Bytes): Option<(seq<Value>, Bytes)>
    decreases ty, 1, n
  {
    if n == 0 then Some(([], b))
    else
      match Decode(ty, b)
      case None => None
      case Some((v, rest)) =>
        match DecodeMany(ty, n - 1, rest)
        case None => None
        case Some((vs, last)) => Some(([v] + vs, last))
  }

  // ---- round trips ----

  lemma IntRoundTrip(i: int, rest: Bytes)
    requires INT_MIN <= i <= INT_MAX
    ensures |EncodeInt(i)| == 4
    ensures DecodeInt(EncodeInt(i) + rest) == Some((i, rest))
  {
    Pow256Values();
    NatRoundTrip(i % 0x1_0000_0000, 4);
    var b := EncodeInt(i) + rest;
    assert b[..4] == EncodeInt(i) && b[4..] == rest;
  }

  lemma StringRoundTrip(s: Bytes, rest: Bytes)
    requires |s| < LENGTH_LIMIT
    ensures DecodeString(EncodeString(s) + rest) == Some((s, rest))
  {
    Pow256Values();
    NatRoundTrip(|s|, 8);
    var b := EncodeString(s) + rest;
    assert b[..8] == NatToBytes(|s|, 8);
    assert b[8..8 + |s|] == s && b[8 + |s|..] == rest;
  }

  lemma BoolRoundTrip(x: bool, rest: Bytes)
    ensures Decode(TBool, Encode(VBool(x)) + rest) == Some((VBool(x), rest))
  {
    assert (Encode(VBool(x)) + rest)[1..] == rest;
  }

  /** Whatever follows it, an encoded value is read back and exactly its own bytes are consumed. */
  lemma {:induction false} RoundTrip(v: Value, ty: Ty, rest: Bytes)
    requires HasType(v, ty)
    ensures Decode(ty, Encode(v) + rest) == Some((v, rest))
    decreases v, 1
  {
    match v
    case VInt(i) =>
      IntRoundTrip(i, rest);
    case VBool(b) =>
      BoolRoundTrip(b, rest);
    case VString(s) =>
      StringRoundTrip(s, rest);
    case VVec(vs) =>
      RoundTripVec(vs, ty.elem, rest);
    case VPair(v1, v2) =>
      RoundTripPair(v1, v2, ty.first, ty.second, rest);
  }

  lemma {:induction false} RoundTripPair(v1: Value, v2: Value, t1: Ty, t2: Ty, rest: Bytes)
    requires HasType(v1, t1) && HasType(v2, t2)
    ensures Decode(TPair(t1, t2), Encode(VPair(v1, v2)) + rest) == Some((VPair(v1, v2), rest))
    decreases VPair(v1, v2), 0
  {
    Associate(Encode(v1), Encode(v2), rest);
    RoundTrip(v1, t1, Encode(v2) + rest);
    RoundTrip(v2, t2, rest);
  }

  lemma {:induction false} RoundTripVec(vs: seq<Value>, elem: Ty, rest: Bytes)
    requires HasType(VVec(vs), TVec(elem))
    ensures Decode(TVec(elem), Encode(VVec(vs)) + rest) == Some((VVec(vs), rest))
    decreases vs, 1
  {
    Pow256Values();
    NatRoundTrip(|vs|, 8);
    Associate(NatToBytes(|vs|, 8), EncodeAll(vs), rest);
    SplitAt(NatToBytes(|vs|, 8), EncodeAll(vs) + rest);
    RoundTripMany(vs, elem, rest);
  }

  lemma {:induction false} RoundTripMany(vs: seq<Value>, ty: Ty, rest: Bytes)
    requires forall x | x in vs :: HasType(x, ty)
    ensures DecodeMany(ty, |vs|, EncodeAll(vs) + rest) == Some((vs, rest))
    decreases vs, 0
  {
    if vs == [] {
      assert EncodeAll(vs) + rest == rest;
    } else {
      assert EncodeAll(vs) + rest == Encode(vs[0]) + (EncodeAll(vs[1..]) + rest);
      RoundTrip(vs[0], ty, EncodeAll(vs[1..]) + rest);
      RoundTripMany(vs[1..], ty, rest);
      assert vs == [vs[0]] + vs[1..];
    }
  }

  lemma CanonicalInt(b: Bytes, i: int, rest: Bytes)
    requires DecodeInt(b) == Some((i, rest))
    ensures INT_MIN <= i <= INT_MAX && b == EncodeInt(i) + rest
  {
    Pow256Values();
    BytesRoundTrip(b[..4]);
    assert i % 0x1_0000_0000 == BytesToNat(b[..4]);
    assert b == b[..4] + b[4..];
  }

  lemma CanonicalString(b: Bytes, s: Bytes, rest: Bytes)
    requires DecodeString(b) == Some((s, rest))
    ensures |s| < LENGTH_LIMIT && b == EncodeString(s) + rest
  {
    Pow256Values();
    BytesRoundTrip(b[..8]);
    assert b == b[..8] + b[8..8 + |s|] + b[8 + |s|..];
  }

  lemma CanonicalBool(b: Bytes, v: Value, rest: Bytes)
    requires Decode(TBool, b) == Some((v, rest))
    ensures v.VBool? && b == Encode(v) + rest
  {
    assert b == [b[0]] + b[1..];
    assert b[0] == (b[0] as int) as char;
  }

  /** The converse: bytes that decode are the encoding of what was read, so no two values share one. */
  lemma {:induction false} Canonical(ty: Ty, b: Bytes, v: Value, rest: Bytes)
    requires Decode(ty, b) == Some((v, rest))
    ensures HasType(v, ty) && b == Encode(v) + rest
    decreases ty, 3
  {
    match ty
    case TInt => CanonicalInt(b, v.i, rest);
    case TBool => CanonicalBool(b, v, rest);
    case TString => CanonicalString(b, v.s, rest);
    case TVec(elem) => CanonicalVec(elem, b, v.vs, rest);
    case TPair(t1, t2) => CanonicalPair(t1, t2, b, v.v1, v.v2, rest);
  }

  lemma {:induction false} CanonicalPair(t1: Ty, t2: Ty, b: Bytes, v1: Value, v2: Value, rest: Bytes)
    requires Decode(TPair(t1, t2), b) == Some((VPair(v1, v2), rest))
    ensures HasType(VPair(v1, v2), TPair(t1, t2)) && b == Encode(VPair(v1, v2)) + rest
    decreases TPair(t1, t2), 2
  {
    var rest1 := Decode(t1, b).value.1;
    Canonical(t1, b, v1, rest1);
    Canonical(t2, rest1, v2, rest);
    Associate(Encode(v1), Encode(v2), rest);
  }

  lemma {:induction false} CanonicalVec(elem: Ty, b: Bytes, vs: seq<Value>, rest: Bytes)
    requires Decode(TVec(elem), b) == Some((VVec(vs), rest))
    ensures HasType(VVec(vs), TVec(elem)) && b == Encode(VVec(vs)) + rest
    decreases TVec(elem), 2, 0
  {
    Pow256Values();
    BytesRoundTrip(b[..8]);
    CanonicalMany(elem, BytesToNat(b[..8]), b[8..], vs, rest);
    assert b == b[..8] + b[8..];
    Associate(NatToBytes(|vs|, 8), EncodeAll(vs), rest);
  }

  lemma FirstOfMany(ty: Ty, n: nat, b: Bytes, vs: seq<Value>, rest: Bytes) returns (v: Value, rest1: Bytes)
    requires n > 0 && DecodeMany(ty, n, b) == Some((vs, rest))
    ensures Decode(ty, b) == Some((v, rest1)) && vs != [] && vs[0] == v
    ensures DecodeMany(ty, n - 1, rest1) == Some((vs[1..], rest))
  {
    v, rest1 := Decode(ty, b).value.0, Decode(ty, b).value.1;
    var others := DecodeMany(ty, n - 1, rest1).value.0;
    assert vs == [v] + others;
  }

  lemma {:induction false} CanonicalMany(ty: Ty, n: nat, b: Bytes, vs: seq<Value>, rest: Bytes)
    requires DecodeMany(ty, n, b) == Some((vs, rest))
    ensures |vs| == n && (forall x | x in vs :: HasType(x, ty)) && b == EncodeAll(vs) + rest
    decreases ty, 4, n
  {
    if n == 0 {
    } else {
      var v, rest1 := FirstOfMany(ty, n, b, vs, rest);
      Canonical(ty, b, v, rest1);
      CanonicalMany(ty, n - 1, rest1, vs[1..], rest);
      Associate(Encode(v), EncodeAll(vs[1..]), rest);
    }
  }
}
