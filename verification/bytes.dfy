/** Values that may be absent, and calls that may be ended by an exception. */
module Wrappers {
  datatype Option<+T> = None | Some(value: T)

  /** TooLong is the std::length_error of a message that the header cannot announce. */
  datatype Attempt<+T> = TooLong | Done(value: T)
}

/** Byte strings (the source's std::string) and fixed-width little-endian numbers. */
module ByteStrings {

  type Byte = c: char | c as int < 256 witness 'a'

  type Bytes = seq<Byte>

  lemma Associate<T>(a: seq<T>, b: seq<T>, c: seq<T>)
    ensures a + b + c == a + (b + c)
  {
  }

  lemma SplitAt(a: Bytes, b: Bytes)
    ensures (a + b)[..|a|] == a && (a + b)[|a|..] == b
  {
  }

  function Pow256(w: nat): nat {
    if w == 0 then 1 else 256 * Pow256(w - 1)
  }

  lemma Pow256Values()
    ensures Pow256(1) == 0x100
    ensures Pow256(4) == 0x1_0000_0000
    ensures Pow256(8) == 0x1_0000_0000_0000_0000
  {
    assert Pow256(1) == 0x100;
    assert Pow256(2) == 0x1_0000;
    assert Pow256(3) == 0x100_0000;
    assert Pow256(4) == 0x1_0000_0000;
    assert Pow256(5) == 0x100_0000_0000;
    assert Pow256(6) == 0x1_0000_0000_0000;
    assert Pow256(7) == 0x100_0000_0000_0000;
  }

  /** The `w` bytes that hold `n`, least significant first; a larger `n` wraps around. */
  function NatToBytes(n: nat, w: nat): (b: Bytes)
    ensures |b| == w
  {
    if w == 0 then [] else [(n % 256) as char] + NatToBytes(n / 256, w - 1)
  }

  function BytesToNat(b: Bytes): (n: nat)
    ensures n < Pow256(|b|)
  {
    if b == [] then 0 else b[0] as int + 256 * BytesToNat(b[1..])
  }

  lemma {:induction false} NatRoundTrip(n: nat, w: nat)
    requires n < Pow256(w)
    ensures BytesToNat(NatToBytes(n, w)) == n
  {
    if w != 0 {
      assert n / 256 < Pow256(w - 1);
      NatRoundTrip(n / 256, w - 1);
      var b := NatToBytes(n, w);
      assert b[0] as int == n % 256;
      assert b[1..] == NatToBytes(n / 256, w - 1);
    }
  }

  lemma {:induction false} BytesRoundTrip(b: Bytes)
    ensures NatToBytes(BytesToNat(b), |b|) == b
  {
    if b != [] {
      BytesRoundTrip(b[1..]);
      var n := BytesToNat(b);
      assert n / 256 == BytesToNat(b[1..]) && n % 256 == b[0] as int;
      assert b == [b[0]] + b[1..];
    }
  }
}
