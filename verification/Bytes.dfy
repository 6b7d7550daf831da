/** Bytes, fixed-width unsigned integers and their little-endian wire form. */
module Bytes {

  type byte = b: int | 0 <= b < 0x100
  type U16 = x: int | 0 <= x < 0x1_0000
  type U32 = x: int | 0 <= x < 0x1_0000_0000
  type U64 = x: int | 0 <= x < 0x1_0000_0000_0000_0000

  datatype Option<+T> = None | Some(value: T)

  /** How the compiler reads a plain `char`: the source compares and shifts `char` values. */
  datatype CharKind = UnsignedChar | SignedChar

  function CharVal(k: CharKind, b: byte): (v: int)
    ensures k.UnsignedChar? || b < 0x80 ==> v == b
    ensures k.SignedChar? && b >= 0x80 ==> -0x80 <= v < 0 && (v - b) % 0x100 == 0
  {
    if k.SignedChar? && b >= 0x80 then b - 0x100 else b
  }

  /** The value a `char` takes once converted to uint32: the byte itself, unless char is signed
      and the byte is sign-extended. */
  function CharToU32(k: CharKind, b: byte): (v: U32)
    ensures k.UnsignedChar? ==> v == b
    ensures k.SignedChar? ==> v == if b < 0x80 then b as int else b as int + 0xFFFF_FF00
  {
    var v := CharVal(k, b);
    if v < 0 then v + 0x1_0000_0000 else v
  }

  function Pow256(n: nat): (p: nat)
    ensures p >= 1
  {
    if n == 0 then 1 else 256 * Pow256(n - 1)
  }

  /** The low n bytes of x, least significant first. */
  function Le(x: nat, n: nat): (s: seq<byte>)
    ensures |s| == n
  {
    if n == 0 then [] else [x % 256] + Le(x / 256, n - 1)
  }

  function LeVal(s: seq<byte>): (v: nat)
    ensures v < Pow256(|s|)
  {
    if s == [] then 0 else s[0] + 256 * LeVal(s[1..])
  }

  lemma {:induction false} LeValOfLe(x: nat, n: nat)
    requires x < Pow256(n)
    ensures LeVal(Le(x, n)) == x
  {
    if n > 0 {
      LeValOfLe(x / 256, n - 1);
      assert Le(x, n)[1..] == Le(x / 256, n - 1);
    }
  }

  lemma {:induction false} LeOfLeVal(s: seq<byte>)
    ensures Le(LeVal(s), |s|) == s
  {
    if s != [] {
      LeOfLeVal(s[1..]);
      assert LeVal(s) / 256 == LeVal(s[1..]);
      assert LeVal(s) % 256 == s[0];
    }
  }

  lemma Widths()
    ensures Pow256(1) == 0x100 && Pow256(2) == 0x1_0000
    ensures Pow256(4) == 0x1_0000_0000
    ensures Pow256(8) == 0x1_0000_0000_0000_0000
  {
    assert Pow256(3) == 256 * Pow256(2);
    assert Pow256(5) == 256 * Pow256(4);
    assert Pow256(6) == 256 * Pow256(5);
    assert Pow256(7) == 256 * Pow256(6);
  }

  /** Consecutive w-byte integers. */
  function Les(xs: seq<nat>, w: nat): (s: seq<byte>) {
    if xs == [] then [] else Le(xs[0], w) + Les(xs[1..], w)
  }

  lemma Assoc<T>(a: seq<T>, b: seq<T>, c: seq<T>)
    ensures (a + b) + c == a + (b + c)
  {
  }

  lemma ConsAppend<T>(a: seq<T>, b: seq<T>)
    requires a != []
    ensures [a[0]] + (a[1..] + b) == a + b
    ensures (a + b)[0] == a[0] && (a + b)[1..] == a[1..] + b
  {
  }

  lemma ConsParts<T>(x: T, s: seq<T>)
    ensures ([x] + s)[0] == x && ([x] + s)[1..] == s
  {
  }

  lemma AppendNil<T>(s: seq<T>)
    ensures s + [] == s && [] + s == s
  {
  }

  lemma BothEmpty<T>(a: seq<T>, b: seq<T>)
    ensures a + b == [] <==> a == [] && b == []
  {
    assert |a + b| == |a| + |b|;
  }

  lemma Cut<T>(s: seq<T>, n: nat)
    requires n <= |s|
    ensures s[..n] + s[n..] == s
  {
  }

  lemma SnocParts<T>(s: seq<T>, x: T)
    ensures (s + [x])[..|s|] == s && (s + [x])[|s|] == x
  {
  }

  function Flatten(ss: seq<seq<byte>>): seq<byte> {
    if ss == [] then [] else ss[0] + Flatten(ss[1..])
  }

  lemma {:induction false} FlattenAppend(a: seq<seq<byte>>, b: seq<seq<byte>>)
    ensures Flatten(a + b) == Flatten(a) + Flatten(b)
  {
    if a == [] {
      assert a + b == b;
    } else {
      assert (a + b)[1..] == a[1..] + b;
      FlattenAppend(a[1..], b);
    }
  }
}
