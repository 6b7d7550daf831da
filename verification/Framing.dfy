/** Packet framing of the client byte stream (acc_svr/external_con.cpp), as a pure reading of
    a byte sequence: what one look at the front of the buffer decides, and what a whole
    buffer splits into. */
module Framing {
  import opened Bytes

  /** One look at the buffer: not enough bytes, disconnect, or a packet of n bytes. */
  datatype Verdict = Wait | Bad | Packet(n: nat)

  /** First bytes accepted while a client is not verified. */
  predicate FirstId(v: int) {
    v == 0xF0 || v == 0xF1 || v == 0xCF || v == 0x80 || v == 0x91 ||
    v == 0xA4 || v == 0xEF || v == 0xE4 || v == 0xFF
  }

  /** `(pMsg[1] << 8) | pMsg[2]` on int: a negative low byte sets every higher bit. */
  function HeaderLength(k: CharKind, s: seq<byte>): int
    requires |s| >= 3
  {
    var hi, lo := CharVal(k, s[1]), CharVal(k, s[2]);
    if lo < 0 then lo else hi * 256 + lo
  }

  function BigEndian(hi: byte, lo: byte): int {
    256 * hi as int + lo as int
  }

  /** The decision for a buffer s of which len bytes are counted as received. */
  function Head(k: CharKind, strict: bool, s: seq<byte>, len: nat): (v: Verdict)
    requires len <= |s|
    ensures v.Packet? ==> 3 <= v.n <= len && v.n < 0x1_0000
  {
    if len == 0 then Wait
    else if strict && !FirstId(CharVal(k, s[0])) then Bad
    else if len < 3 then Wait
    else
      var n := HeaderLength(k, s);
      if n < 3 then Bad else if len < n then Wait else Packet(n)
  }

  /** The first bytes a client may start with. */
  const FIRST_BYTES: set<byte> := {0x80, 0x91, 0xA4, 0xCF, 0xE4, 0xEF, 0xF0, 0xF1, 0xFF}

  /** The decision in terms of the bytes themselves. A client that is not verified is closed for any
      other first byte; where char is signed, for every first byte, and from 0x80 on a length byte
      closes too. Three bytes announce a length, which is waited for unless it is below 3. */
  lemma HeadMeans(k: CharKind, strict: bool, s: seq<byte>, len: nat)
    requires len <= |s|
    ensures var v := Head(k, strict, s, len);
            var closed := strict && len > 0 && (k.SignedChar? || s[0] !in FIRST_BYTES);
            var negative := len >= 3 && k.SignedChar? && (s[1] >= 0x80 || s[2] >= 0x80);
            && (v.Bad? <==> closed || negative || (len >= 3 && BigEndian(s[1], s[2]) < 3))
            && (v.Packet? <==> !closed && !negative && len >= 3 && 3 <= BigEndian(s[1], s[2]) <= len)
            && (v.Packet? ==> v.n == BigEndian(s[1], s[2]))
  {
  }

  datatype Framed = Framed(pkts: seq<seq<byte>>, rest: seq<byte>, bad: bool)

  function Frame(k: CharKind, strict: bool, s: seq<byte>): (f: Framed)
    decreases |s|
  {
    match Head(k, strict, s, |s|)
    case Wait => Framed([], s, false)
    case Bad => Framed([], s, true)
    case Packet(n) =>
      var f := Frame(k, strict, s[n..]);
      f.(pkts := [s[..n]] + f.pkts)
  }

  /** A byte sequence that is exactly one packet. */
  predicate IsPacket(k: CharKind, strict: bool, p: seq<byte>) {
    Head(k, strict, p, |p|) == Packet(|p|)
  }

  predicate ArePackets(k: CharKind, strict: bool, ps: seq<seq<byte>>) {
    ps != [] ==> IsPacket(k, strict, ps[0]) && ArePackets(k, strict, ps[1..])
  }

  lemma HeadExtends(k: CharKind, strict: bool, s: seq<byte>, t: seq<byte>)
    requires !Head(k, strict, s, |s|).Wait?
    ensures Head(k, strict, s + t, |s + t|) == Head(k, strict, s, |s|)
  {
  }

  lemma EnoughDecides(k: CharKind, strict: bool, s: seq<byte>)
    requires |s| >= 0x1_0000
    ensures !Head(k, strict, s, |s|).Wait?
  {
  }

  /** The framer waits exactly as long as more bytes can change its decision. */
  lemma WaitsForMore(k: CharKind, strict: bool, s: seq<byte>)
    ensures Head(k, strict, s, |s|).Wait? <==>
            exists t: seq<byte> :: Head(k, strict, s + t, |s + t|) != Head(k, strict, s, |s|)
  {
    if Head(k, strict, s, |s|).Wait? {
      var t: seq<byte> := seq(0x1_0000, _ => 0);
      EnoughDecides(k, strict, s + t);
      assert Head(k, strict, s + t, |s + t|) != Head(k, strict, s, |s|);
    } else {
      forall t: seq<byte> ensures Head(k, strict, s + t, |s + t|) == Head(k, strict, s, |s|) {
        HeadExtends(k, strict, s, t);
      }
    }
  }

  /** A packet is the same one when it is looked at on its own. */
  lemma PacketAlone(k: CharKind, strict: bool, s: seq<byte>)
    requires Head(k, strict, s, |s|).Packet?
    ensures IsPacket(k, strict, s[..Head(k, strict, s, |s|).n])
  {
  }

  /** Nothing is lost, every piece is a packet, and framing stops only where it must. */
  lemma {:induction false} FrameSplits(k: CharKind, strict: bool, s: seq<byte>)
    ensures var f := Frame(k, strict, s);
            && Flatten(f.pkts) + f.rest == s
            && ArePackets(k, strict, f.pkts)
            && Head(k, strict, f.rest, |f.rest|) == (if f.bad then Bad else Wait)
            && |f.rest| + 3 * |f.pkts| <= |s|
    decreases |s|
  {
    var v := Head(k, strict, s, |s|);
    if v.Packet? {
      var p, t := s[..v.n], s[v.n..];
      FrameSplits(k, strict, t);
      var g := Frame(k, strict, t);
      FrameStep(k, strict, s);
      PacketAlone(k, strict, s);
      ConsParts(p, g.pkts);
      Assoc(p, Flatten(g.pkts), g.rest);
      Cut(s, v.n);
    }
  }

  lemma FrameStep(k: CharKind, strict: bool, s: seq<byte>)
    ensures var v := Head(k, strict, s, |s|);
            Frame(k, strict, s) ==
            if v.Packet? then var f := Frame(k, strict, s[v.n..]); Framed([s[..v.n]] + f.pkts, f.rest, f.bad)
            else Framed([], s, v.Bad?)
  {
  }

  lemma FrameCons(k: CharKind, strict: bool, p: seq<byte>, t: seq<byte>)
    requires IsPacket(k, strict, p)
    ensures var f := Frame(k, strict, t); Frame(k, strict, p + t) == Framed([p] + f.pkts, f.rest, f.bad)
  {
    HeadExtends(k, strict, p, t);
    FrameStep(k, strict, p + t);
    assert (p + t)[..|p|] == p && (p + t)[|p|..] == t;
  }

  /** The framer inverts concatenation, whatever follows the packets. */
  lemma {:induction false} FrameOfPackets(k: CharKind, strict: bool, ps: seq<seq<byte>>, t: seq<byte>)
    requires ArePackets(k, strict, ps)
    ensures var f := Frame(k, strict, t);
            Frame(k, strict, Flatten(ps) + t) == Framed(ps + f.pkts, f.rest, f.bad)
  {
    var f := Frame(k, strict, t);
    if ps == [] {
      assert Flatten(ps) + t == t;
      assert ps + f.pkts == f.pkts;
    } else {
      FrameOfPackets(k, strict, ps[1..], t);
      assert IsPacket(k, strict, ps[0]);
      FrameCons(k, strict, ps[0], Flatten(ps[1..]) + t);
      Assoc(ps[0], Flatten(ps[1..]), t);
      ConsAppend(ps, f.pkts);
    }
  }

  /** What more bytes do to a buffer that was framed already. */
  lemma FrameAppend(k: CharKind, strict: bool, s: seq<byte>, t: seq<byte>)
    ensures var f := Frame(k, strict, s);
            if f.bad then Frame(k, strict, s + t).pkts == f.pkts && Frame(k, strict, s + t).bad
            else var g := Frame(k, strict, f.rest + t); Frame(k, strict, s + t) == g.(pkts := f.pkts + g.pkts)
  {
    var f := Frame(k, strict, s);
    FrameSplits(k, strict, s);
    Assoc(Flatten(f.pkts), f.rest, t);
    FrameOfPackets(k, strict, f.pkts, f.rest + t);
    if f.bad {
      HeadExtends(k, strict, f.rest, t);
      FrameStep(k, strict, f.rest + t);
      AppendNil(f.pkts);
    }
  }

  lemma {:induction false} ArePacketsIff(k: CharKind, strict: bool, ps: seq<seq<byte>>)
    ensures ArePackets(k, strict, ps) <==> forall i :: 0 <= i < |ps| ==> IsPacket(k, strict, ps[i])
  {
    if ps != [] {
      ArePacketsIff(k, strict, ps[1..]);
      assert forall i :: 0 < i < |ps| ==> ps[i] == ps[1..][i - 1];
    }
  }

  lemma {:induction false} ArePacketsParts(k: CharKind, strict: bool, a: seq<seq<byte>>, b: seq<seq<byte>>)
    requires ArePackets(k, strict, a + b)
    ensures ArePackets(k, strict, a) && ArePackets(k, strict, b)
  {
    if a == [] {
      assert a + b == b;
    } else {
      assert (a + b)[1..] == a[1..] + b;
      ArePacketsParts(k, strict, a[1..], b);
    }
  }

  /** For compilers where char is unsigned: any packets of at least 3 bytes whose bytes 1 and 2
      hold their own big-endian length are recovered, and the whole buffer is consumed. */
  lemma FramerInverse(ps: seq<seq<byte>>)
    requires forall i :: 0 <= i < |ps| ==> |ps[i]| >= 3 && |ps[i]| == BigEndian(ps[i][1], ps[i][2])
    ensures Frame(UnsignedChar, false, Flatten(ps)) == Framed(ps, [], false)
  {
    forall i | 0 <= i < |ps| ensures IsPacket(UnsignedChar, false, ps[i]) {
      assert |ps[i]| == BigEndian(ps[i][1], ps[i][2]);
    }
    ArePacketsIff(UnsignedChar, false, ps);
    FrameOfPackets(UnsignedChar, false, ps, []);
    assert Flatten(ps) + [] == Flatten(ps) && ps + [] == ps;
  }

  /** Where char is signed the same byte strings are packets exactly when both length bytes
      are below 0x80. */
  lemma SignedPackets(p: seq<byte>)
    requires |p| >= 3
    ensures IsPacket(SignedChar, false, p) <==>
            IsPacket(UnsignedChar, false, p) && p[1] < 0x80 && p[2] < 0x80
  {
  }
}
