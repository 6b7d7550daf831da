/** How the cutting of the byte stream into receive events affects a client connection. */
module Chunking {
  import opened Bytes
  import opened Proto
  import opened Framing
  import opened ExternalCon
  import opened ExternalRuns

  // ---- packet handlers in general -------------------------------------------------------

  /** A packet handler, which packets make it close the connection, and how many packets a
      connection was handed. */
  datatype Handling = Handling(rev: Handler, rejects: (Con, seq<byte>) -> bool, count: Con -> nat)

  /** What handing packets over leaves alone, as far as framing and rejecting look at it. */
  ghost predicate SameEyes(h: Handling, c: Con, d: Con) {
    && d.k == c.k && d.seeded == c.seeded && Strict(d) == Strict(c)
    && forall q :: h.rejects(d, q) == h.rejects(c, q)
  }

  ghost predicate Uniform(h: Handling) {
    && (forall c, p :: SameEyes(h, c, h.rev(c, p)))
    && (forall c, p :: h.rev(c, p).connected == (c.connected && !h.rejects(c, p)))
    && (forall c, p :: h.count(h.rev(c, p)) == h.count(c) + 1)
    && (forall c :: h.count(Disc(c)) == h.count(c))
  }

  function RevAll(h: Handling, c: Con, ps: seq<seq<byte>>): Con
    decreases |ps|
  {
    if ps == [] then c else RevAll(h, h.rev(c, ps[0]), ps[1..])
  }

  predicate NoneRejected(h: Handling, c: Con, ps: seq<seq<byte>>) {
    forall i :: 0 <= i < |ps| ==> !h.rejects(c, ps[i])
  }

  lemma NoneRejectedCons(h: Handling, c: Con, d: Con, ps: seq<seq<byte>>)
    requires ps != [] && SameEyes(h, c, d)
    ensures NoneRejected(h, c, ps) <==> !h.rejects(c, ps[0]) && NoneRejected(h, d, ps[1..])
  {
    if NoneRejected(h, d, ps[1..]) {
      forall i | 0 < i < |ps| ensures !h.rejects(c, ps[i]) {
        assert ps[i] == ps[1..][i - 1];
      }
    }
  }

  lemma {:induction false} RevAllKeeps(h: Handling, c: Con, ps: seq<seq<byte>>)
    requires Uniform(h)
    ensures var d := RevAll(h, c, ps);
            && SameEyes(h, c, d)
            && d.connected == (c.connected && NoneRejected(h, c, ps))
            && h.count(d) == h.count(c) + |ps|
    decreases |ps|
  {
    if ps != [] {
      RevAllKeeps(h, h.rev(c, ps[0]), ps[1..]);
      NoneRejectedCons(h, c, h.rev(c, ps[0]), ps);
    }
  }

  lemma {:induction false} RevAllAppend(h: Handling, c: Con, a: seq<seq<byte>>, b: seq<seq<byte>>)
    ensures RevAll(h, c, a + b) == RevAll(h, RevAll(h, c, a), b)
    decreases |a|
  {
    if a == [] {
      AppendNil(b);
    } else {
      ConsAppend(a, b);
      RevAllAppend(h, h.rev(c, a[0]), a[1..], b);
    }
  }

  function AfterFrame(c: Con, bad: bool): Con {
    if bad then Disc(c) else c
  }

  lemma ParseSeeded(c: Con, s: seq<byte>)
    requires c.seeded
    ensures ParsePacket(c, s) == Judged(c, Head(c.k, Strict(c), s, |s|))
  {
    assert c.(seeded := true) == c;
  }

  lemma PumpStops(rev: Handler, c: Con, s: seq<byte>)
    requires c.seeded && !Head(c.k, Strict(c), s, |s|).Packet?
    ensures Pump(rev, c, s) == (AfterFrame(c, Head(c.k, Strict(c), s, |s|).Bad?), 0)
  {
    ParseSeeded(c, s);
  }

  predicate FramedBy(h: Handling, c: Con, s: seq<byte>, f: Framed) {
    Pump(h.rev, c, s) == (AfterFrame(RevAll(h, c, f.pkts), f.bad), |s| - |f.rest|)
  }

  lemma FramedCons(h: Handling, c: Con, s: seq<byte>, n: nat, f: Framed)
    requires c.seeded && Head(c.k, Strict(c), s, |s|) == Packet(n)
    requires FramedBy(h, h.rev(c, s[..n]), s[n..], f)
    ensures FramedBy(h, c, s, f.(pkts := [s[..n]] + f.pkts))
  {
    ParseSeeded(c, s);
    PumpPacket(h.rev, c, s);
    ConsParts(s[..n], f.pkts);
  }

  /** The receive loop on a seeded connection: frame the buffer, hand over the packets. */
  lemma {:induction false} PumpIsFrame(h: Handling, c: Con, s: seq<byte>)
    requires c.seeded && Uniform(h)
    ensures FramedBy(h, c, s, Frame(c.k, Strict(c), s))
    decreases |s|
  {
    match Head(c.k, Strict(c), s, |s|) {
      case Packet(n) =>
        var d := h.rev(c, s[..n]);
        assert SameEyes(h, c, d);
        PumpIsFrame(h, d, s[n..]);
        FramedCons(h, c, s, n, Frame(c.k, Strict(c), s[n..]));
      case _ => PumpStops(h.rev, c, s);
    }
  }

  lemma RestIsSuffix(k: CharKind, strict: bool, s: seq<byte>)
    ensures var f := Frame(k, strict, s); |f.rest| <= |s| && s[|s| - |f.rest|..] == f.rest
  {
    FrameSplits(k, strict, s);
  }

  // ---- splits -------------------------------------------------------------------------

  function Feed(rev: Handler, l: Link, chunks: seq<seq<byte>>): Link
    decreases |chunks|
  {
    if chunks == [] then l else Feed(rev, DeliverTo(rev, l, chunks[0]), chunks[1..])
  }

  /** The same connection, log included, and while it is open the same retained bytes. */
  predicate Same(a: Link, b: Link) {
    a.con == b.con && (a.con.connected ==> a.buf == b.buf)
  }

  /** No packet but the last one makes the handler close the connection. */
  predicate OnlyLastRejected(h: Handling, c: Con, ps: seq<seq<byte>>) {
    ps == [] || NoneRejected(h, c, ps[..|ps| - 1])
  }

  /** What framing the whole buffer comes to. */
  predicate Comes(h: Handling, c: Con, s: seq<byte>, f: Framed) {
    FramedBy(h, c, s, f) && |f.rest| <= |s| && s[|s| - |f.rest|..] == f.rest
  }

  lemma FrameComes(h: Handling, c: Con, s: seq<byte>)
    requires c.seeded && Uniform(h)
    ensures Comes(h, c, s, Frame(c.k, Strict(c), s))
  {
    PumpIsFrame(h, c, s);
    RestIsSuffix(c.k, Strict(c), s);
  }

  lemma DeliverFramed(h: Handling, l: Link, chunk: seq<byte>, f: Framed)
    requires l.con.connected && Comes(h, l.con, l.buf + chunk, f)
    ensures DeliverTo(h.rev, l, chunk) == Link(AfterFrame(RevAll(h, l.con, f.pkts), f.bad), f.rest)
  {
  }

  lemma DeliverSeeded(h: Handling, l: Link, chunk: seq<byte>)
    requires l.con.seeded && l.con.connected && Uniform(h)
    ensures var f := Frame(l.con.k, Strict(l.con), l.buf + chunk);
            DeliverTo(h.rev, l, chunk) == Link(AfterFrame(RevAll(h, l.con, f.pkts), f.bad), f.rest)
  {
    FrameComes(h, l.con, l.buf + chunk);
    DeliverFramed(h, l, chunk, Frame(l.con.k, Strict(l.con), l.buf + chunk));
  }

  lemma {:induction false} FeedClosed(rev: Handler, l: Link, chunks: seq<seq<byte>>)
    requires !l.con.connected
    ensures Feed(rev, l, chunks) == l
    decreases |chunks|
  {
    if chunks != [] {
      FeedClosed(rev, l, chunks[1..]);
    }
  }

  lemma SplitRejected(h: Handling, c: Con, d: Con, a: seq<seq<byte>>, b: seq<seq<byte>>)
    requires OnlyLastRejected(h, c, a + b) && SameEyes(h, c, d)
    ensures NoneRejected(h, c, a) ==> OnlyLastRejected(h, d, b)
    ensures !NoneRejected(h, c, a) ==> b == []
  {
    if b != [] {
      var n := |a + b| - 1;
      forall i | 0 <= i < |a| ensures !h.rejects(c, a[i]) {
        assert a[i] == (a + b)[..n][i];
      }
      forall i | 0 <= i < |b| - 1 ensures !h.rejects(d, b[i]) {
        assert b[i] == (a + b)[..n][|a| + i];
      }
    }
  }

  lemma DeliverTwice(h: Handling, l: Link, x: seq<byte>, y: seq<byte>)
    requires l.con.seeded && l.con.connected && Uniform(h)
    requires OnlyLastRejected(h, l.con, Frame(l.con.k, Strict(l.con), l.buf + (x + y)).pkts)
    ensures var m := DeliverTo(h.rev, l, x);
            && Same(DeliverTo(h.rev, m, y), DeliverTo(h.rev, l, x + y))
            && (m.con.connected ==>
                && m.con.seeded
                && OnlyLastRejected(h, m.con, Frame(m.con.k, Strict(m.con), m.buf + y).pkts))
  {
    var c, k, strict := l.con, l.con.k, Strict(l.con);
    var f := Frame(k, strict, l.buf + x);
    var c1 := RevAll(h, c, f.pkts);
    DeliverSeeded(h, l, x);
    DeliverSeeded(h, l, x + y);
    Assoc(l.buf, x, y);
    FrameAppend(k, strict, l.buf + x, y);
    RevAllKeeps(h, c, f.pkts);
    if !f.bad {
      var g := Frame(k, strict, f.rest + y);
      RevAllAppend(h, c, f.pkts, g.pkts);
      SplitRejected(h, c, c1, f.pkts, g.pkts);
      if c1.connected {
        DeliverSeeded(h, Link(c1, f.rest), y);
      } else {
        assert AfterFrame(c1, g.bad) == c1;
      }
    }
  }

  lemma {:induction false} FeedWhole(h: Handling, l: Link, chunks: seq<seq<byte>>)
    requires l.con.seeded && l.con.connected && chunks != [] && Uniform(h)
    requires OnlyLastRejected(h, l.con, Frame(l.con.k, Strict(l.con), l.buf + Flatten(chunks)).pkts)
    ensures Same(Feed(h.rev, l, chunks), DeliverTo(h.rev, l, Flatten(chunks)))
    decreases |chunks|
  {
    var x, rest := chunks[0], chunks[1..];
    var m := DeliverTo(h.rev, l, x);
    DeliverTwice(h, l, x, Flatten(rest));
    if rest == [] {
      AppendNil(x);
    } else if m.con.connected {
      FeedWhole(h, m, rest);
    } else {
      FeedClosed(h.rev, m, rest);
    }
  }

  predicate NoneEmpty(chunks: seq<seq<byte>>) {
    forall i :: 0 <= i < |chunks| ==> chunks[i] != []
  }

  lemma FeedTwo(rev: Handler, l: Link, a: seq<byte>, b: seq<byte>)
    ensures Feed(rev, l, [a, b]) == DeliverTo(rev, DeliverTo(rev, l, a), b)
    ensures Flatten([a, b]) == a + b
    ensures a != [] && b != [] ==> NoneEmpty([a, b])
  {
    assert [a, b][1..] == [b];
    assert Feed(rev, DeliverTo(rev, l, a), [b]) == Feed(rev, DeliverTo(rev, DeliverTo(rev, l, a), b), []);
    assert Flatten([b]) == b + Flatten([]);
  }

  /** A stream can be cut behind any of its packets. */
  lemma FrameCut(k: CharKind, strict: bool, s: seq<byte>, i: nat) returns (a: seq<byte>, b: seq<byte>)
    requires i <= |Frame(k, strict, s).pkts|
    ensures a + b == s
    ensures 0 < i ==> a != []
    ensures i < |Frame(k, strict, s).pkts| ==> b != []
    ensures Frame(k, strict, a) == Framed(Frame(k, strict, s).pkts[..i], [], false)
  {
    var f := Frame(k, strict, s);
    var ps, qs := f.pkts[..i], f.pkts[i..];
    a, b := Flatten(ps), Flatten(qs) + f.rest;
    FrameSplits(k, strict, s);
    Cut(f.pkts, i);
    FlattenAppend(ps, qs);
    Assoc(a, Flatten(qs), f.rest);
    ArePacketsParts(k, strict, ps, qs);
    FrameOfPackets(k, strict, ps, []);
    AppendNil(a);
    AppendNil(ps);
  }

  /** Cutting behind a rejected packet shows: the rest is then never handed over. */
  lemma CutBehind(h: Handling, c: Con, s: seq<byte>, i: nat) returns (a: seq<byte>, b: seq<byte>)
    requires c.seeded && c.connected && Uniform(h)
    requires var ps := Frame(c.k, Strict(c), s).pkts; i + 1 < |ps| && h.rejects(c, ps[i])
    ensures a + b == s && a != [] && b != []
    ensures !Same(Feed(h.rev, Link(c, []), [a, b]), DeliverTo(h.rev, Link(c, []), s))
  {
    a, b := FrameCut(c.k, Strict(c), s, i + 1);
    var l := Link(c, []);
    var all := Frame(c.k, Strict(c), s).pkts;
    AppendNil(a);
    AppendNil(s);
    DeliverSeeded(h, l, a);
    DeliverSeeded(h, l, s);
    RevAllKeeps(h, c, all[..i + 1]);
    RevAllKeeps(h, c, all);
    assert all[..i + 1][i] == all[i];
    FeedTwo(h.rev, l, a, b);
    CountUnclosed(h, c, all);
  }

  /** Closing the connection for a framing error hands over nothing more. */
  lemma CountUnclosed(h: Handling, c: Con, ps: seq<seq<byte>>)
    requires Uniform(h)
    ensures h.count(Disc(RevAll(h, c, ps))) == h.count(c) + |ps|
  {
    RevAllKeeps(h, c, ps);
  }

  /** Every cut of the stream into receive events, none of them empty, ends like the whole
      stream received at once: same state, same log, same retained bytes. */
  ghost predicate CutProof(h: Handling, c: Con, s: seq<byte>) {
    forall chunks: seq<seq<byte>> | chunks != [] && NoneEmpty(chunks) && Flatten(chunks) == s ::
      Same(Feed(h.rev, Link(c, []), chunks), DeliverTo(h.rev, Link(c, []), s))
  }

  lemma CutProofIf(h: Handling, c: Con, s: seq<byte>)
    requires c.seeded && c.connected && Uniform(h)
    requires OnlyLastRejected(h, c, Frame(c.k, Strict(c), s).pkts)
    ensures CutProof(h, c, s)
  {
    AppendNil(s);
    forall chunks: seq<seq<byte>> | chunks != [] && NoneEmpty(chunks) && Flatten(chunks) == s
      ensures Same(Feed(h.rev, Link(c, []), chunks), DeliverTo(h.rev, Link(c, []), s))
    {
      FeedWhole(h, Link(c, []), chunks);
    }
  }

  lemma RejectedInside(h: Handling, c: Con, ps: seq<seq<byte>>) returns (i: nat)
    requires !OnlyLastRejected(h, c, ps)
    ensures i + 1 < |ps| && h.rejects(c, ps[i])
  {
    var qs := ps[..|ps| - 1];
    i :| 0 <= i < |qs| && h.rejects(c, qs[i]);
  }

  lemma CutShows(h: Handling, c: Con, s: seq<byte>, chunks: seq<seq<byte>>)
    requires chunks != [] && NoneEmpty(chunks) && Flatten(chunks) == s
    requires !Same(Feed(h.rev, Link(c, []), chunks), DeliverTo(h.rev, Link(c, []), s))
    ensures !CutProof(h, c, s)
  {
  }

  lemma CutProofOnlyIf(h: Handling, c: Con, s: seq<byte>)
    requires c.seeded && c.connected && Uniform(h)
    requires !OnlyLastRejected(h, c, Frame(c.k, Strict(c), s).pkts)
    ensures !CutProof(h, c, s)
  {
    var i := RejectedInside(h, c, Frame(c.k, Strict(c), s).pkts);
    var a, b := CutBehind(h, c, s, i);
    FeedTwo(h.rev, Link(c, []), a, b);
    CutShows(h, c, s, [a, b]);
  }

  lemma CutProofExact(h: Handling, c: Con, s: seq<byte>)
    requires c.seeded && c.connected && Uniform(h)
    ensures CutProof(h, c, s) <==> OnlyLastRejected(h, c, Frame(c.k, Strict(c), s).pkts)
  {
    if OnlyLastRejected(h, c, Frame(c.k, Strict(c), s).pkts) {
      CutProofIf(h, c, s);
    } else {
      CutProofOnlyIf(h, c, s);
    }
  }

  // ---- before the seed ----------------------------------------------------------------

  lemma PumpSame(rev: Handler, c: Con, d: Con, s: seq<byte>)
    requires ParsePacket(c, s) == ParsePacket(d, s)
    ensures Pump(rev, c, s) == Pump(rev, d, s)
  {
  }

  /** A first byte 0xEF seeds the connection and is framed like any other. */
  lemma NewSeedPump(rev: Handler, c: Con, s: seq<byte>)
    requires !c.seeded && s != [] && HandleSeed(c.k, s).NewSeed?
    ensures Pump(rev, c, s) == Pump(rev, c.(seeded := true), s)
  {
    ParseSeeded(c.(seeded := true), s);
    PumpSame(rev, c, c.(seeded := true), s);
  }

  lemma {:induction false} NewSeedFeed(h: Handling, c: Con, chunks: seq<seq<byte>>)
    requires !c.seeded && c.connected && chunks != [] && NoneEmpty(chunks)
    requires HandleSeed(c.k, Flatten(chunks)).NewSeed?
    ensures Feed(h.rev, Link(c, []), chunks) == Feed(h.rev, Link(c.(seeded := true), []), chunks)
  {
    AppendNil(chunks[0]);
    NewSeedPump(h.rev, c, chunks[0]);
  }

  /** A fresh connection whose stream starts with 0xEF is cut-proof like a seeded one. */
  lemma NewSeedExact(h: Handling, c: Con, s: seq<byte>)
    requires !c.seeded && c.connected && Uniform(h)
    requires s != [] && HandleSeed(c.k, s).NewSeed?
    ensures CutProof(h, c, s) <==> OnlyLastRejected(h, c.(seeded := true), Frame(c.k, Strict(c), s).pkts)
  {
    var c1 := c.(seeded := true);
    AppendNil(s);
    NewSeedPump(h.rev, c, s);
    forall chunks: seq<seq<byte>> | chunks != [] && NoneEmpty(chunks) && Flatten(chunks) == s
      ensures Feed(h.rev, Link(c, []), chunks) == Feed(h.rev, Link(c1, []), chunks)
    {
      NewSeedFeed(h, c, chunks);
    }
    CutProofExact(h, c1, s);
  }

  /** The lengths at which an old-style seed makes the whole buffer look incomplete while it
      is not: four bytes are missing from the length but not from the buffer. */
  predicate SeedGap(k: CharKind, strict: bool, s: seq<byte>) {
    && |s| > 4 && HandleSeed(k, s).OldSeed?
    && Head(k, strict, s, |s| - 4).Wait? && !Head(k, strict, s, |s|).Wait?
  }

  lemma ParseOldSeed(c: Con, s: seq<byte>)
    requires !c.seeded && s != [] && HandleSeed(c.k, s).OldSeed?
    ensures ParsePacket(c, s) == Judged(c.(seeded := true), Head(c.k, Strict(c), s, |s| - 4))
  {
  }

  lemma OldSeedPump(rev: Handler, c: Con, s: seq<byte>)
    requires !c.seeded && s != [] && HandleSeed(c.k, s).OldSeed?
    ensures Pump(rev, c, s) ==
            if Head(c.k, Strict(c), s, |s| - 4).Wait? then (c.(seeded := true), 0)
            else Pump(rev, c.(seeded := true), s)
  {
    ParseOldSeed(c, s);
    if !Head(c.k, Strict(c), s, |s| - 4).Wait? {
      ParseSeeded(c.(seeded := true), s);
      assert Head(c.k, Strict(c), s, |s|) == Head(c.k, Strict(c), s, |s| - 4);
      PumpSame(rev, c, c.(seeded := true), s);
    }
  }

  /** Once seeded, and not at the very end, the missing four bytes make no difference. */
  lemma OldSeedFirst(h: Handling, c: Con, s: seq<byte>, rest: seq<seq<byte>>)
    requires !c.seeded && c.connected && Uniform(h)
    requires s != [] && HandleSeed(c.k, s).OldSeed? && rest != [] && NoneEmpty(rest)
    requires OnlyLastRejected(h, c.(seeded := true), Frame(c.k, Strict(c), s + Flatten(rest)).pkts)
    ensures var c1 := c.(seeded := true);
            Same(Feed(h.rev, DeliverTo(h.rev, Link(c, []), s), rest), DeliverTo(h.rev, Link(c1, []), s + Flatten(rest)))
  {
    var c1 := c.(seeded := true);
    var t := s + Flatten(rest);
    AppendNil(s);
    AppendNil(t);
    OldSeedPump(h.rev, c, s);
    if Head(c.k, Strict(c), s, |s| - 4).Wait? {
      FeedWhole(h, Link(c1, s), rest);
    } else {
      ConsParts(s, rest);
      FeedWhole(h, Link(c1, []), [s] + rest);
    }
  }

  lemma OldSeedWhole(h: Handling, c: Con, t: seq<byte>)
    requires !c.seeded && c.connected && |t| > 4 && HandleSeed(c.k, t).OldSeed?
    requires !SeedGap(c.k, Strict(c), t)
    ensures DeliverTo(h.rev, Link(c, []), t) == DeliverTo(h.rev, Link(c.(seeded := true), []), t)
  {
    AppendNil(t);
    OldSeedPump(h.rev, c, t);
    if Head(c.k, Strict(c), t, |t| - 4).Wait? {
      PumpStops(h.rev, c.(seeded := true), t);
    }
  }

  lemma NoSeedPump(rev: Handler, c: Con, s: seq<byte>)
    requires !c.seeded && s != [] && (HandleSeed(c.k, s).NoSeed? || HandleSeed(c.k, s).ZeroSeed?)
    ensures Pump(rev, c, s) == (if HandleSeed(c.k, s).ZeroSeed? then Disc(c) else c, 0)
  {
  }

  lemma SeedExtends(k: CharKind, s: seq<byte>, t: seq<byte>)
    requires s != [] && !HandleSeed(k, s).NoSeed?
    ensures HandleSeed(k, s + t) == HandleSeed(k, s)
  {
    if |s| >= 4 {
      assert (s + t)[..4] == s[..4];
    }
  }

  /** What a stream t on the unseeded connection c must satisfy to survive any cut. */
  ghost predicate OldSeedSafe(h: Handling, c: Con, t: seq<byte>) {
    && t != [] && !HandleSeed(c.k, t).NewSeed? && !SeedGap(c.k, Strict(c), t)
    && OnlyLastRejected(h, c.(seeded := true), Frame(c.k, Strict(c), t).pkts)
  }

  /** The event in which the seed is read: the rest of the stream follows in later events. */
  lemma SeedEvent(h: Handling, c: Con, u: seq<byte>, rest: seq<seq<byte>>, t: seq<byte>)
    requires !c.seeded && c.connected && Uniform(h) && OldSeedSafe(h, c, t)
    requires |u| >= 4 && NoneEmpty(rest) && t == u + Flatten(rest)
    ensures Same(Feed(h.rev, DeliverTo(h.rev, Link(c, []), u), rest), DeliverTo(h.rev, Link(c, []), t))
  {
    AppendNil(u);
    AppendNil(t);
    SeedExtends(c.k, u, Flatten(rest));
    if HandleSeed(c.k, u).ZeroSeed? {
      NoSeedPump(h.rev, c, u);
      NoSeedPump(h.rev, c, t);
      FeedClosed(h.rev, DeliverTo(h.rev, Link(c, []), u), rest);
    } else if rest != [] {
      OldSeedFirst(h, c, u, rest);
      OldSeedWhole(h, c, t);
    }
  }

  lemma RetainedCounts(rev: Handler, c: Con, buf: seq<byte>, x: seq<byte>)
    ensures c.connected ==> DeliverTo(rev, Link(c, buf), x) == DeliverTo(rev, Link(c, []), buf + x)
  {
    AppendNil(buf + x);
  }

  lemma ShortEvent(rev: Handler, c: Con, u: seq<byte>, more: seq<byte>)
    requires !c.seeded && c.connected && u != [] && |u| < 4 && !HandleSeed(c.k, u + more).NewSeed?
    ensures DeliverTo(rev, Link(c, []), u) == Link(c, u)
  {
    AppendNil(u);
    NoSeedPump(rev, c, u);
  }

  lemma FeedFirst(rev: Handler, l: Link, chunks: seq<seq<byte>>, m: Link, w: Link)
    requires chunks != [] && m == DeliverTo(rev, l, chunks[0]) && Same(Feed(rev, m, chunks[1..]), w)
    ensures Same(Feed(rev, l, chunks), w)
  {
  }

  lemma {:induction false} OldSeedFeed(h: Handling, c: Con, buf: seq<byte>, chunks: seq<seq<byte>>, t: seq<byte>)
    requires !c.seeded && c.connected && Uniform(h) && OldSeedSafe(h, c, t)
    requires chunks != [] && NoneEmpty(chunks) && |buf| < 4 && t == buf + Flatten(chunks)
    ensures Same(Feed(h.rev, Link(c, buf), chunks), DeliverTo(h.rev, Link(c, []), t))
    decreases |chunks|
  {
    var x, rest := chunks[0], chunks[1..];
    var u, w := buf + x, DeliverTo(h.rev, Link(c, []), t);
    var m := DeliverTo(h.rev, Link(c, buf), x);
    Assoc(buf, x, Flatten(rest));
    RetainedCounts(h.rev, c, buf, x);
    assert Same(Feed(h.rev, m, rest), w) by {
      if |u| >= 4 {
        SeedEvent(h, c, u, rest, t);
      } else {
        ShortEvent(h.rev, c, u, Flatten(rest));
        if rest == [] {
          AppendNil(u);
        } else {
          OldSeedFeed(h, c, u, rest, t);
        }
      }
    }
    FeedFirst(h.rev, Link(c, buf), chunks, m, w);
  }

  lemma OldSeedIf(h: Handling, c: Con, s: seq<byte>)
    requires !c.seeded && c.connected && Uniform(h)
    requires s != [] && !HandleSeed(c.k, s).NewSeed? && !SeedGap(c.k, Strict(c), s)
    requires OnlyLastRejected(h, c.(seeded := true), Frame(c.k, Strict(c), s).pkts)
    ensures CutProof(h, c, s)
  {
    AppendNil(s);
    forall chunks: seq<seq<byte>> | chunks != [] && NoneEmpty(chunks) && Flatten(chunks) == s
      ensures Same(Feed(h.rev, Link(c, []), chunks), DeliverTo(h.rev, Link(c, []), s))
    {
      OldSeedFeed(h, c, [], chunks, s);
    }
  }

  lemma SeedApart(h: Handling, c: Con, s: seq<byte>)
    requires !c.seeded && c.connected && |s| > 4 && HandleSeed(c.k, s).OldSeed? && Uniform(h)
    ensures Feed(h.rev, Link(c, []), [s[..4], s[4..]]) == DeliverTo(h.rev, Link(c.(seeded := true), []), s)
  {
    var c1 := c.(seeded := true);
    AppendNil(s[..4]);
    AppendNil(s);
    Cut(s, 4);
    OldSeedPump(h.rev, c, s[..4]);
    FeedTwo(h.rev, Link(c, []), s[..4], s[4..]);
  }

  lemma OldSeedOnlyIf(h: Handling, c: Con, s: seq<byte>)
    requires !c.seeded && c.connected && Uniform(h) && s != [] && SeedGap(c.k, Strict(c), s)
    ensures !CutProof(h, c, s)
  {
    var c1 := c.(seeded := true);
    var f := Frame(c.k, Strict(c), s);
    SeedApart(h, c, s);
    AppendNil(s);
    OldSeedPump(h.rev, c, s);
    PumpIsFrame(h, c1, s);
    FrameStep(c.k, Strict(c), s);
    RevAllKeeps(h, c1, f.pkts);
    CountUnclosed(h, c1, f.pkts);
    FeedTwo(h.rev, Link(c, []), s[..4], s[4..]);
    Cut(s, 4);
    CutShows(h, c, s, [s[..4], s[4..]]);
  }

  lemma FeedThree(rev: Handler, l: Link, a: seq<byte>, b: seq<byte>, d: seq<byte>)
    ensures Feed(rev, l, [a, b, d]) == DeliverTo(rev, DeliverTo(rev, DeliverTo(rev, l, a), b), d)
    ensures Flatten([a, b, d]) == a + (b + d)
    ensures a != [] && b != [] && d != [] ==> NoneEmpty([a, b, d])
  {
    var chunks := [a, b, d];
    assert chunks[1..] == [b, d];
    FeedTwo(rev, DeliverTo(rev, l, a), b, d);
  }

  /** A cut behind packet i and past the seed, in front of the end of the next packet. */
  lemma CutPastSeed(k: CharKind, strict: bool, s: seq<byte>, i: nat) returns (a: seq<byte>, b: seq<byte>)
    requires |s| >= 6 && i + 1 < |Frame(k, strict, s).pkts|
    ensures |a| > 4 && b != [] && a + b == s
    ensures var ps := Frame(k, strict, a).pkts; |ps| == i + 1 && ps[|ps| - 1] == Frame(k, strict, s).pkts[i]
  {
    var a0, b0 := FrameCut(k, strict, s, i + 1);
    FrameCutLong(k, strict, s, i + 1, a0);
    var n := if |a0| < 5 then 5 - |a0| else 0;
    a, b := a0 + b0[..n], b0[n..];
    Cut(b0, n);
    Assoc(a0, b0[..n], b0[n..]);
    FewMore(k, strict, a0, Frame(k, strict, s).pkts[..i + 1], b0[..n]);
  }

  /** Two more bytes behind complete packets make no packet. */
  lemma FewMore(k: CharKind, strict: bool, a: seq<byte>, ps: seq<seq<byte>>, x: seq<byte>)
    requires Frame(k, strict, a) == Framed(ps, [], false) && |x| < 3
    ensures Frame(k, strict, a + x).pkts == ps
  {
    FrameAppend(k, strict, a, x);
    FrameStep(k, strict, x);
    AppendNil(x);
    AppendNil(ps);
  }

  lemma FrameCutLong(k: CharKind, strict: bool, s: seq<byte>, i: nat, a: seq<byte>)
    requires 0 < i <= |Frame(k, strict, s).pkts|
    requires Frame(k, strict, a) == Framed(Frame(k, strict, s).pkts[..i], [], false)
    ensures |a| >= 3
  {
    FrameSplits(k, strict, a);
  }

  /** The last packet of a is rejected: the connection is closed, all of a handed over. */
  lemma ClosedBehind(h: Handling, c: Con, a: seq<byte>)
    requires c.seeded && c.connected && Uniform(h)
    requires var ps := Frame(c.k, Strict(c), a).pkts; ps != [] && h.rejects(c, ps[|ps| - 1])
    ensures var m := DeliverTo(h.rev, Link(c, []), a);
            !m.con.connected && h.count(m.con) == h.count(c) + |Frame(c.k, Strict(c), a).pkts|
  {
    var ps := Frame(c.k, Strict(c), a).pkts;
    AppendNil(a);
    DeliverSeeded(h, Link(c, []), a);
    RevAllKeeps(h, c, ps);
    CountUnclosed(h, c, ps);
  }

  lemma SeedApartThenMore(h: Handling, c: Con, a: seq<byte>, b: seq<byte>)
    requires !c.seeded && c.connected && |a| > 4 && HandleSeed(c.k, a).OldSeed? && Uniform(h) && b != []
    requires !DeliverTo(h.rev, Link(c.(seeded := true), []), a).con.connected
    ensures Feed(h.rev, Link(c, []), [a[..4], a[4..], b]) == DeliverTo(h.rev, Link(c.(seeded := true), []), a)
    ensures Flatten([a[..4], a[4..], b]) == a + b && NoneEmpty([a[..4], a[4..], b])
  {
    SeedApart(h, c, a);
    FeedTwo(h.rev, Link(c, []), a[..4], a[4..]);
    FeedThree(h.rev, Link(c, []), a[..4], a[4..], b);
    Cut(a, 4);
    Assoc(a[..4], a[4..], b);
  }

  lemma WholeCounts(h: Handling, c: Con, s: seq<byte>)
    requires c.seeded && c.connected && Uniform(h)
    ensures h.count(DeliverTo(h.rev, Link(c, []), s).con) == h.count(c) + |Frame(c.k, Strict(c), s).pkts|
  {
    AppendNil(s);
    DeliverSeeded(h, Link(c, []), s);
    RevAllKeeps(h, c, Frame(c.k, Strict(c), s).pkts);
    CountUnclosed(h, c, Frame(c.k, Strict(c), s).pkts);
  }

  /** If the whole stream came to x, then not also to y: two cuts that end differently. */
  lemma TwoCutsShow(h: Handling, c: Con, s: seq<byte>, x: seq<seq<byte>>, y: seq<seq<byte>>)
    requires x != [] && NoneEmpty(x) && Flatten(x) == s && y != [] && NoneEmpty(y) && Flatten(y) == s
    requires Feed(h.rev, Link(c, []), x).con != Feed(h.rev, Link(c, []), y).con
    ensures !CutProof(h, c, s)
  {
    if Same(Feed(h.rev, Link(c, []), x), DeliverTo(h.rev, Link(c, []), s)) {
      CutShows(h, c, s, y);
    } else {
      CutShows(h, c, s, x);
    }
  }

  lemma OldSeedRejected(h: Handling, c: Con, s: seq<byte>, i: nat)
    requires !c.seeded && c.connected && Uniform(h) && |s| >= 6 && HandleSeed(c.k, s).OldSeed?
    requires var ps := Frame(c.k, Strict(c), s).pkts; i + 1 < |ps| && h.rejects(c.(seeded := true), ps[i])
    ensures !CutProof(h, c, s)
  {
    var a, b := ClosingCut(h, c.(seeded := true), s, i);
    OldSeedDiffers(h, c, s, a, b);
  }

  lemma ClosingCut(h: Handling, c: Con, s: seq<byte>, i: nat) returns (a: seq<byte>, b: seq<byte>)
    requires c.seeded && c.connected && Uniform(h) && |s| >= 6
    requires var ps := Frame(c.k, Strict(c), s).pkts; i + 1 < |ps| && h.rejects(c, ps[i])
    ensures |a| > 4 && b != [] && a + b == s
    ensures var m := DeliverTo(h.rev, Link(c, []), a);
            !m.con.connected && h.count(m.con) == h.count(c) + i + 1
  {
    a, b := CutPastSeed(c.k, Strict(c), s, i);
    ClosedBehind(h, c, a);
  }

  lemma OldSeedDiffers(h: Handling, c: Con, s: seq<byte>, a: seq<byte>, b: seq<byte>)
    requires !c.seeded && c.connected && Uniform(h) && |a| > 4 && b != [] && a + b == s
    requires HandleSeed(c.k, s).OldSeed?
    requires var m := DeliverTo(h.rev, Link(c.(seeded := true), []), a);
             !m.con.connected && h.count(m.con) < h.count(c.(seeded := true)) + |Frame(c.k, Strict(c), s).pkts|
    ensures !CutProof(h, c, s)
  {
    SeedPrefix(c.k, a, b);
    WholeCounts(h, c.(seeded := true), s);
    SeedApart(h, c, s);
    SeedApartThenMore(h, c, a, b);
    FeedTwo(h.rev, Link(c, []), s[..4], s[4..]);
    Cut(s, 4);
    TwoCutsShow(h, c, s, [s[..4], s[4..]], [a[..4], a[4..], b]);
  }

  lemma SeedPrefix(k: CharKind, a: seq<byte>, b: seq<byte>)
    requires |a| > 4
    ensures HandleSeed(k, a) == HandleSeed(k, a + b)
  {
    assert (a + b)[..4] == a[..4];
  }

  /** A fresh connection whose stream starts with an old-style seed can be cut anywhere if and
      only if the stream could be cut anywhere once seeded and its length does not fall into
      the gap of four bytes. */
  lemma OldSeedExact(h: Handling, c: Con, s: seq<byte>)
    requires !c.seeded && c.connected && Uniform(h)
    requires s != [] && !HandleSeed(c.k, s).NewSeed?
    ensures CutProof(h, c, s) <==>
            && OnlyLastRejected(h, c.(seeded := true), Frame(c.k, Strict(c), s).pkts)
            && !SeedGap(c.k, Strict(c), s)
  {
    var ps := Frame(c.k, Strict(c), s).pkts;
    if !OnlyLastRejected(h, c.(seeded := true), ps) {
      var i := RejectedInside(h, c.(seeded := true), ps);
      TwoPacketsSeed(c.k, Strict(c), s);
      OldSeedRejected(h, c, s, i);
    } else if SeedGap(c.k, Strict(c), s) {
      OldSeedOnlyIf(h, c, s);
    } else {
      OldSeedIf(h, c, s);
    }
  }

  lemma ZeroSeedFrame(k: CharKind, strict: bool, s: seq<byte>)
    requires |s| >= 4 && s[..4] == [0, 0, 0, 0]
    ensures Frame(k, strict, s).pkts == []
  {
    assert s[1] == s[..4][1] && s[2] == s[..4][2];
    FrameStep(k, strict, s);
  }

  /** Bytes framed into two packets or more are six at least, and not a zero seed. */
  lemma TwoPacketsSeed(k: CharKind, strict: bool, s: seq<byte>)
    requires |Frame(k, strict, s).pkts| >= 2 && !HandleSeed(k, s).NewSeed?
    ensures |s| >= 6 && HandleSeed(k, s).OldSeed?
  {
    FrameSplits(k, strict, s);
    FrameStep(k, strict, s);
    if |s| >= 4 && s[..4] == [0, 0, 0, 0] {
      ZeroSeedFrame(k, strict, s);
    }
  }
}
