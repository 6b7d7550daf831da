/** Chunking independence of the client connection, and exactly where it ends. */
module ClientStream {
  import opened Bytes
  import opened Proto
  import opened Framing
  import opened ExternalCon
  import opened ExternalRuns
  import opened Chunking

  // ---- RevPacket as a handler ---------------------------------------------------------

  /** No server is responsible for a command: it has no group and there is no default group, or
      its group is 0 and no server was set for that. */
  predicate Unroutable(env: Env, routes: seq<U16>, cmd: U16) {
    if cmd in env.cmd2Grp then env.cmd2Grp[cmd] == 0 && (routes == [] || routes[0] == 0)
    else env.seting.defaultGrp == 0
  }

  /** A packet that closes the connection: of a client not asked about yet one that could be
      forwarded when there is no verify server; of a verified client one that is no heartbeat
      and that no server is responsible for. A packet for a server that is not there does not. */
  predicate Rejects(env: Env, c: Con, p: seq<byte>) {
    4 <= |p| &&
    var cmd := CharToU32(c.k, p[0]);
    match c.phase
    case Init => env.verifySvr.None? && cmd != 0 && |p| % 0x1_0000 < 4096
    case WaitVerify => false
    case Verifyed =>
      && (env.seting.hbi.reqCmd == 0 || cmd != env.seting.hbi.reqCmd)
      && Unroutable(env, c.routes, cmd % 0x1_0000)
  }

  lemma UnroutableIs(env: Env, routes: seq<U16>, cmd: U16)
    ensures ChooseSvr(env, routes, cmd) == 0 <==> Unroutable(env, routes, cmd)
  {
  }

  lemma RejectsIs(env: Env, c: Con, p: seq<byte>)
    ensures Rejects(env, c, p) <==> PacketFate(env, c, p).Hopeless?
  {
    if |p| >= 4 {
      UnroutableIs(env, c.routes, CharToU32(c.k, p[0]) % 0x1_0000);
    }
  }

  function Client(env: Env): Handling {
    Handling(RevPacketIn(env), (c: Con, p: seq<byte>) => Rejects(env, c, p), (c: Con) => Recount(c.log).dispatched)
  }

  lemma CarriedFacts(c: Con, f: Fate)
    ensures var d := Carried(c, f); Kept(c, d) && d.connected == (c.connected && !f.Hopeless?)
  {
    CarriedKept(c, f);
  }

  lemma AskedFacts(c: Con, f: Fate)
    requires !f.Beat?
    ensures var d := Asked(c, f);
            && d.k == c.k && d.cid == c.cid && d.routes == c.routes && d.seeded == c.seeded
            && d.phase == (if f.Sent? then WaitVerify else c.phase)
            && d.connected == (c.connected && !f.Hopeless?)
  {
  }

  lemma ActedFacts(c: Con, f: Fate)
    requires (c.phase.Init? ==> !f.Beat?) && (c.phase.WaitVerify? ==> f == Dropped)
    ensures var d := Acted(c, f);
            && d.k == c.k && d.cid == c.cid && d.routes == c.routes && d.seeded == c.seeded
            && d.phase == (if c.phase.Init? && f.Sent? then WaitVerify else c.phase)
            && d.connected == (c.connected && !f.Hopeless?)
  {
    match c.phase {
      case Init => AskedFacts(c, f);
      case WaitVerify =>
      case Verifyed => CarriedFacts(c, f);
    }
  }

  lemma EntriesCount(log: seq<Entry>, f: Fate)
    ensures Recount(log + EntryOf(f)).dispatched == Recount(log).dispatched
  {
    AppendNil(log);
    match f {
      case Sent(svr, pack) => RecountSnoc(log, Forwarded(svr, pack));
      case Beat(pack) => RecountSnoc(log, ToClient(Echo, pack));
      case Dropped =>
      case Hopeless =>
    }
  }

  lemma AskedCounts(c: Con, f: Fate)
    requires !f.Beat?
    ensures Recount(Asked(c, f).log).dispatched == Recount(c.log).dispatched
  {
    if f.Sent? {
      RecountSnoc(c.log, VerifyReq(f.svr, f.pack));
    }
  }

  lemma ActedCounts(c: Con, f: Fate)
    requires c.phase.Init? ==> !f.Beat?
    ensures Recount(Acted(c, f).log).dispatched == Recount(c.log).dispatched
  {
    match c.phase {
      case Init => AskedCounts(c, f);
      case WaitVerify =>
      case Verifyed =>
        CarriedLog(c, f);
        EntriesCount(c.log, f);
    }
  }

  lemma RejectsStays(env: Env, c: Con, d: Con, p: seq<byte>, q: seq<byte>)
    requires d.k == c.k && d.cid == c.cid && d.routes == c.routes
    requires d.phase == (if c.phase.Init? && PacketFate(env, c, p).Sent? then WaitVerify else c.phase)
    ensures Rejects(env, d, q) == Rejects(env, c, q)
  {
    RejectsIs(env, c, p);
  }

  lemma RevKeeps(env: Env, c: Con, p: seq<byte>)
    ensures var d := RevPacket(env, c, p);
            && d.k == c.k && d.seeded == c.seeded && Strict(d) == Strict(c)
            && d.connected == (c.connected && !Rejects(env, c, p))
            && Recount(d.log).dispatched == Recount(c.log).dispatched + 1
            && forall q :: Rejects(env, d, q) == Rejects(env, c, q)
  {
    var f := PacketFate(env, c, p);
    RejectsIs(env, c, p);
    RecountSnoc(c.log, Dispatched(p));
    ActedFacts(Noted(c, p), f);
    ActedCounts(Noted(c, p), f);
    forall q ensures Rejects(env, RevPacket(env, c, p), q) == Rejects(env, c, q) {
      RejectsStays(env, c, RevPacket(env, c, p), p, q);
    }
  }

  /** Which packets a connected client may send and stay connected. */
  lemma StaysConnected(env: Env, c: Con, p: seq<byte>)
    requires c.connected
    ensures RevPacket(env, c, p).connected <==> !Rejects(env, c, p)
  {
    RevKeeps(env, c, p);
  }

  lemma ClientUniform(env: Env)
    ensures Uniform(Client(env))
  {
    var h := Client(env);
    forall c, p
      ensures SameEyes(h, c, h.rev(c, p))
      ensures h.rev(c, p).connected == (c.connected && !h.rejects(c, p))
      ensures h.count(h.rev(c, p)) == h.count(c) + 1
    {
      RevKeeps(env, c, p);
    }
  }

  // ---- what a stream comes to ---------------------------------------------------------

  lemma HandedEntries(log: seq<Entry>, f: Fate)
    ensures Handed(log + EntryOf(f)) == Handed(log)
  {
    AppendNil(log);
    AppendNil(Handed(log));
    match f {
      case Sent(svr, pack) => HandedSnoc(log, Forwarded(svr, pack));
      case Beat(pack) => HandedSnoc(log, ToClient(Echo, pack));
      case Dropped =>
      case Hopeless =>
    }
  }

  lemma CarriedHanded(c: Con, f: Fate)
    ensures Handed(Carried(c, f).log) == Handed(c.log)
  {
    CarriedLog(c, f);
    HandedEntries(c.log, f);
  }

  lemma AskedHanded(c: Con, f: Fate)
    requires !f.Beat?
    ensures Handed(Asked(c, f).log) == Handed(c.log)
  {
    AppendNil(Handed(c.log));
    match f {
      case Sent(svr, pack) => HandedSnoc(c.log, VerifyReq(svr, pack));
      case Dropped =>
      case Hopeless =>
    }
  }

  lemma ActedHanded(c: Con, f: Fate)
    requires c.phase.Init? ==> !f.Beat?
    ensures Handed(Acted(c, f).log) == Handed(c.log)
  {
    CarriedHanded(c, f);
    if !f.Beat? {
      AskedHanded(c, f);
    }
  }

  lemma RevHands(env: Env, c: Con, p: seq<byte>)
    ensures Handed(RevPacket(env, c, p).log) == Handed(c.log) + [p]
  {
    HandedSnoc(c.log, Dispatched(p));
    ActedHanded(Noted(c, p), PacketFate(env, c, p));
  }

  lemma {:induction false} RevAllHands(h: Handling, c: Con, ps: seq<seq<byte>>)
    requires forall d, p :: Handed(h.rev(d, p).log) == Handed(d.log) + [p]
    ensures Handed(RevAll(h, c, ps).log) == Handed(c.log) + ps
    decreases |ps|
  {
    if ps == [] {
      AppendNil(Handed(c.log));
    } else {
      RevAllHands(h, h.rev(c, ps[0]), ps[1..]);
      Assoc(Handed(c.log), [ps[0]], ps[1..]);
      Cut(ps, 1);
      assert ps[..1] == [ps[0]];
    }
  }

  /** One receive event on a seeded connection hands over exactly the packets the bytes are
      framed into, consumes and returns their total length, retains exactly the unframed
      rest, and closes the connection for a framing error or a rejected packet only. */
  lemma StreamOutcome(env: Env, c: Con, s: seq<byte>, f: Framed, l: Link)
    requires c.seeded && c.connected && f == Frame(c.k, Strict(c), s) && l == Deliver(env, Link(c, []), s)
    ensures Flatten(f.pkts) + f.rest == s
    ensures Handed(l.con.log) == Handed(c.log) + f.pkts
    ensures OnRawRecv(env, c, s).1 == |Flatten(f.pkts)|
    ensures l.buf == f.rest
    ensures l.con.connected <==> !f.bad && NoneRejected(Client(env), c, f.pkts)
  {
    var h := Client(env);
    ClientUniform(env);
    FrameSplits(c.k, Strict(c), s);
    AppendNil(s);
    DeliverSeeded(h, Link(c, []), s);
    PumpIsFrame(h, c, s);
    RevAllKeeps(h, c, f.pkts);
    forall d, p ensures Handed(h.rev(d, p).log) == Handed(d.log) + [p] {
      RevHands(env, d, p);
    }
    RevAllHands(h, c, f.pkts);
  }

  /** Packets whose bytes 1 and 2 hold their own big-endian length, sent back to back by a
      verified client, are handed over one by one and consumed to the last byte. */
  lemma PacketsComeThrough(env: Env, c: Con, ps: seq<seq<byte>>)
    requires c.seeded && c.connected && c.phase.Verifyed? && c.k == UnsignedChar
    requires forall i :: 0 <= i < |ps| ==> |ps[i]| >= 3 && |ps[i]| == BigEndian(ps[i][1], ps[i][2])
    ensures var (d, n) := OnRawRecv(env, c, Flatten(ps));
            n == |Flatten(ps)| && Handed(d.log) == Handed(c.log) + ps
  {
    FramerInverse(ps);
    AppendNil(Flatten(ps));
    StreamOutcome(env, c, Flatten(ps), Framed(ps, [], false), Deliver(env, Link(c, []), Flatten(ps)));
  }

  /** Chunking independence and its exact limit. A stream on a seeded connection may be cut
      anywhere if and only if no packet but the last is one that makes RevPacket close the
      connection, because OnRawRecv goes on with the rest of its buffer after that. */
  lemma ChunkingExact(env: Env, c: Con, s: seq<byte>)
    requires c.seeded && c.connected
    ensures CutProof(Client(env), c, s) <==> OnlyLastRejected(Client(env), c, Frame(c.k, Strict(c), s).pkts)
  {
    ClientUniform(env);
    CutProofExact(Client(env), c, s);
  }

  /** The same for a fresh connection whose stream starts with 0xEF, as char reads it. */
  lemma FreshChunkingExact(env: Env, c: Con, s: seq<byte>)
    requires !c.seeded && c.connected && s != [] && CharVal(c.k, s[0]) == 0xEF
    ensures CutProof(Client(env), c, s) <==>
            OnlyLastRejected(Client(env), c.(seeded := true), Frame(c.k, Strict(c), s).pkts)
  {
    ClientUniform(env);
    NewSeedExact(Client(env), c, s);
  }

  /** Any other first byte starts a four-byte seed: such a stream can be cut anywhere if and
      only if it could be once seeded and its length misses the gap. */
  lemma SeedChunkingExact(env: Env, c: Con, s: seq<byte>)
    requires !c.seeded && c.connected && s != [] && CharVal(c.k, s[0]) != 0xEF
    ensures CutProof(Client(env), c, s) <==>
            && OnlyLastRejected(Client(env), c.(seeded := true), Frame(c.k, Strict(c), s).pkts)
            && !SeedGap(c.k, Strict(c), s)
  {
    ClientUniform(env);
    OldSeedExact(Client(env), c, s);
  }

  // ---- streams that cannot be cut -----------------------------------------------------

  const NO_SETING := AccSeting(HeartBeat(0, 0, 0), ClientLimit(0xFFFF_FFFF, 0, []), 0, 0)

  /** No server anywhere, and no default group. */
  const NOBODY := Env(NO_SETING, map[], map[], None, 1)

  /** One server that verifies, and that is the default group. */
  const ONE_SERVER := Env(NO_SETING.(defaultGrp := 7), map[], map[7 := true], Some(7), 1)

  /** A first packet, and the verdict on it. */
  const LOGIN: seq<Event> := [Recv(ONE_SERVER, [0xEF, 0, 4, 9]), VerdictReq(ONE_SERVER, VerifyRet(1, true, 0, [], NO_CLIENT_MSG), Zeros(16))]

  lemma RunTwo(l: Link, a: Event, b: Event)
    ensures Run(l, [a, b]) == Step(Step(l, a), b)
  {
    assert [a, b][..1] == [a] && [a][..0] == [];
    assert Run(l, [a]) == Step(Run(l, []), a);
  }

  /** A receive event that brings exactly one packet. */
  lemma OnePacket(env: Env, l: Link, s: seq<byte>, c: Con)
    requires l.con.connected && l.buf == [] && s != [] && ParsePacket(l.con, s) == (c, |s|)
    ensures Deliver(env, l, s) == Link(RevPacket(env, c, s), [])
  {
    var rev := RevPacketIn(env);
    AppendNil(s);
    PumpPacket(rev, l.con, s);
    assert s[..|s|] == s && s[|s|..] == [];
    assert ParsePacket(RevPacket(env, c, s), []) == (RevPacket(env, c, s), 0);
  }

  /** What a first packet starts: the verify server is asked. */
  lemma FirstPacketSent()
    ensures var l := Step(Start(UnsignedChar, 1, ONE_SERVER), LOGIN[0]);
            && l.buf == [] && l.con.phase.WaitVerify? && l.con.seeded && l.con.connected
            && l.con.k.UnsignedChar? && l.con.cid == 1 && l.con.routes == [] && !l.con.caching && l.con.cache == []
  {
    var s: seq<byte> := [0xEF, 0, 4, 9];
    var c := Fresh(UnsignedChar, 1);
    assert Head(UnsignedChar, true, s, 4) == Packet(4);
    assert ParsePacket(c, s) == (c.(seeded := true), 4);
    OnePacket(ONE_SERVER, Link(c, []), s, c.(seeded := true));
    assert AskFate(ONE_SERVER, UnsignedChar, 1, s).Sent?;
  }

  /** A verified client is the outcome of a run. */
  lemma LoggedIn()
    ensures var l := Run(Start(UnsignedChar, 1, ONE_SERVER), LOGIN);
            && l.buf == [] && l.con.phase.Verifyed? && l.con.seeded && l.con.connected
            && l.con.k.UnsignedChar? && l.con.cid == 1 && l.con.routes == [] && !l.con.caching && l.con.cache == []
  {
    RunTwo(Start(UnsignedChar, 1, ONE_SERVER), LOGIN[0], LOGIN[1]);
    FirstPacketSent();
  }

  lemma TwoPackets(k: CharKind, p: seq<byte>)
    requires IsPacket(k, false, p)
    ensures Frame(k, false, p + p).pkts == [p, p]
  {
    var none: seq<byte> := [];
    assert Frame(k, false, none).pkts == [];
    FrameCons(k, false, p, none);
    AppendNil(p);
    FrameCons(k, false, p, p);
  }

  /** A client that logs in, then sends two packets of four bytes that no server takes any more:
      cut in the middle, the second one is never handed over; received at once, it is. */
  lemma TwoUnroutable(c: Con)
    requires c == Run(Start(UnsignedChar, 1, ONE_SERVER), LOGIN).con
    ensures var p := [1, 0, 4, 9];
            Frame(c.k, Strict(c), p + p).pkts == [p, p] && !CutProof(Client(NOBODY), c, p + p)
  {
    var p: seq<byte> := [1, 0, 4, 9];
    LoggedIn();
    assert IsPacket(UnsignedChar, false, p);
    assert Rejects(NOBODY, c, p);
    TwoPackets(UnsignedChar, p);
    RejectedTwice(NOBODY, c, p);
  }

  lemma RejectedTwice(env: Env, c: Con, p: seq<byte>)
    requires c.seeded && c.connected && c.phase.Verifyed? && Rejects(env, c, p)
    requires Frame(c.k, false, p + p).pkts == [p, p]
    ensures !CutProof(Client(env), c, p + p)
  {
    ChunkingExact(env, c, p + p);
    assert [p, p][..1][0] == p;
    assert Client(env).rejects(c, [p, p][..1][0]);
  }

  /** A fresh client whose first packet has five bytes: received at once, it is taken for
      incomplete; after its first four bytes the fifth completes it. */
  lemma FirstPacketInGap()
    ensures SeedGap(UnsignedChar, true, [0x80, 0, 5, 1, 2])
    ensures !CutProof(Client(NOBODY), Fresh(UnsignedChar, 1), [0x80, 0, 5, 1, 2])
  {
    var s: seq<byte> := [0x80, 0, 5, 1, 2];
    var c := Fresh(UnsignedChar, 1);
    assert HandleSeed(UnsignedChar, s).OldSeed?;
    assert Head(UnsignedChar, true, s, 5) == Packet(5);
    ClientUniform(NOBODY);
    OldSeedOnlyIf(Client(NOBODY), c, s);
  }
}
