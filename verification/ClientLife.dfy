/** The whole life of a client connection as the user of one server hears it: every pack that the
    access server sends about the client to that server, in order, and what its driver makes of it. */
module ClientLife {
  import opened Bytes
  import opened Proto
  import opened Framing
  import opened ExternalCon
  import opened ExternalRuns
  import opened InnerCon
  import opened Chunking
  import opened ClientStream
  import opened ClientTrace
  import opened EndToEnd
  import opened ClientPause
  import opened Hearing
  import D = Driver

  // ---- what one receive event hands over ----------------------------------------------------

  /** The packets of one receive event, whether or not the connection read its seed yet. */
  function Packets(c: Con, s: seq<byte>): seq<seq<byte>> {
    if s == [] then []
    else if c.seeded || CharVal(c.k, s[0]) == 0xEF then Frame(c.k, Strict(c), s).pkts
    else if |s| >= 4 && s[..4] != [0, 0, 0, 0] && !Head(c.k, Strict(c), s, |s| - 4).Wait? then Frame(c.k, Strict(c), s).pkts
    else []
  }

  lemma FramedOutcome(env: Env, c: Con, s: seq<byte>)
    requires c.seeded
    ensures var d, r := Pump(RevPacketIn(env), c, s).0, RevAll(Client(env), c, Frame(c.k, Strict(c), s).pkts);
            d == r || d == Disc(r)
  {
    ClientUniform(env);
    PumpIsFrame(Client(env), c, s);
  }

  /** d is r as far as the packets handed over have changed it. */
  predicate SameDeeds(d: Con, r: Con) {
    d.log == r.log && d.phase == r.phase && d.cache == r.cache
  }

  lemma SeededOutcome(env: Env, c: Con, s: seq<byte>)
    requires c.seeded
    ensures SameDeeds(Pump(RevPacketIn(env), c, s).0, RevAll(Client(env), c, Frame(c.k, Strict(c), s).pkts))
  {
    FramedOutcome(env, c, s);
  }

  lemma NewSeedOutcome(env: Env, c: Con, s: seq<byte>)
    requires !c.seeded && s != [] && HandleSeed(c.k, s).NewSeed?
    ensures SameDeeds(OnRawRecv(env, c, s).0, RevAll(Client(env), c.(seeded := true), Frame(c.k, Strict(c), s).pkts))
  {
    NewSeedPump(RevPacketIn(env), c, s);
    SeededOutcome(env, c.(seeded := true), s);
  }

  lemma OldSeedOutcome(env: Env, c: Con, s: seq<byte>)
    requires !c.seeded && s != [] && HandleSeed(c.k, s).OldSeed?
    ensures var c1 := c.(seeded := true);
            SameDeeds(OnRawRecv(env, c, s).0,
                      if Head(c.k, Strict(c), s, |s| - 4).Wait? then c1
                      else RevAll(Client(env), c1, Frame(c.k, Strict(c), s).pkts))
  {
    OldSeedPump(RevPacketIn(env), c, s);
    SeededOutcome(env, c.(seeded := true), s);
  }

  lemma NoSeedOutcome(env: Env, c: Con, s: seq<byte>)
    requires !c.seeded && s != [] && (HandleSeed(c.k, s).NoSeed? || HandleSeed(c.k, s).ZeroSeed?)
    ensures SameDeeds(OnRawRecv(env, c, s).0, c)
  {
    NoSeedPump(RevPacketIn(env), c, s);
  }

  lemma NothingHanded(env: Env, c: Con)
    ensures RevAll(Client(env), c, []) == c
  {
  }

  /** The packets are handed over one by one; else only the seed is noted, or the connection closed. */
  lemma RecvOutcome(env: Env, c: Con, s: seq<byte>)
    ensures SameDeeds(OnRawRecv(env, c, s).0, RevAll(Client(env), c.(seeded := true), Packets(c, s)))
  {
    NothingHanded(env, c.(seeded := true));
    if s == [] {
    } else if c.seeded {
      assert c.(seeded := true) == c;
      SeededOutcome(env, c, s);
    } else if HandleSeed(c.k, s).NewSeed? {
      NewSeedOutcome(env, c, s);
    } else if HandleSeed(c.k, s).OldSeed? {
      OldSeedOutcome(env, c, s);
    } else {
      NoSeedOutcome(env, c, s);
    }
  }

  lemma PacketsSized(c: Con, s: seq<byte>)
    ensures Sized(Packets(c, s))
  {
    FrameSplits(c.k, Strict(c), s);
    FramesAreSized(c.k, Strict(c), Frame(c.k, Strict(c), s).pkts);
  }

  // ---- the script of an event -------------------------------------------------------------------

  /** A packet that can be put to a verify server. */
  predicate Askable(k: CharKind, p: seq<byte>) {
    4 <= |p| < 4096 && CharToU32(k, p[0]) != 0
  }

  /** Of a client not asked about yet the first askable packet is put to the verify server. */
  function AskLines(env: Env, accId: nat, k: CharKind, cid: U64, me: U16, o: Slot, ps: seq<seq<byte>>): Script
    decreases |ps|
  {
    if ps == [] || env.verifySvr.None? then []
    else if !Askable(k, ps[0]) then AskLines(env, accId, k, cid, me, o, ps[1..])
    else if env.verifySvr.value != me then []
    else [AskLine(accId, k, cid, ps[0], o)]
  }

  /** Of a verified client every packet that is for server `me` is forwarded to it. */
  function TextLines(env: Env, c: Con, me: U16, o: Slot, ps: seq<seq<byte>>): Script
    decreases |ps|
  {
    if ps == [] then []
    else
      var p := ps[|ps| - 1];
      TextLines(env, c, me, o, ps[..|ps| - 1]) + (if ForwardedTo(env, c, me, p) then [ForwardLine(c.k, c.cid, p, o)] else [])
  }

  function RecvScript(env: Env, accId: nat, l: Link, chunk: seq<byte>, me: U16, o: Slot): Script {
    if !l.con.connected then []
    else match l.con.phase
      case Init => AskLines(env, accId, l.con.k, l.con.cid, me, o, Packets(l.con, l.buf + chunk))
      case WaitVerify => []
      case Verifyed => TextLines(env, l.con, me, o, ClientPackets(l.con, l.buf + chunk))
  }

  function VerdictScript(env: Env, accId: nat, c: Con, req: VerifyRet, addr: seq<byte>, me: U16, o: Slot): Script {
    if Announces(c, req, addr) && me in Registered(env) then
      [OpenLine(accId, req.cid, req.uin, req.accName + Zeros(21 - |req.accName|), addr, o)]
    else []
  }

  /** The request is answered before the buffer is flushed. */
  function CacheScript(env: Env, c: Con, from: U16, on: bool, me: U16, o: Slot): Script {
    if c.cid == 0 || !c.phase.Verifyed? then []
    else (if from == me then [CacheLine(c.cid, on, o)] else []) + (if on then [] else TextLines(env, c, me, o, c.cache))
  }

  /** What server `me` is sent in an event and what its user hears, o being what the driver's
      table holds for the client. */
  function EventScript(l: Link, e: Event, accId: nat, me: U16, o: Slot): Script {
    match e
    case Recv(env, chunk) => RecvScript(env, accId, l, chunk, me, o)
    case VerdictReq(env, req, addr) => VerdictScript(env, accId, l.con, req, addr, me, o)
    case RouteReq(from, grp, svr) =>
      if l.con.cid != 0 && l.con.phase.Verifyed? && from == me then [ActiveLine(l.con.cid, svr, grp, o)] else []
    case CacheReq(env, from, on) => CacheScript(env, l.con, from, on, me, o)
    case UinReq(env, from, uin) =>
      if l.con.cid != 0 then UinScript(env, l.con, from, uin, me, o) else []
    case RegReq(to, junk, addr) =>
      if |junk| == 21 && |addr| == 16 && l.con.phase.Verifyed? && to == me then
        [OpenLine(accId, l.con.cid, l.con.uin, junk, addr, o)]
      else []
    case _ => []
  }

  function RunScript(l: Link, es: seq<Event>, accId: nat, me: U16, o: Slot): Script
    decreases |es|
  {
    if es == [] then []
    else
      var before := RunScript(l, es[..|es| - 1], accId, me, o);
      before + EventScript(Run(l, es[..|es| - 1]), es[|es| - 1], accId, me, EndOf(o, before))
  }

  /** ... and to the end of the connection. */
  function LifeScript(l: Link, es: seq<Event>, env: Env, accId: nat, me: U16, o: Slot): Script {
    var script, c := RunScript(l, es, accId, me, o), Run(l, es).con;
    if c.phase.Verifyed? && me in Registered(env) then script + [CloseLine(c.cid, EndOf(o, script))] else script
  }

  // ---- the packs of a script are what is sent -----------------------------------------------

  lemma OnePack(line: Line)
    ensures LinePacks([line]) == [line.pack]
  {
    var none: Script := [];
    assert [line][..0] == none;
  }

  /** An entry that tells a server what a script says. */
  lemma ToldSends(log: seq<Entry>, e: Entry, me: U16, script: Script)
    requires PackFor(e, me, Everything) == LinePacks(script)
    ensures PacksTo(log + [e], me, Everything) == PacksTo(log, me, Everything) + LinePacks(script)
  {
    PacksSnoc(log, e, me, Everything);
  }

  lemma {:induction false} TextPacks(env: Env, c: Con, me: U16, o: Slot, ps: seq<seq<byte>>)
    requires Sized(ps)
    ensures LinePacks(TextLines(env, c, me, o, ps)) == PacksOf(Fates(env, c, ps), me)
    decreases |ps|
  {
    if ps != [] {
      var n := |ps| - 1;
      var before, p := TextLines(env, c, me, o, ps[..n]), ps[n];
      TextPacks(env, c, me, o, ps[..n]);
      FatesSnoc(env, c, ps);
      SentPack(env, c, me, p);
      if ForwardedTo(env, c, me, p) {
        PacksAppend(before, [ForwardLine(c.k, c.cid, p, o)]);
        OnePack(ForwardLine(c.k, c.cid, p, o));
      } else {
        AppendNil(before);
        AppendNil(LinePacks(before));
      }
    }
  }

  lemma RevWaits(env: Env, c: Con, p: seq<byte>, me: U16)
    requires c.phase.WaitVerify?
    ensures var d := RevPacket(env, c, p);
            d.phase.WaitVerify? && PacksTo(d.log, me, Everything) == PacksTo(c.log, me, Everything)
  {
    NotedPacks(c, p, me, Everything);
  }

  lemma {:induction false} AllWait(env: Env, c: Con, ps: seq<seq<byte>>, me: U16)
    requires c.phase.WaitVerify?
    ensures var d := RevAll(Client(env), c, ps);
            d.phase.WaitVerify? && PacksTo(d.log, me, Everything) == PacksTo(c.log, me, Everything)
    decreases |ps|
  {
    if ps != [] {
      RevWaits(env, c, ps[0], me);
      AllWait(env, RevPacket(env, c, ps[0]), ps[1..], me);
    }
  }

  lemma AskFateIs(env: Env, k: CharKind, cid: U64, p: seq<byte>)
    requires |p| < 0x1_0000
    ensures AskFate(env, k, cid, p) ==
            if !Askable(k, p) then Dropped
            else if env.verifySvr.None? then Hopeless
            else Sent(env.verifySvr.value, WrapPack(CMD_NTF_VERIFY_REQ, cid, CharToU32(k, p[0]), p))
  {
  }

  lemma AskedAll(c: Con, f: Fate, me: U16)
    requires !f.Beat?
    ensures PacksTo(Asked(c, f).log, me, Everything) == PacksTo(c.log, me, Everything) + PackOf(f, me)
  {
    if f.Sent? {
      PacksSnoc(c.log, VerifyReq(f.svr, f.pack), me, Everything);
    } else {
      AppendNil(PacksTo(c.log, me, Everything));
    }
  }

  lemma AskedIs(c: Con, f: Fate)
    requires c.phase.Init? && !f.Beat?
    ensures var d := Asked(c, f); d.k == c.k && d.cid == c.cid && d.phase == (if f.Sent? then WaitVerify else Init)
  {
  }

  /** A packet of a client not asked about yet. */
  lemma RevAsks(env: Env, c: Con, p: seq<byte>, me: U16)
    requires c.phase.Init? && |p| < 0x1_0000
    ensures var d, f := RevPacket(env, c, p), AskFate(env, c.k, c.cid, p);
            && d.k == c.k && d.cid == c.cid && d.phase == (if f.Sent? then WaitVerify else Init)
            && PacksTo(d.log, me, Everything) == PacksTo(c.log, me, Everything) + PackOf(f, me)
  {
    var n, f := Noted(c, p), AskFate(env, c.k, c.cid, p);
    assert RevPacket(env, c, p) == Asked(n, f);
    NotedPacks(c, p, me, Everything);
    AskedAll(n, f, me);
    AskedIs(n, f);
  }

  lemma {:induction false} AskPacks(env: Env, c: Con, ps: seq<seq<byte>>, accId: nat, me: U16, o: Slot)
    requires c.phase.Init? && Sized(ps)
    ensures PacksTo(RevAll(Client(env), c, ps).log, me, Everything) ==
            PacksTo(c.log, me, Everything) + LinePacks(AskLines(env, accId, c.k, c.cid, me, o, ps))
    decreases |ps|
  {
    AppendNil(PacksTo(c.log, me, Everything));
    if ps != [] {
      var p := ps[0];
      var d := RevPacket(env, c, p);
      RevAsks(env, c, p, me);
      AskFateIs(env, c.k, c.cid, p);
      SizedTail(ps);
      if AskFate(env, c.k, c.cid, p).Sent? {
        AllWait(env, d, ps[1..], me);
        OnePack(AskLine(accId, c.k, c.cid, p, o));
      } else {
        AskPacks(env, d, ps[1..], accId, me, o);
        NoServerNoLines(env, accId, c.k, c.cid, me, o, ps);
      }
    }
  }

  lemma SizedTail(ps: seq<seq<byte>>)
    requires Sized(ps) && ps != []
    ensures Sized(ps[1..]) && |ps[0]| < 0x1_0000
  {
  }

  lemma NoServerNoLines(env: Env, accId: nat, k: CharKind, cid: U64, me: U16, o: Slot, ps: seq<seq<byte>>)
    requires ps != [] && (env.verifySvr.None? || !Askable(k, ps[0]))
    ensures AskLines(env, accId, k, cid, me, o, ps) == AskLines(env, accId, k, cid, me, o, ps[1..])
  {
  }

  lemma RecvSendsAll(env: Env, l: Link, chunk: seq<byte>, accId: nat, me: U16, o: Slot)
    requires Sound(l.con)
    ensures PacksTo(Deliver(env, l, chunk).con.log, me, Everything) ==
            PacksTo(l.con.log, me, Everything) + LinePacks(RecvScript(env, accId, l, chunk, me, o))
  {
    var c, s := l.con, l.buf + chunk;
    AppendNil(PacksTo(c.log, me, Everything));
    if c.connected {
      RecvOutcome(env, c, s);
      PacketsSized(c, s);
      match c.phase {
        case Init => AskPacks(env, c.(seeded := true), Packets(c, s), accId, me, o);
        case WaitVerify => AllWait(env, c.(seeded := true), Packets(c, s), me);
        case Verifyed =>
          StreamSends(env, c, s, me, Everything);
          DecidedSized(l, Recv(env, chunk));
          TextPacks(env, c, me, o, ClientPackets(c, s));
      }
    }
  }

  lemma AnnounceSends(env: Env, c: Con, accId: nat, req: VerifyRet, addr: seq<byte>, me: U16, o: Slot)
    requires |req.accName| <= MAX_NAME_LEN && |addr| == 16
    ensures var e := Announced(Registered(env), CreatePack(req.cid, req.uin, req.accName, addr));
            var line := OpenLine(accId, req.cid, req.uin, req.accName + Zeros(21 - |req.accName|), addr, o);
            PacksTo(Log(c, e).log, me, Everything) ==
            PacksTo(c.log, me, Everything) + LinePacks(if me in Registered(env) then [line] else [])
  {
    var e := Announced(Registered(env), CreatePack(req.cid, req.uin, req.accName, addr));
    var line := OpenLine(accId, req.cid, req.uin, req.accName + Zeros(21 - |req.accName|), addr, o);
    OnePack(line);
    ToldSends(c.log, e, me, if me in Registered(env) then [line] else []);
  }

  /** All that comes before the announcement is for the client. */
  lemma AcceptedSends(c: Con, req: VerifyRet, addr: seq<byte>, ok: bool, me: U16)
    requires Finds(c, req, addr)
    ensures var e := ToClient(Answer, ClientPack(req.rsp.cmd, Span(req.rsp.msg, req.rsp.len)));
            && PacksTo(Log(c, e).log, me, Everything) == PacksTo(c.log, me, Everything)
            && PacksTo(SetVerify(Log(c, e), ok).log, me, Everything) == PacksTo(c.log, me, Everything)
  {
    var e := ToClient(Answer, ClientPack(req.rsp.cmd, Span(req.rsp.msg, req.rsp.len)));
    LoggedPacks(c.log, e, me, Everything);
    SetVerifySends(Log(c, e), ok, me, Everything);
  }

  lemma UnannouncedSends(env: Env, c: Con, req: VerifyRet, addr: seq<byte>, me: U16)
    requires Finds(c, req, addr) && !Announces(c, req, addr)
    ensures PacksTo(HandleVerifyRet(env, c, req, addr).log, me, Everything) == PacksTo(c.log, me, Everything)
  {
    AcceptedSends(c, req, addr, true, me);
  }

  lemma VerdictSendsAll(env: Env, c: Con, req: VerifyRet, addr: seq<byte>, accId: nat, me: U16, o: Slot)
    requires Finds(c, req, addr)
    ensures PacksTo(HandleVerifyRet(env, c, req, addr).log, me, Everything) ==
            PacksTo(c.log, me, Everything) + LinePacks(VerdictScript(env, accId, c, req, addr, me, o))
  {
    if Announces(c, req, addr) {
      var e := ToClient(Answer, ClientPack(req.rsp.cmd, Span(req.rsp.msg, req.rsp.len)));
      AcceptedSends(c, req, addr, true, me);
      AnnounceSends(env, SetVerify(Log(c, e), true), accId, req, addr, me, o);
    } else {
      UnannouncedSends(env, c, req, addr, me);
      AppendNil(PacksTo(c.log, me, Everything));
    }
  }

  lemma RouteSends(c: Con, grp: U16, svr: U16, me: U16, w: Scope)
    ensures PacksTo(SetActiveSvrId(c, grp, svr).log, me, w) == PacksTo(c.log, me, w)
  {
    LoggedPacks(c.log, RouteSet(grp, svr), me, w);
  }

  lemma ActiveSendsAll(c: Con, from: U16, grp: U16, svr: U16, me: U16, o: Slot)
    requires c.phase.Verifyed?
    ensures PacksTo(HandleSetActiveSvr(c, from, grp, svr).log, me, Everything) ==
            PacksTo(c.log, me, Everything) + LinePacks(if from == me then [ActiveLine(c.cid, svr, grp, o)] else [])
  {
    var d := SetActiveSvrId(c, grp, svr);
    RouteSends(c, grp, svr, me, Everything);
    OnePack(ActiveLine(c.cid, svr, grp, o));
    ToldSends(d.log, Replied(from, ActivePack(c.cid, svr, grp)), me,
              if from == me then [ActiveLine(c.cid, svr, grp, o)] else []);
  }

  lemma CacheAnswered(c: Con, from: U16, on: bool, me: U16, o: Slot)
    ensures PacksTo(Log(c, Replied(from, CacheRspPack(c.cid, on))).log, me, Everything) ==
            PacksTo(c.log, me, Everything) + LinePacks(if from == me then [CacheLine(c.cid, on, o)] else [])
  {
    OnePack(CacheLine(c.cid, on, o));
    ToldSends(c.log, Replied(from, CacheRspPack(c.cid, on)), me, if from == me then [CacheLine(c.cid, on, o)] else []);
  }

  lemma CacheFlushed(env: Env, c: Con, d: Con, on: bool, me: U16, o: Slot)
    requires Sized(c.cache) && d.k == c.k && d.cid == c.cid && d.routes == c.routes && d.cache == c.cache
    ensures PacksTo(SetCache(env, d, on).log, me, Everything) ==
            PacksTo(d.log, me, Everything) + LinePacks(if on then [] else TextLines(env, c, me, o, c.cache))
  {
    SetCacheSends(env, d, on, me, Everything);
    SameFates(env, c, d, c.cache);
    TextPacks(env, c, me, o, c.cache);
  }

  lemma CacheSendsAll(env: Env, c: Con, from: U16, on: bool, me: U16, o: Slot)
    requires Sized(c.cache) && c.cid != 0 && c.phase.Verifyed?
    ensures PacksTo(HandleCacheMsg(env, c, from, on).log, me, Everything) ==
            PacksTo(c.log, me, Everything) + LinePacks(CacheScript(env, c, from, on, me, o))
  {
    var a: Script := if from == me then [CacheLine(c.cid, on, o)] else [];
    var b: Script := if on then [] else TextLines(env, c, me, o, c.cache);
    CacheAnswered(c, from, on, me, o);
    CacheFlushed(env, c, Log(c, Replied(from, CacheRspPack(c.cid, on))), on, me, o);
    PacksAppend(a, b);
    Assoc(PacksTo(c.log, me, Everything), LinePacks(a), LinePacks(b));
  }

  lemma UinFor(env: Env, from: U16, pack: seq<byte>, me: U16)
    ensures PackFor(UinTold(Registered(env) - {from}, pack), me, Everything) ==
            if me in Registered(env) && me != from then [pack] else []
  {
  }

  function UinScript(env: Env, c: Con, from: U16, uin: U64, me: U16, o: Slot): Script {
    if me in Registered(env) && me != from then [UinLine(c.cid, uin, o)] else []
  }

  lemma UinToldSends(log: seq<Entry>, env: Env, c: Con, from: U16, uin: U64, me: U16, o: Slot)
    ensures PacksTo(log + [UinTold(Registered(env) - {from}, UinPack(c.cid, uin))], me, Everything) ==
            PacksTo(log, me, Everything) + LinePacks(UinScript(env, c, from, uin, me, o))
  {
    OnePack(UinLine(c.cid, uin, o));
    UinFor(env, from, UinPack(c.cid, uin), me);
    ToldSends(log, UinTold(Registered(env) - {from}, UinPack(c.cid, uin)), me, UinScript(env, c, from, uin, me, o));
  }

  lemma UinSendsAll(env: Env, c: Con, from: U16, uin: U64, me: U16, o: Slot)
    ensures PacksTo(HandleBroadcastUin(env, c, from, uin).log, me, Everything) ==
            PacksTo(c.log, me, Everything) + LinePacks(UinScript(env, c, from, uin, me, o))
  {
    UinToldSends(c.log, env, c, from, uin, me, o);
  }

  lemma RevertSendsAll(c: Con, to: U16, junk: seq<byte>, addr: seq<byte>, accId: nat, me: U16, o: Slot)
    requires |junk| == 21 && |addr| == 16 && c.phase.Verifyed?
    ensures PacksTo(RevertSession(c, to, junk, addr).log, me, Everything) == PacksTo(c.log, me, Everything) +
            LinePacks(if to == me then [OpenLine(accId, c.cid, c.uin, junk, addr, o)] else [])
  {
    OnePack(OpenLine(accId, c.cid, c.uin, junk, addr, o));
    ToldSends(c.log, Recovered(to, CreateBytes(c.cid, c.uin, junk, addr)), me,
              if to == me then [OpenLine(accId, c.cid, c.uin, junk, addr, o)] else []);
  }

  lemma HonestSized(c: Con)
    requires Honest(c)
    ensures Sized(c.cache)
  {
  }

  lemma RouteSendsAll(c: Con, from: U16, grp: U16, svr: U16, me: U16, o: Slot)
    ensures PacksTo(HandleSetActiveSvr(c, from, grp, svr).log, me, Everything) == PacksTo(c.log, me, Everything) +
            LinePacks(if c.phase.Verifyed? && from == me then [ActiveLine(c.cid, svr, grp, o)] else [])
  {
    if c.phase.Verifyed? {
      ActiveSendsAll(c, from, grp, svr, me, o);
    } else {
      AppendNil(PacksTo(c.log, me, Everything));
    }
  }

  lemma RegSendsAll(c: Con, to: U16, junk: seq<byte>, addr: seq<byte>, accId: nat, me: U16, o: Slot)
    requires |junk| == 21 && |addr| == 16
    ensures PacksTo(RevertSession(c, to, junk, addr).log, me, Everything) == PacksTo(c.log, me, Everything) +
            LinePacks(if c.phase.Verifyed? && to == me then [OpenLine(accId, c.cid, c.uin, junk, addr, o)] else [])
  {
    if c.phase.Verifyed? {
      RevertSendsAll(c, to, junk, addr, accId, me, o);
    } else {
      AppendNil(PacksTo(c.log, me, Everything));
    }
  }

  /** Events that leave everything as it is, as far as servers are told. */
  predicate Silent(e: Event) {
    e.ForwardReq? || e.Timeout? || e.Kick?
  }

  lemma SilentSendsAll(l: Link, e: Event, me: U16)
    requires Silent(e)
    ensures PacksTo(Step(l, e).con.log, me, Everything) == PacksTo(l.con.log, me, Everything)
  {
    match e {
      case ForwardReq(cmd, msg) => RelaySends(l.con, cmd, msg, me, Everything);
      case Timeout(t) => FiredSends(l.con, t);
      case Kick =>
    }
  }

  /** An event sends server `me` what its script says. */
  predicate Matches(l: Link, e: Event, accId: nat, me: U16, o: Slot) {
    PacksTo(Step(l, e).con.log, me, Everything) ==
    PacksTo(l.con.log, me, Everything) + LinePacks(EventScript(l, e, accId, me, o))
  }

  lemma VerdictMatches(l: Link, env: Env, req: VerifyRet, addr: seq<byte>, accId: nat, me: U16, o: Slot)
    ensures Matches(l, VerdictReq(env, req, addr), accId, me, o)
  {
    if Finds(l.con, req, addr) {
      VerdictSendsAll(env, l.con, req, addr, accId, me, o);
    } else {
      AppendNil(PacksTo(l.con.log, me, Everything));
    }
  }

  lemma RouteMatches(l: Link, from: U16, grp: U16, svr: U16, accId: nat, me: U16, o: Slot)
    ensures Matches(l, RouteReq(from, grp, svr), accId, me, o)
  {
    if l.con.cid != 0 {
      RouteSendsAll(l.con, from, grp, svr, me, o);
    } else {
      AppendNil(PacksTo(l.con.log, me, Everything));
    }
  }

  lemma UinMatches(l: Link, env: Env, from: U16, uin: U64, accId: nat, me: U16, o: Slot)
    ensures Matches(l, UinReq(env, from, uin), accId, me, o)
  {
    if l.con.cid != 0 {
      UinSendsAll(env, l.con, from, uin, me, o);
    } else {
      AppendNil(PacksTo(l.con.log, me, Everything));
    }
  }

  lemma RegMatches(l: Link, to: U16, junk: seq<byte>, addr: seq<byte>, accId: nat, me: U16, o: Slot)
    ensures Matches(l, RegReq(to, junk, addr), accId, me, o)
  {
    if |junk| == 21 && |addr| == 16 {
      RegSendsAll(l.con, to, junk, addr, accId, me, o);
    } else {
      AppendNil(PacksTo(l.con.log, me, Everything));
    }
  }

  lemma SilentMatches(l: Link, e: Event, accId: nat, me: U16, o: Slot)
    requires Silent(e)
    ensures Matches(l, e, accId, me, o)
  {
    SilentSendsAll(l, e, me);
    AppendNil(PacksTo(l.con.log, me, Everything));
  }

  lemma FlushSendsAll(l: Link, env: Env, from: U16, on: bool, me: U16, o: Slot)
    requires Sized(l.con.cache)
    ensures PacksTo(Step(l, CacheReq(env, from, on)).con.log, me, Everything) ==
            PacksTo(l.con.log, me, Everything) + LinePacks(CacheScript(env, l.con, from, on, me, o))
  {
    if l.con.cid != 0 && l.con.phase.Verifyed? {
      CacheSendsAll(env, l.con, from, on, me, o);
    } else {
      AppendNil(PacksTo(l.con.log, me, Everything));
    }
  }

  lemma EventSendsAll(l: Link, e: Event, accId: nat, me: U16, o: Slot)
    requires Sound(l.con)
    ensures Matches(l, e, accId, me, o)
  {
    match e {
      case Recv(env, chunk) => RecvSendsAll(env, l, chunk, accId, me, o);
      case VerdictReq(env, req, addr) => VerdictMatches(l, env, req, addr, accId, me, o);
      case RouteReq(from, grp, svr) => RouteMatches(l, from, grp, svr, accId, me, o);
      case CacheReq(env, from, on) =>
        HonestSized(l.con);
        FlushSendsAll(l, env, from, on, me, o);
      case UinReq(env, from, uin) => UinMatches(l, env, from, uin, accId, me, o);
      case RegReq(to, junk, addr) => RegMatches(l, to, junk, addr, accId, me, o);
      case _ => SilentMatches(l, e, accId, me, o);
    }
  }

  lemma {:induction false} RunSendsAll(l: Link, es: seq<Event>, accId: nat, me: U16, o: Slot)
    requires Sound(l.con)
    ensures PacksTo(Run(l, es).con.log, me, Everything) ==
            PacksTo(l.con.log, me, Everything) + LinePacks(RunScript(l, es, accId, me, o))
    decreases |es|
  {
    if es == [] {
      AppendNil(PacksTo(l.con.log, me, Everything));
    } else {
      var before, e := es[..|es| - 1], es[|es| - 1];
      var script := RunScript(l, before, accId, me, o);
      var more := EventScript(Run(l, before), e, accId, me, EndOf(o, script));
      RunSendsAll(l, before, accId, me, o);
      RunSound(l, before);
      EventSendsAll(Run(l, before), e, accId, me, EndOf(o, script));
      PacksAppend(script, more);
      Assoc(PacksTo(l.con.log, me, Everything), LinePacks(script), LinePacks(more));
    }
  }

  lemma FarewellSends(env: Env, c: Con, me: U16, o: Slot)
    requires c.phase.Verifyed?
    ensures PacksTo(Destroyed(env, c).log, me, Everything) ==
            PacksTo(c.log, me, Everything) + LinePacks(if me in Registered(env) then [CloseLine(c.cid, o)] else [])
  {
    OnePack(CloseLine(c.cid, o));
    ToldSends(c.log, Left(Registered(env), DisconPack(c.cid)), me, if me in Registered(env) then [CloseLine(c.cid, o)] else []);
  }

  lemma LifeSends(l: Link, es: seq<Event>, env: Env, accId: nat, me: U16, o: Slot)
    requires Sound(l.con)
    ensures PacksTo(Destroyed(env, Run(l, es).con).log, me, Everything) ==
            PacksTo(l.con.log, me, Everything) + LinePacks(LifeScript(l, es, env, accId, me, o))
  {
    var c, script := Run(l, es).con, RunScript(l, es, accId, me, o);
    RunSendsAll(l, es, accId, me, o);
    if c.phase.Verifyed? {
      var close: Script := if me in Registered(env) then [CloseLine(c.cid, EndOf(o, script))] else [];
      FarewellSends(env, c, me, EndOf(o, script));
      PacksAppend(script, close);
      AppendNil(script);
      Assoc(PacksTo(l.con.log, me, Everything), LinePacks(script), LinePacks(close));
    }
  }

  // ---- every line means what it says ----------------------------------------------------------

  lemma {:induction false} AskLinesValid(env: Env, accId: nat, k: CharKind, cid: U64, me: U16, o: Slot, ps: seq<seq<byte>>)
    requires Own(o, accId, cid)
    ensures Valid(accId, cid, o, AskLines(env, accId, k, cid, me, o, ps))
    decreases |ps|
  {
    if ps != [] && env.verifySvr.Some? {
      if !Askable(k, ps[0]) {
        AskLinesValid(env, accId, k, cid, me, o, ps[1..]);
      } else {
        AskMeans(accId, k, cid, ps[0], o);
        ValidOne(accId, cid, o, AskLine(accId, k, cid, ps[0], o));
      }
    }
  }

  lemma {:induction false} TextLinesValid(env: Env, accId: nat, c: Con, me: U16, o: Slot, ps: seq<seq<byte>>)
    requires Own(o, accId, c.cid)
    ensures Valid(accId, c.cid, o, TextLines(env, c, me, o, ps)) && EndOf(o, TextLines(env, c, me, o, ps)) == o
    decreases |ps|
  {
    if ps != [] {
      var n := |ps| - 1;
      var before := TextLines(env, c, me, o, ps[..n]);
      TextLinesValid(env, accId, c, me, o, ps[..n]);
      AppendNil(before);
      if ForwardedTo(env, c, me, ps[n]) {
        var line := ForwardLine(c.k, c.cid, ps[n], o);
        ForwardMeans(accId, c.k, c.cid, ps[n], o);
        ValidOne(accId, c.cid, o, line);
        ValidAppend(accId, c.cid, o, before, [line]);
      }
    }
  }

  lemma CacheScriptValid(env: Env, accId: nat, c: Con, from: U16, on: bool, me: U16, o: Slot)
    requires Own(o, accId, c.cid) && c.cid != 0
    ensures Valid(accId, c.cid, o, CacheScript(env, c, from, on, me, o))
  {
    if c.phase.Verifyed? {
      var a: Script := if from == me then [CacheLine(c.cid, on, o)] else [];
      var b: Script := if on then [] else TextLines(env, c, me, o, c.cache);
      CacheMeans(accId, c.cid, on, o);
      ValidOne(accId, c.cid, o, CacheLine(c.cid, on, o));
      TextLinesValid(env, accId, c, me, o, c.cache);
      assert EndOf(o, a) == o;
      ValidAppend(accId, c.cid, o, a, b);
    }
  }

  lemma OneOrNone(accId: nat, cid: U64, o: Slot, line: Line, b: bool)
    requires Means(accId, cid, o, line)
    ensures Valid(accId, cid, o, if b then [line] else [])
  {
    ValidOne(accId, cid, o, line);
  }

  lemma RecvValid(env: Env, accId: nat, l: Link, chunk: seq<byte>, me: U16, o: Slot)
    requires Own(o, accId, l.con.cid)
    ensures Valid(accId, l.con.cid, o, RecvScript(env, accId, l, chunk, me, o))
  {
    match l.con.phase {
      case Init => AskLinesValid(env, accId, l.con.k, l.con.cid, me, o, Packets(l.con, l.buf + chunk));
      case WaitVerify =>
      case Verifyed => TextLinesValid(env, accId, l.con, me, o, ClientPackets(l.con, l.buf + chunk));
    }
  }

  lemma OpenValid(accId: nat, cid: U64, uin: U64, name: seq<byte>, addr: seq<byte>, o: Slot, b: bool)
    requires cid != 0 && |name| == 21 && |addr| == 16 && Own(o, accId, cid)
    ensures Valid(accId, cid, o, if b then [OpenLine(accId, cid, uin, name, addr, o)] else [])
  {
    OpenMeans(accId, cid, uin, name, addr, o);
    OneOrNone(accId, cid, o, OpenLine(accId, cid, uin, name, addr, o), b);
  }

  lemma VerdictValid(env: Env, accId: nat, c: Con, req: VerifyRet, addr: seq<byte>, me: U16, o: Slot)
    requires Own(o, accId, c.cid)
    ensures Valid(accId, c.cid, o, VerdictScript(env, accId, c, req, addr, me, o))
  {
    var script := VerdictScript(env, accId, c, req, addr, me, o);
    if Announces(c, req, addr) {
      var name := req.accName + Zeros(21 - |req.accName|);
      OpenValid(accId, c.cid, req.uin, name, addr, o, me in Registered(env));
      assert script == if me in Registered(env) then [OpenLine(accId, c.cid, req.uin, name, addr, o)] else [];
    } else {
      NoneValid(accId, c.cid, o);
      assert script == [];
    }
  }

  lemma NoneValid(accId: nat, cid: U64, o: Slot)
    ensures Valid(accId, cid, o, [])
  {
  }

  lemma RouteValid(accId: nat, c: Con, from: U16, grp: U16, svr: U16, me: U16, o: Slot)
    requires c.cid != 0 && Own(o, accId, c.cid)
    ensures Valid(accId, c.cid, o, if c.phase.Verifyed? && from == me then [ActiveLine(c.cid, svr, grp, o)] else [])
  {
    ActiveMeans(accId, c.cid, svr, grp, o);
    OneOrNone(accId, c.cid, o, ActiveLine(c.cid, svr, grp, o), c.phase.Verifyed? && from == me);
  }

  lemma UinValid(env: Env, accId: nat, c: Con, from: U16, uin: U64, me: U16, o: Slot)
    requires c.cid != 0 && Own(o, accId, c.cid)
    ensures Valid(accId, c.cid, o, UinScript(env, c, from, uin, me, o))
  {
    UinMeans(accId, c.cid, uin, o);
    OneOrNone(accId, c.cid, o, UinLine(c.cid, uin, o), me in Registered(env) && me != from);
  }

  lemma EventValid(l: Link, e: Event, accId: nat, me: U16, o: Slot)
    requires l.con.cid != 0 && Own(o, accId, l.con.cid)
    ensures Valid(accId, l.con.cid, o, EventScript(l, e, accId, me, o))
  {
    match e {
      case Recv(env, chunk) => RecvValid(env, accId, l, chunk, me, o);
      case VerdictReq(env, req, addr) => VerdictValid(env, accId, l.con, req, addr, me, o);
      case RouteReq(from, grp, svr) => RouteValid(accId, l.con, from, grp, svr, me, o);
      case CacheReq(env, from, on) => CacheScriptValid(env, accId, l.con, from, on, me, o);
      case UinReq(env, from, uin) => UinValid(env, accId, l.con, from, uin, me, o);
      case RegReq(to, junk, addr) =>
        if |junk| == 21 && |addr| == 16 {
          OpenValid(accId, l.con.cid, l.con.uin, junk, addr, o, l.con.phase.Verifyed? && to == me);
        }
      case _ =>
    }
  }

  lemma EndOwn(accId: nat, cid: U64, o: Slot, script: Script)
    requires Own(o, accId, cid) && Valid(accId, cid, o, script)
    ensures Own(EndOf(o, script), accId, cid)
  {
  }

  lemma {:induction false} RunValid(l: Link, es: seq<Event>, accId: nat, me: U16, o: Slot)
    requires Sound(l.con) && l.con.cid != 0 && Own(o, accId, l.con.cid)
    ensures Valid(accId, l.con.cid, o, RunScript(l, es, accId, me, o))
    decreases |es|
  {
    if es != [] {
      var before, e := es[..|es| - 1], es[|es| - 1];
      var script := RunScript(l, before, accId, me, o);
      RunValid(l, before, accId, me, o);
      RunSound(l, before);
      EndOwn(accId, l.con.cid, o, script);
      EventValid(Run(l, before), e, accId, me, EndOf(o, script));
      ValidAppend(accId, l.con.cid, o, script, EventScript(Run(l, before), e, accId, me, EndOf(o, script)));
    }
  }

  lemma LifeValid(l: Link, es: seq<Event>, env: Env, accId: nat, me: U16, o: Slot)
    requires Sound(l.con) && l.con.cid != 0 && Own(o, accId, l.con.cid)
    ensures Valid(accId, l.con.cid, o, LifeScript(l, es, env, accId, me, o))
  {
    var script := RunScript(l, es, accId, me, o);
    var close := CloseLine(l.con.cid, EndOf(o, script));
    RunValid(l, es, accId, me, o);
    RunSound(l, es);
    EndOwn(accId, l.con.cid, o, script);
    CloseMeans(accId, l.con.cid, EndOf(o, script));
    ValidOne(accId, l.con.cid, EndOf(o, script), close);
    ValidAppend(accId, l.con.cid, o, script, [close]);
  }

  // ---- main results -----------------------------------------------------------------------------

  /** End-to-end over the whole life of a client connection. Take every pack the access server
      sends to server `me` about it, from its start to its end and in order: verify requests,
      announcements, forwards and flushes, answers, user ids, the farewell. Arriving at a driver
      that is registered, they make its user hear exactly what the script says, and change nothing
      in the driver but the client's entry in the session table. */
  lemma LifeReachesUser(k: CharKind, cid: U64, env0: Env, es: seq<Event>, env: Env, d: Con, me: U16,
                        m: D.Mgr, i: nat, o: Slot, t: seq<byte>, script: Script)
    requires cid != 0 && d == Destroyed(env, Run(Start(k, cid, env0), es).con)
    requires Open(m, i) && o == Get(m.cons[i].sessions, cid) && Own(o, m.cons[i].accId, cid) && |t| >= 16
    requires script == LifeScript(Start(k, cid, env0), es, env, m.cons[i].accId, me, o)
    ensures PacksTo(d.log, me, Everything) == LinePacks(script) && Sized(LinePacks(script))
    ensures D.Run(m, Arrivals(i, LinePacks(script), t)) == Told(m, i, cid, EndOf(o, script), LineCalls(script))
  {
    var l := Start(k, cid, env0);
    StartSound(k, cid, env0);
    StartSendsNothing(k, cid, env0, me, Everything);
    LifeSends(l, es, env, m.cons[i].accId, me, o);
    AppendNil(LinePacks(script));
    LifeValid(l, es, env, m.cons[i].accId, me, o);
    ScriptArrives(m, i, cid, o, script, t);
  }

  /** The same with anything else going on in the driver in between, on this connection about
      other clients, and on others: of this client its user hears exactly what the script says. */
  lemma LifeReachesUserWoven(k: CharKind, cid: U64, env0: Env, es: seq<Event>, env: Env, d: Con, me: U16,
                             m: D.Mgr, i: nat, o: Slot, des: seq<D.Event>, script: Script)
    requires cid != 0 && d == Destroyed(env, Run(Start(k, cid, env0), es).con)
    requires Open(m, i) && o == Get(m.cons[i].sessions, cid) && Own(o, m.cons[i].accId, cid)
    requires script == LifeScript(Start(k, cid, env0), es, env, m.cons[i].accId, me, o)
    requires Woven(m, des, i, cid, PacksTo(d.log, me, Everything))
    ensures SoFar(m, D.Run(m, des), i, cid, EndOf(o, script), LineCalls(script))
  {
    var l := Start(k, cid, env0);
    StartSound(k, cid, env0);
    StartSendsNothing(k, cid, env0, me, Everything);
    LifeSends(l, es, env, m.cons[i].accId, me, o);
    AppendNil(LinePacks(script));
    LifeValid(l, es, env, m.cons[i].accId, me, o);
    ScriptWoven(m, des, i, cid, o, script);
  }

  // ---- from verdict to farewell -------------------------------------------------------------

  /** p is o, but for the user id. */
  predicate Drifted(o: Slot, p: Slot) {
    o.Some? ==> p.Some? && p.value == o.value.(uin := p.value.uin)
  }

  lemma EventDrifts(l: Link, e: Event, accId: nat, me: U16, o: Slot)
    requires Own(o, accId, l.con.cid)
    ensures Drifted(o, EndOf(o, EventScript(l, e, accId, me, o)))
  {
    match e {
      case Recv(env, chunk) =>
        AskLinesEnd(env, accId, l.con.k, l.con.cid, me, o, Packets(l.con, l.buf + chunk));
        TextLinesValid(env, accId, l.con, me, o, ClientPackets(l.con, l.buf + chunk));
      case CacheReq(env, from, on) =>
        TextLinesValid(env, accId, l.con, me, o, l.con.cache);
        EndAppend(o, if from == me then [CacheLine(l.con.cid, on, o)] else [],
                  if on then [] else TextLines(env, l.con, me, o, l.con.cache));
      case _ =>
    }
  }

  lemma {:induction false} AskLinesEnd(env: Env, accId: nat, k: CharKind, cid: U64, me: U16, o: Slot, ps: seq<seq<byte>>)
    ensures EndOf(o, AskLines(env, accId, k, cid, me, o, ps)) == o
    decreases |ps|
  {
    if ps != [] {
      AskLinesEnd(env, accId, k, cid, me, o, ps[1..]);
    }
  }

  /** An open session stays open over any run, and only its user id changes. */
  lemma {:induction false} RunDrifts(l: Link, es: seq<Event>, accId: nat, me: U16, o: Slot)
    requires Sound(l.con) && l.con.cid != 0 && Own(o, accId, l.con.cid)
    ensures Drifted(o, EndOf(o, RunScript(l, es, accId, me, o)))
    decreases |es|
  {
    if es != [] {
      var before, e := es[..|es| - 1], es[|es| - 1];
      var script := RunScript(l, before, accId, me, o);
      RunDrifts(l, before, accId, me, o);
      RunValid(l, before, accId, me, o);
      RunSound(l, before);
      EndOwn(accId, l.con.cid, o, script);
      EventDrifts(Run(l, before), e, accId, me, EndOf(o, script));
      EndAppend(o, script, EventScript(Run(l, before), e, accId, me, EndOf(o, script)));
    }
  }

  /** A verified client is announced as gone, whatever happened to it. */
  lemma FarewellStays(l: Link, es: seq<Event>, env: Env)
    requires Sound(l.con) && l.con.phase.Verifyed?
    ensures var c := Run(l, es).con; Destroyed(env, c) == Log(c, Left(Registered(env), DisconPack(l.con.cid)))
  {
    VerifiedForGood(l, es);
    RunSound(l, es);
  }

  lemma VerdictVerifies(env: Env, c: Con, req: VerifyRet, addr: seq<byte>)
    requires Finds(c, req, addr) && c.phase.WaitVerify? && req.success && |req.accName| <= MAX_NAME_LEN
    ensures HandleVerifyRet(env, c, req, addr).phase.Verifyed? && Announces(c, req, addr)
  {
  }

  /** The script of a life from announcement to farewell. */
  lemma {:induction false} SessionScript(l: Link, es: seq<Event>, env: Env, accId: nat, me: U16, open: Line, x: D.Session, script: Script)
    requires Sound(l.con) && l.con.cid != 0 && l.con.phase.Verifyed? && me in Registered(env)
    requires Means(accId, l.con.cid, None, open) && open.after == Some(x) && open.call == Some(D.ClientConnect(x))
    requires script == [open] + LifeScript(l, es, env, accId, me, Some(x))
    ensures Valid(accId, l.con.cid, None, script) && EndOf(None, script) == None
    ensures var mid := RunScript(l, es, accId, me, Some(x));
            && Drifted(Some(x), EndOf(Some(x), mid))
            && LineCalls(script) == [D.ClientConnect(x)] + LineCalls(mid) + [D.ClientDiscon(EndOf(Some(x), mid).value)]
  {
    var mid := RunScript(l, es, accId, me, Some(x));
    var close := CloseLine(l.con.cid, EndOf(Some(x), mid));
    var rest := LifeScript(l, es, env, accId, me, Some(x));
    RunDrifts(l, es, accId, me, Some(x));
    VerifiedForGood(l, es);
    RunSound(l, es);
    assert rest == mid + [close];
    ValidOne(accId, l.con.cid, None, open);
    LifeValid(l, es, env, accId, me, Some(x));
    ValidAppend(accId, l.con.cid, None, [open], rest);
    EndAppend(None, [open], rest);
    CallsAppend([open], rest);
    CallsAppend(mid, [close]);
    OneCall(close);
    Assoc([D.ClientConnect(x)], LineCalls(mid), CallOf(close));
  }

  lemma OneCall(line: Line)
    ensures LineCalls([line]) == CallOf(line)
  {
    var none: Script := [];
    assert [line][..0] == none;
    AppendNil(CallOf(line));
  }

  lemma VerdictSends1(l: Link, l1: Link, env: Env, req: VerifyRet, addr: seq<byte>, accId: nat, me: U16, open: Line)
    requires Sound(l.con) && l1 == Step(l, VerdictReq(env, req, addr)) && Announces(l.con, req, addr) && me in Registered(env)
    requires open == OpenLine(accId, req.cid, req.uin, req.accName + Zeros(21 - |req.accName|), addr, None)
    ensures PacksTo(l1.con.log, me, Everything) == PacksTo(l.con.log, me, Everything) + [open.pack]
    ensures Announcements(l1.con.log) ==
            Announcements(l.con.log) + [CreatePack(req.cid, req.uin, req.accName, addr)]
  {
    VerdictSendsAll(env, l.con, req, addr, accId, me, None);
    OnePack(open);
    VerdictAnnounces(env, l.con, req, addr);
  }

  lemma NotAnnouncedAgain(l: Link, es: seq<Event>, env: Env)
    requires l.con.phase.Verifyed?
    ensures Announcements(Destroyed(env, Run(l, es).con).log) == Announcements(l.con.log)
  {
    var c := Run(l, es).con;
    AnnouncedInRun(l, es);
    AppendNil(Announcements(l.con.log));
    UnannouncedSnoc(c.log, Left(Registered(env), DisconPack(c.cid)));
  }

  /** The verdict. */
  lemma {:induction false} VerdictStep(k: CharKind, env0: Env, es0: seq<Event>, l: Link, env: Env, req: VerifyRet, addr: seq<byte>,
                                       l1: Link, accId: nat, me: U16, open: Line)
    requires l == Run(Start(k, req.cid, env0), es0) && l.con.phase.WaitVerify? && Finds(l.con, req, addr)
    requires req.success && |req.accName| <= MAX_NAME_LEN && me in Registered(env)
    requires l1 == Step(l, VerdictReq(env, req, addr))
    requires open == OpenLine(accId, req.cid, req.uin, req.accName + Zeros(21 - |req.accName|), addr, None)
    ensures Sound(l1.con) && l1.con.cid == req.cid && l1.con.phase.Verifyed?
    ensures PacksTo(l1.con.log, me, Everything) == PacksTo(l.con.log, me, Everything) + [open.pack]
    ensures Announcements(l1.con.log) == Announcements(l.con.log) + [CreatePack(req.cid, req.uin, req.accName, addr)]
  {
    StartSound(k, req.cid, env0);
    RunSound(Start(k, req.cid, env0), es0);
    VerdictPhase(l, env, req, addr, l1);
    VerdictSends1(l, l1, env, req, addr, accId, me, open);
  }

  lemma VerdictPhase(l: Link, env: Env, req: VerifyRet, addr: seq<byte>, l1: Link)
    requires Sound(l.con) && l.con.phase.WaitVerify? && Finds(l.con, req, addr)
    requires req.success && |req.accName| <= MAX_NAME_LEN && l1 == Step(l, VerdictReq(env, req, addr))
    ensures Sound(l1.con) && l1.con.cid == req.cid && l1.con.phase.Verifyed? && Announces(l.con, req, addr)
  {
    StepSound(l, VerdictReq(env, req, addr));
    VerdictVerifies(env, l.con, req, addr);
  }

  /** What the driver makes of it. */
  lemma {:induction false} LifecycleHeard(l: Link, es: seq<Event>, env: Env, me: U16, m: D.Mgr, i: nat, t: seq<byte>,
                       x: D.Session, open: Line, mid: Script, packs: seq<seq<byte>>)
    requires Sound(l.con) && l.con.cid != 0 && l.con.phase.Verifyed? && me in Registered(env)
    requires Open(m, i) && l.con.cid !in m.cons[i].sessions && |t| >= 16
    requires Means(m.cons[i].accId, l.con.cid, None, open)
    requires open.after == Some(x) && open.call == Some(D.ClientConnect(x))
    requires mid == RunScript(l, es, m.cons[i].accId, me, Some(x))
    requires packs == LinePacks([open] + LifeScript(l, es, env, m.cons[i].accId, me, Some(x)))
    ensures Sized(packs) && Drifted(Some(x), EndOf(Some(x), mid))
    ensures D.Run(m, Arrivals(i, packs, t)) ==
            m.(calls := m.calls + ([D.ClientConnect(x)] + LineCalls(mid) + [D.ClientDiscon(EndOf(Some(x), mid).value)]))
  {
    var script := [open] + LifeScript(l, es, env, m.cons[i].accId, me, Some(x));
    SessionScript(l, es, env, m.cons[i].accId, me, open, x, script);
    ScriptArrives(m, i, l.con.cid, None, script, t);
    ToldBack(m, i, l.con.cid, LineCalls(script));
  }

  /** From verdict to farewell, whatever happens in between. A client that waits, after any run,
      gets a positive verdict; any run follows; then it goes. The verdict announces it once, and
      it is not announced again. A registered server is sent the announcement, everything the run
      makes the access server send to it, and the farewell; its user sees the session open, hears
      exactly what the run's script says, user ids and answers included, and sees the session
      close with its record of that moment; the driver's tables are as before. */
  lemma {:induction false} ClientLifecycle(k: CharKind, env0: Env, es0: seq<Event>, l: Link, env1: Env, req: VerifyRet, addr: seq<byte>,
                        l1: Link, es: seq<Event>, env: Env, d: Con, me: U16,
                        m: D.Mgr, i: nat, t: seq<byte>, x: D.Session, mid: Script, packs: seq<seq<byte>>)
    requires l == Run(Start(k, req.cid, env0), es0) && l.con.phase.WaitVerify? && Finds(l.con, req, addr)
    requires req.success && |req.accName| <= MAX_NAME_LEN
    requires l1 == Step(l, VerdictReq(env1, req, addr)) && d == Destroyed(env, Run(l1, es).con)
    requires me in Registered(env1) && me in Registered(env)
    requires Open(m, i) && req.cid !in m.cons[i].sessions && |t| >= 16
    requires x == NewSession(m.cons[i].accId, req.cid, req.uin, req.accName + Zeros(21 - |req.accName|), addr)
    requires mid == RunScript(l1, es, m.cons[i].accId, me, Some(x))
    requires packs == [CreatePack(req.cid, req.uin, req.accName, addr)] + LinePacks(mid) + [DisconPack(req.cid)]
    ensures Announcements(l1.con.log) == Announcements(l.con.log) + [CreatePack(req.cid, req.uin, req.accName, addr)]
    ensures Announcements(d.log) == Announcements(l1.con.log)
    ensures PacksTo(d.log, me, Everything) == PacksTo(l.con.log, me, Everything) + packs
    ensures Sized(packs) && Drifted(Some(x), EndOf(Some(x), mid))
    ensures D.Run(m, Arrivals(i, packs, t)) ==
            m.(calls := m.calls + ([D.ClientConnect(x)] + LineCalls(mid) + [D.ClientDiscon(EndOf(Some(x), mid).value)]))
  {
    var accId, name := m.cons[i].accId, req.accName + Zeros(21 - |req.accName|);
    var open := OpenLine(accId, req.cid, req.uin, name, addr, None);
    VerdictStep(k, env0, es0, l, env1, req, addr, l1, accId, me, open);
    NotAnnouncedAgain(l1, es, env);
    LifePacks(l1, es, env, accId, me, x, open, l.con.log, d, packs, mid);
    OpenMeans(accId, req.cid, req.uin, name, addr, None);
    LifecycleHeard(l1, es, env, me, m, i, t, x, open, mid, packs);
  }

  lemma {:induction false} LifePacks(l: Link, es: seq<Event>, env: Env, accId: nat, me: U16, x: D.Session, open: Line,
                  log: seq<Entry>, d: Con, packs: seq<seq<byte>>, mid: Script)
    requires Sound(l.con) && l.con.phase.Verifyed? && me in Registered(env) && d == Destroyed(env, Run(l, es).con)
    requires PacksTo(l.con.log, me, Everything) == PacksTo(log, me, Everything) + [open.pack]
    requires mid == RunScript(l, es, accId, me, Some(x))
    requires packs == [open.pack] + LinePacks(mid) + [DisconPack(l.con.cid)]
    ensures PacksTo(d.log, me, Everything) == PacksTo(log, me, Everything) + packs
    ensures packs == LinePacks([open] + LifeScript(l, es, env, accId, me, Some(x)))
  {
    var rest := LifeScript(l, es, env, accId, me, Some(x));
    var close := CloseLine(l.con.cid, EndOf(Some(x), mid));
    VerifiedForGood(l, es);
    RunSound(l, es);
    LifeSends(l, es, env, accId, me, Some(x));
    assert rest == mid + [close];
    PacksAppend(mid, [close]);
    PacksAppend([open], rest);
    OnePack(open);
    OnePack(close);
    Assoc([open.pack], LinePacks(mid), [close.pack]);
    Assoc(PacksTo(log, me, Everything), [open.pack], LinePacks(rest));
  }

  lemma ToldBack(m: D.Mgr, i: nat, cid: U64, calls: seq<D.Call>)
    requires i < |m.cons| && cid !in m.cons[i].sessions
    ensures Told(m, i, cid, None, calls) == m.(calls := m.calls + calls)
  {
    PutGet(m.cons[i].sessions, cid);
    assert m.cons[i := m.cons[i]] == m.cons;
  }

  // ---- sessions that stay open ----------------------------------------------------------------

  /** The event announces the client to server `me`. */
  predicate EventOpens(l: Link, e: Event, me: U16) {
    match e
    case VerdictReq(env, req, addr) => Announces(l.con, req, addr) && me in Registered(env)
    case RegReq(to, junk, addr) => |junk| == 21 && |addr| == 16 && l.con.phase.Verifyed? && to == me
    case _ => false
  }

  predicate OpensAt(l: Link, es: seq<Event>, j: nat, me: U16)
    requires j < |es|
  {
    EventOpens(Run(l, es[..j]), es[j], me)
  }

  /** One of the first n events of a run does. */
  predicate OpensBefore(l: Link, es: seq<Event>, n: nat, me: U16)
    requires n <= |es|
  {
    exists j :: 0 <= j < n && OpensAt(l, es, j, me)
  }

  lemma OpensPrefix(l: Link, es: seq<Event>, n: nat, me: U16)
    requires n <= |es|
    ensures OpensBefore(l, es[..n], n, me) <==> OpensBefore(l, es, n, me)
  {
    forall j | 0 <= j < n ensures OpensAt(l, es[..n], j, me) == OpensAt(l, es, j, me) {
      assert es[..n][..j] == es[..j] && es[..n][j] == es[j];
    }
    if OpensBefore(l, es[..n], n, me) {
      var j :| 0 <= j < n && OpensAt(l, es[..n], j, me);
      assert OpensAt(l, es, j, me);
    }
  }

  lemma OpensNext(l: Link, es: seq<Event>, n: nat, me: U16)
    requires n < |es|
    ensures OpensBefore(l, es, n + 1, me) <==> OpensBefore(l, es, n, me) || OpensAt(l, es, n, me)
  {
  }

  lemma EventEnd(l: Link, e: Event, accId: nat, me: U16, o: Slot)
    requires Own(o, accId, l.con.cid)
    ensures EndOf(o, EventScript(l, e, accId, me, o)).Some? <==> o.Some? || EventOpens(l, e, me)
  {
    EventDrifts(l, e, accId, me, o);
    match e {
      case Recv(env, chunk) =>
        AskLinesEnd(env, accId, l.con.k, l.con.cid, me, o, Packets(l.con, l.buf + chunk));
        TextLinesValid(env, accId, l.con, me, o, ClientPackets(l.con, l.buf + chunk));
      case CacheReq(env, from, on) =>
        TextLinesValid(env, accId, l.con, me, o, l.con.cache);
        EndAppend(o, if from == me then [CacheLine(l.con.cid, on, o)] else [],
                  if on then [] else TextLines(env, l.con, me, o, l.con.cache));
      case _ =>
    }
  }

  lemma NextEnd(l: Link, e: Event, accId: nat, me: U16, script: Script)
    requires l.con.cid != 0 && Valid(accId, l.con.cid, None, script)
    ensures var o := EndOf(None, script);
            EndOf(None, script + EventScript(l, e, accId, me, o)).Some? <==> o.Some? || EventOpens(l, e, me)
  {
    EndOwn(accId, l.con.cid, None, script);
    EventEnd(l, e, accId, me, EndOf(None, script));
    EndAppend(None, script, EventScript(l, e, accId, me, EndOf(None, script)));
  }

  lemma {:induction false} RunEnd(l: Link, es: seq<Event>, accId: nat, me: U16)
    requires Sound(l.con) && l.con.cid != 0
    ensures EndOf(None, RunScript(l, es, accId, me, None)).Some? <==> OpensBefore(l, es, |es|, me)
    decreases |es|
  {
    if es != [] {
      var n := |es| - 1;
      RunEnd(l, es[..n], accId, me);
      RunValid(l, es[..n], accId, me, None);
      RunSound(l, es[..n]);
      NextEnd(Run(l, es[..n]), es[n], accId, me, RunScript(l, es[..n], accId, me, None));
      OpensPrefix(l, es, n, me);
      OpensNext(l, es, n, me);
    }
  }

  /** A session that is announced is closed again, at the end of the connection, if and only if
      the client is verified by then and the server still registered. A session announced while
      no verdict was awaited stays in the drivers' tables unless the client is verified later. */
  lemma StaysOpen(k: CharKind, cid: U64, env0: Env, es: seq<Event>, env: Env, l: Link, c: Con, accId: nat, me: U16)
    requires cid != 0 && l == Start(k, cid, env0) && c == Run(l, es).con
    ensures EndOf(None, LifeScript(l, es, env, accId, me, None)).Some? <==>
            OpensBefore(l, es, |es|, me) && !(c.phase.Verifyed? && me in Registered(env))
    ensures Destroyed(env, c) == (if c.phase.Verifyed? then Log(c, Left(Registered(env), DisconPack(c.cid))) else c)
  {
    var script := RunScript(l, es, accId, me, None);
    StartSound(k, cid, env0);
    RunEnd(l, es, accId, me);
    EndAppend(None, script, [CloseLine(c.cid, EndOf(None, script))]);
  }

  /** A run that shows it. */
  lemma LeftOpen(k: CharKind, env: Env, e: Event, l: Link, accId: nat, me: U16)
    requires e.VerdictReq? && e.env == env && e.req == VerifyRet(1, true, 0, [], NO_CLIENT_MSG) && e.addr == Zeros(16)
    requires l == Start(k, 1, env) && me in Registered(env)
    ensures EndOf(None, LifeScript(l, [e], env, accId, me, None)).Some?
  {
    var c := Run(l, [e]).con;
    AnnouncedUnverified(k, env, e, l, c);
    assert Run(l, [e][..0]) == l;
    assert OpensAt(l, [e], 0, me);
    StaysOpen(k, 1, env, [e], env, l, c, accId, me);
  }

  // ---- nothing is made up -------------------------------------------------------------------------

  lemma CarriedGrows(c: Con, f: Fate)
    ensures c.log <= Carried(c, f).log
  {
    CarriedLog(c, f);
  }

  lemma AskedGrows(c: Con, f: Fate)
    requires !f.Beat?
    ensures c.log <= Asked(c, f).log
  {
  }

  lemma RevGrows(env: Env, c: Con, p: seq<byte>)
    ensures c.log <= RevPacket(env, c, p).log
  {
    var n, f := Noted(c, p), PacketFate(env, c, p);
    match c.phase {
      case Init =>
        assert RevPacket(env, c, p) == Asked(n, f);
        AskedGrows(n, f);
      case WaitVerify => assert RevPacket(env, c, p) == n;
      case Verifyed =>
        assert RevPacket(env, c, p) == Carried(n, f);
        CarriedGrows(n, f);
    }
  }

  lemma RecvGrows(env: Env, c: Con, s: seq<byte>)
    ensures c.log <= OnRawRecv(env, c, s).0.log
  {
    var rev := RevPacketIn(env);
    forall d: Con, p | c.log <= d.log ensures c.log <= rev(d, p).log {
      RevGrows(env, d, p);
    }
    PumpKeeps((d: Con) => c.log <= d.log, rev, c, s);
  }

  lemma CacheGrows(env: Env, c: Con, from: U16, on: bool)
    ensures c.log <= HandleCacheMsg(env, c, from, on).log
  {
    var d := Log(c, Replied(from, CacheRspPack(c.cid, on)));
    CarriedAllLog(d, Fates(env, d, d.cache));
  }

  lemma LogGrows(log: seq<Entry>, c: Con, e: Entry)
    requires log <= c.log
    ensures log <= Log(c, e).log
  {
  }

  lemma SetVerifyGrows(log: seq<Entry>, c: Con, ok: bool)
    requires log <= c.log
    ensures log <= SetVerify(c, ok).log
  {
  }

  lemma VerdictGrows(env: Env, c: Con, req: VerifyRet, addr: seq<byte>)
    requires Finds(c, req, addr)
    ensures c.log <= HandleVerifyRet(env, c, req, addr).log
  {
    var e := ToClient(Answer, ClientPack(req.rsp.cmd, Span(req.rsp.msg, req.rsp.len)));
    LogGrows(c.log, c, e);
    SetVerifyGrows(c.log, Log(c, e), req.success);
    if |req.accName| <= MAX_NAME_LEN {
      LogGrows(c.log, SetVerify(Log(c, e), req.success),
               Announced(Registered(env), CreatePack(req.cid, req.uin, req.accName, addr)));
    }
  }

  lemma ActiveGrows(c: Con, from: U16, grp: U16, svr: U16)
    ensures c.log <= HandleSetActiveSvr(c, from, grp, svr).log
  {
    LogGrows(c.log, SetActiveSvrId(c, grp, svr), Replied(from, ActivePack(c.cid, svr, grp)));
  }

  lemma OtherGrows(l: Link, e: Event)
    requires Silent(e) || e.UinReq? || e.RegReq?
    ensures l.con.log <= Step(l, e).con.log
  {
    match e {
      case Timeout(t) => FiredSends(l.con, t);
      case _ =>
    }
  }

  lemma StepGrows(l: Link, e: Event)
    ensures l.con.log <= Step(l, e).con.log
  {
    match e {
      case Recv(env, chunk) => RecvGrows(env, l.con, l.buf + chunk);
      case VerdictReq(env, req, addr) =>
        if Finds(l.con, req, addr) {
          VerdictGrows(env, l.con, req, addr);
        }
      case RouteReq(from, grp, svr) => ActiveGrows(l.con, from, grp, svr);
      case CacheReq(env, from, on) => CacheGrows(env, l.con, from, on);
      case _ => OtherGrows(l, e);
    }
  }

  lemma {:induction false} HandedGrows(a: seq<Entry>, b: seq<Entry>, p: seq<byte>)
    requires a <= b && p in Handed(a)
    ensures p in Handed(b)
    decreases |b|
  {
    if |a| < |b| {
      HandedGrows(a, b[..|b| - 1], p);
    } else {
      assert a == b;
    }
  }

  lemma RecvHanded(env: Env, c: Con, s: seq<byte>)
    ensures Handed(OnRawRecv(env, c, s).0.log) == Handed(c.log) + Packets(c, s)
  {
    var h := Client(env);
    RecvOutcome(env, c, s);
    forall d, p ensures Handed(h.rev(d, p).log) == Handed(d.log) + [p] {
      RevHands(env, d, p);
    }
    RevAllHands(h, c.(seeded := true), Packets(c, s));
  }

  /** The command is the first byte; where char is signed, sign-extended from 0x80 on. */
  predicate IsFirst(k: CharKind, b: byte, cmd: U32) {
    cmd == if k.SignedChar? && b >= 0x80 then 0xFFFF_FF00 + b as int else b as int
  }

  /** A text put to the user is one of ps, whole, with its own first byte as command. */
  predicate Genuine(k: CharKind, ps: seq<seq<byte>>, call: D.Call) {
    match call
    case ClientText(_, cmd, text) => text in ps && 4 <= |text| <= 4081 && IsFirst(k, text[0], cmd)
    case VerifyAsked(_, _, cmd, text) => text in ps && 4 <= |text| <= 4081 && IsFirst(k, text[0], cmd)
    case _ => true
  }

  predicate AllGenuine(k: CharKind, ps: seq<seq<byte>>, script: Script) {
    forall j :: 0 <= j < |script| && script[j].call.Some? ==> Genuine(k, ps, script[j].call.value)
  }

  lemma GenuineAppend(k: CharKind, ps: seq<seq<byte>>, a: Script, b: Script)
    requires AllGenuine(k, ps, a) && AllGenuine(k, ps, b)
    ensures AllGenuine(k, ps, a + b)
  {
  }

  lemma {:induction false} TextsGenuine(env: Env, c: Con, me: U16, o: Slot, ps: seq<seq<byte>>, all: seq<seq<byte>>)
    requires forall p :: p in ps ==> p in all
    ensures AllGenuine(c.k, all, TextLines(env, c, me, o, ps))
    decreases |ps|
  {
    if ps != [] {
      var p := ps[|ps| - 1];
      TextsGenuine(env, c, me, o, ps[..|ps| - 1], all);
      assert p in all;
      GenuineAppend(c.k, all, TextLines(env, c, me, o, ps[..|ps| - 1]),
                    if ForwardedTo(env, c, me, p) then [ForwardLine(c.k, c.cid, p, o)] else []);
    }
  }

  lemma {:induction false} AsksGenuine(env: Env, accId: nat, k: CharKind, cid: U64, me: U16, o: Slot,
                                       ps: seq<seq<byte>>, all: seq<seq<byte>>)
    requires forall p :: p in ps ==> p in all
    ensures AllGenuine(k, all, AskLines(env, accId, k, cid, me, o, ps))
    decreases |ps|
  {
    if ps != [] {
      assert ps[0] in all;
      AsksGenuine(env, accId, k, cid, me, o, ps[1..], all);
    }
  }

  lemma RecvGenuine(env: Env, l: Link, chunk: seq<byte>, accId: nat, me: U16, o: Slot)
    requires Sound(l.con)
    ensures AllGenuine(l.con.k, Handed(Deliver(env, l, chunk).con.log), RecvScript(env, accId, l, chunk, me, o))
  {
    if l.con.connected {
      var ps, all := Packets(l.con, l.buf + chunk), Handed(Deliver(env, l, chunk).con.log);
      RecvHanded(env, l.con, l.buf + chunk);
      assert forall p :: p in ps ==> p in Handed(l.con.log) + ps;
      AsksGenuine(env, accId, l.con.k, l.con.cid, me, o, ps, all);
      if l.con.phase.Verifyed? {
        VerifiedPackets(l.con, l.buf + chunk);
        TextsGenuine(env, l.con, me, o, ClientPackets(l.con, l.buf + chunk), all);
      }
    }
  }

  lemma VerifiedPackets(c: Con, s: seq<byte>)
    requires Sound(c) && c.phase.Verifyed?
    ensures Packets(c, s) == ClientPackets(c, s)
  {
  }

  lemma CacheGenuine(env: Env, c: Con, from: U16, on: bool, me: U16, o: Slot, all: seq<seq<byte>>)
    requires forall p :: p in c.cache ==> p in all
    ensures AllGenuine(c.k, all, CacheScript(env, c, from, on, me, o))
  {
    TextsGenuine(env, c, me, o, c.cache, all);
    GenuineAppend(c.k, all, if from == me then [CacheLine(c.cid, on, o)] else [],
                  if on then [] else TextLines(env, c, me, o, c.cache));
  }

  lemma CacheHanded(c: Con, all: seq<Entry>)
    requires Honest(c) && c.log <= all
    ensures forall p :: p in c.cache ==> p in Handed(all)
  {
    forall p | p in c.cache ensures p in Handed(all) {
      var i :| 0 <= i < |c.cache| && c.cache[i] == p;
      HandedGrows(c.log, all, p);
    }
  }

  lemma OtherGenuine(l: Link, e: Event, accId: nat, me: U16, o: Slot, ps: seq<seq<byte>>)
    requires !Decides(e)
    ensures AllGenuine(l.con.k, ps, EventScript(l, e, accId, me, o))
  {
  }

  lemma EventGenuine(l: Link, e: Event, accId: nat, me: U16, o: Slot)
    requires Sound(l.con)
    ensures AllGenuine(l.con.k, Handed(Step(l, e).con.log), EventScript(l, e, accId, me, o))
  {
    match e {
      case Recv(env, chunk) => RecvGenuine(env, l, chunk, accId, me, o);
      case CacheReq(env, from, on) =>
        StepGrows(l, e);
        CacheHanded(l.con, Step(l, e).con.log);
        CacheGenuine(env, l.con, from, on, me, o, Handed(Step(l, e).con.log));
      case _ => OtherGenuine(l, e, accId, me, o, Handed(Step(l, e).con.log));
    }
  }

  lemma GenuineMore(k: CharKind, a: seq<Entry>, b: seq<Entry>, script: Script)
    requires AllGenuine(k, Handed(a), script) && a <= b
    ensures AllGenuine(k, Handed(b), script)
  {
    forall j | 0 <= j < |script| && script[j].call.Some? ensures Genuine(k, Handed(b), script[j].call.value) {
      assert Genuine(k, Handed(a), script[j].call.value);
      match script[j].call.value {
        case ClientText(_, _, text) => HandedGrows(a, b, text);
        case VerifyAsked(_, _, _, text) => HandedGrows(a, b, text);
        case _ =>
      }
    }
  }

  lemma {:induction false} RunGenuine(l: Link, es: seq<Event>, accId: nat, me: U16, o: Slot)
    requires Sound(l.con)
    ensures AllGenuine(l.con.k, Handed(Run(l, es).con.log), RunScript(l, es, accId, me, o))
    decreases |es|
  {
    if es != [] {
      var before, e := es[..|es| - 1], es[|es| - 1];
      var n, script := Run(l, before), RunScript(l, before, accId, me, o);
      RunGenuine(l, before, accId, me, o);
      RunSound(l, before);
      StepGrows(n, e);
      GenuineMore(l.con.k, n.con.log, Step(n, e).con.log, script);
      EventGenuine(n, e, accId, me, EndOf(o, script));
      GenuineAppend(l.con.k, Handed(Step(n, e).con.log), script, EventScript(n, e, accId, me, EndOf(o, script)));
    }
  }

  /** The farewell puts no text to the user. */
  lemma EndGenuine(env: Env, k: CharKind, c: Con, script: Script, o: Slot)
    requires AllGenuine(k, Handed(c.log), script)
    ensures AllGenuine(k, Handed(Destroyed(env, c).log), script)
    ensures AllGenuine(k, Handed(Destroyed(env, c).log), script + [CloseLine(c.cid, EndOf(o, script))])
  {
    var d := Destroyed(env, c);
    GenuineMore(k, c.log, d.log, script);
    GenuineAppend(k, Handed(d.log), script, [CloseLine(c.cid, EndOf(o, script))]);
  }

  /** Integrity over a whole life: every text that the script puts to the user, verify requests
      included, is a packet this client had sent, whole and under its own first byte. */
  lemma NothingMadeUp(k: CharKind, cid: U64, env0: Env, es: seq<Event>, env: Env, d: Con, accId: nat, me: U16, o: Slot)
    requires d == Destroyed(env, Run(Start(k, cid, env0), es).con)
    ensures AllGenuine(k, Handed(d.log), LifeScript(Start(k, cid, env0), es, env, accId, me, o))
  {
    var l := Start(k, cid, env0);
    StartSound(k, cid, env0);
    RunGenuine(l, es, accId, me, o);
    EndGenuine(env, k, Run(l, es).con, RunScript(l, es, accId, me, o), o);
  }
}
