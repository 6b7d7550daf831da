/** More that holds in every run of a client connection: a silent one is watched by a timer,
    one whose first byte is read as a signed char is never heard, and whatever is sent to a
    server wraps a packet the client sent before. */
module ClientTrace {
  import opened Bytes
  import opened Proto
  import opened Framing
  import opened ExternalCon
  import opened ExternalRuns
  import opened ClientStream

  // ---- timers that must be running ----------------------------------------------------

  predicate IsEcho(e: Entry) {
    e.ToClient? && e.why.Echo?
  }

  /** A heartbeat was answered. */
  predicate Echoed(log: seq<Entry>)
    decreases |log|
  {
    log != [] && (IsEcho(log[|log| - 1]) || Echoed(log[..|log| - 1]))
  }

  lemma EchoedSnoc(log: seq<Entry>, e: Entry)
    ensures Echoed(log + [e]) <==> IsEcho(e) || Echoed(log)
  {
    SnocParts(log, e);
  }

  lemma {:induction false} EchoedMeans(log: seq<Entry>)
    ensures Echoed(log) <==> exists i :: 0 <= i < |log| && IsEcho(log[i])
    decreases |log|
  {
    if log != [] {
      EchoedMeans(log[..|log| - 1]);
      assert forall i :: 0 <= i < |log| - 1 ==> log[i] == log[..|log| - 1][i];
    }
  }

  lemma {:induction false} DispatchedMeans(log: seq<Entry>)
    requires forall i :: 0 <= i < |log| ==> !log[i].Dispatched?
    ensures Recount(log).dispatched == 0
    decreases |log|
  {
    if log != [] {
      DispatchedMeans(log[..|log| - 1]);
    }
  }

  /** What became of a client when it connected: refused, given a time limit for its first
      packet, or let in without one. */
  datatype Entrance = Refused | Timed | Untimed

  function EntranceOf(env: Env): Entrance {
    if env.conSize > env.seting.cli.maxNum then Refused
    else if env.seting.noMsgSec != 0 then Timed else Untimed
  }

  predicate Watched(c: Con, w: Entrance) {
    && (c.firstTm ==> c.phase.Init?)
    && (c.connected ==>
        && (c.limitTm <==> w.Refused?)
        && (c.firstTm <==> w.Timed? && Recount(c.log).dispatched == 0)
        && (c.heartTm <==> Echoed(c.log)))
  }

  /** Watched looks at the log, the connection and three timers only. */
  lemma AlikeWatched(c: Con, d: Con, w: Entrance)
    requires Watched(c, w) && d.log == c.log && (d.connected ==> c.connected)
    requires (d.firstTm ==> c.firstTm) && (c.firstTm ==> d.phase == c.phase)
    requires d.connected ==> d.firstTm == c.firstTm && d.limitTm == c.limitTm && d.heartTm == c.heartTm
    ensures Watched(d, w)
  {
  }

  lemma LoggedWatched(c: Con, e: Entry, w: Entrance)
    requires Watched(c, w) && !IsEcho(e) && !e.Dispatched?
    ensures Watched(Log(c, e), w)
  {
    RecountSnoc(c.log, e);
    EchoedSnoc(c.log, e);
  }

  lemma CarriedWatched(c: Con, f: Fate, w: Entrance)
    requires Watched(c, w)
    ensures Watched(Carried(c, f), w)
  {
    match f {
      case Beat(pack) =>
        RecountSnoc(c.log, ToClient(Echo, pack));
        EchoedSnoc(c.log, ToClient(Echo, pack));
      case Sent(svr, pack) => LoggedWatched(c, Forwarded(svr, pack), w);
      case Dropped =>
      case Hopeless =>
    }
  }

  lemma {:induction false} CarriedAllWatched(c: Con, fs: seq<Fate>, w: Entrance)
    requires Watched(c, w)
    ensures Watched(CarriedAll(c, fs), w)
    decreases |fs|
  {
    if fs != [] {
      CarriedAllWatched(c, fs[..|fs| - 1], w);
      CarriedWatched(CarriedAll(c, fs[..|fs| - 1]), fs[|fs| - 1], w);
    }
  }

  lemma AskedWatched(c: Con, f: Fate, w: Entrance)
    requires Watched(c.(firstTm := false), w) && Recount(c.log).dispatched > 0 && !f.Beat?
    ensures Watched(Asked(c, f), w)
  {
    if f.Sent? {
      RecountSnoc(c.log, VerifyReq(f.svr, f.pack));
      EchoedSnoc(c.log, VerifyReq(f.svr, f.pack));
    }
  }

  /** Of a client in its first phase the timer is stopped next. */
  lemma NotedWatched(c: Con, p: seq<byte>, w: Entrance)
    requires Watched(c, w)
    ensures var n := Noted(c, p); Recount(n.log).dispatched > 0 && Watched(n.(firstTm := false), w)
    ensures !c.phase.Init? ==> Watched(Noted(c, p), w)
  {
    RecountSnoc(c.log, Dispatched(p));
    EchoedSnoc(c.log, Dispatched(p));
  }

  lemma RevWatched(env: Env, c: Con, p: seq<byte>, w: Entrance)
    requires Watched(c, w)
    ensures Watched(RevPacket(env, c, p), w)
  {
    var n, f := Noted(c, p), PacketFate(env, c, p);
    NotedWatched(c, p, w);
    match c.phase {
      case Init => AskedWatched(n, f, w);
      case WaitVerify =>
      case Verifyed => CarriedWatched(n, f, w);
    }
  }

  lemma RecvWatched(env: Env, c: Con, s: seq<byte>, w: Entrance)
    requires Watched(c, w)
    ensures Watched(OnRawRecv(env, c, s).0, w)
  {
    var rev := RevPacketIn(env);
    forall d, p | Watched(d, w) ensures Watched(rev(d, p), w) {
      RevWatched(env, d, p, w);
    }
    PumpKeeps((d: Con) => Watched(d, w), rev, c, s);
  }

  lemma SetCacheWatched(env: Env, c: Con, on: bool, w: Entrance)
    requires Watched(c, w)
    ensures Watched(SetCache(env, c, on), w)
  {
    var fs := Fates(env, c, c.cache);
    CarriedAllWatched(c, fs, w);
    LoggedWatched(c, CacheSet(on), w);
    LoggedWatched(CarriedAll(c, fs), CacheSet(on), w);
  }

  lemma SetVerifyWatched(c: Con, ok: bool, w: Entrance)
    requires Watched(c, w)
    ensures Watched(SetVerify(c, ok), w)
  {
    LoggedWatched(c, Verdict(ok), w);
    if c.phase.WaitVerify? {
      AlikeWatched(Log(c, Verdict(ok)), SetVerify(c, ok), w);
    }
  }

  lemma VerdictWatched(env: Env, c: Con, req: VerifyRet, addr: seq<byte>, w: Entrance)
    requires Watched(c, w) && Finds(c, req, addr)
    ensures Watched(HandleVerifyRet(env, c, req, addr), w)
  {
    var e := ToClient(Answer, ClientPack(req.rsp.cmd, Span(req.rsp.msg, req.rsp.len)));
    var c2 := SetVerify(Log(c, e), req.success);
    LoggedWatched(c, e, w);
    SetVerifyWatched(Log(c, e), req.success, w);
    if |req.accName| <= MAX_NAME_LEN {
      LoggedWatched(c2, Announced(Registered(env), CreatePack(req.cid, req.uin, req.accName, addr)), w);
    }
  }

  lemma ActiveWatched(c: Con, from: U16, grp: U16, svr: U16, w: Entrance)
    requires Watched(c, w)
    ensures Watched(HandleSetActiveSvr(c, from, grp, svr), w)
  {
    LoggedWatched(c, RouteSet(grp, svr), w);
    AlikeWatched(Log(c, RouteSet(grp, svr)), SetActiveSvrId(c, grp, svr), w);
    LoggedWatched(SetActiveSvrId(c, grp, svr), Replied(from, ActivePack(c.cid, svr, grp)), w);
  }

  lemma CacheWatched(env: Env, c: Con, from: U16, on: bool, w: Entrance)
    requires Watched(c, w)
    ensures Watched(HandleCacheMsg(env, c, from, on), w)
  {
    LoggedWatched(c, Replied(from, CacheRspPack(c.cid, on)), w);
    SetCacheWatched(env, Log(c, Replied(from, CacheRspPack(c.cid, on))), on, w);
  }

  lemma UinWatched(env: Env, c: Con, from: U16, uin: U64, w: Entrance)
    requires Watched(c, w)
    ensures Watched(HandleBroadcastUin(env, c, from, uin), w)
  {
    AlikeWatched(c, c.(uin := uin), w);
    LoggedWatched(c.(uin := uin), UinTold(Registered(env) - {from}, UinPack(c.cid, uin)), w);
  }

  lemma RevertWatched(c: Con, to: U16, junk: seq<byte>, addr: seq<byte>, w: Entrance)
    requires Watched(c, w) && |junk| == 21 && |addr| == 16
    ensures Watched(RevertSession(c, to, junk, addr), w)
  {
    LoggedWatched(c, Recovered(to, CreateBytes(c.cid, c.uin, junk, addr)), w);
  }

  lemma RelayWatched(c: Con, cmd: U32, msg: seq<byte>, w: Entrance)
    requires Watched(c, w)
    ensures Watched(HandleForward(c, cmd, msg), w)
  {
    LoggedWatched(c, ToClient(Relay, ClientPack(cmd, msg)), w);
  }

  lemma FiredWatched(c: Con, t: Timer, w: Entrance)
    requires Watched(c, w)
    ensures Watched(Fired(c, t), w)
  {
  }

  lemma StepWatched(l: Link, e: Event, w: Entrance)
    requires Watched(l.con, w)
    ensures Watched(Step(l, e).con, w)
  {
    match e {
      case Recv(env, chunk) => RecvWatched(env, l.con, l.buf + chunk, w);
      case VerdictReq(env, req, addr) =>
        if Finds(l.con, req, addr) {
          VerdictWatched(env, l.con, req, addr, w);
        }
      case ForwardReq(cmd, msg) => RelayWatched(l.con, cmd, msg, w);
      case RouteReq(from, grp, svr) => ActiveWatched(l.con, from, grp, svr, w);
      case CacheReq(env, from, on) => CacheWatched(env, l.con, from, on, w);
      case UinReq(env, from, uin) => UinWatched(env, l.con, from, uin, w);
      case RegReq(to, junk, addr) =>
        if |junk| == 21 && |addr| == 16 {
          RevertWatched(l.con, to, junk, addr, w);
        }
      case Timeout(t) => FiredWatched(l.con, t, w);
      case Kick =>
    }
  }

  lemma StartWatched(k: CharKind, cid: U64, env: Env)
    ensures Watched(OnConnected(env, Fresh(k, cid)), EntranceOf(env))
  {
  }

  /** In every run, while the client is connected: the timer that ends refused clients runs if and
      only if there were too many when it came; the one for its first packet if and only if there
      were not, a limit was set, and no packet of it was taken yet; the heartbeat timer if and only
      if a heartbeat was ever answered. */
  lemma WatchedInEveryRun(k: CharKind, cid: U64, env: Env, es: seq<Event>, c: Con)
    requires c == Run(Start(k, cid, env), es).con && c.connected
    ensures c.limitTm <==> env.conSize > env.seting.cli.maxNum
    ensures c.firstTm <==> && env.conSize <= env.seting.cli.maxNum && env.seting.noMsgSec != 0
                           && forall i :: 0 <= i < |c.log| ==> !c.log[i].Dispatched?
    ensures c.heartTm <==> exists i :: 0 <= i < |c.log| && IsEcho(c.log[i])
  {
    RunWatched(k, cid, env, es);
    EchoedMeans(c.log);
    SomeDispatched(c.log);
  }

  lemma RunWatched(k: CharKind, cid: U64, env: Env, es: seq<Event>)
    ensures Watched(Run(Start(k, cid, env), es).con, EntranceOf(env))
  {
    var w := EntranceOf(env);
    StartWatched(k, cid, env);
    forall l: Link, e | Watched(l.con, w) ensures Watched(Step(l, e).con, w) {
      StepWatched(l, e, w);
    }
    RunKeeps((d: Con) => Watched(d, w), Start(k, cid, env), es);
  }

  lemma {:induction false} SomeDispatched(log: seq<Entry>)
    ensures Recount(log).dispatched > 0 <==> exists i :: 0 <= i < |log| && log[i].Dispatched?
    decreases |log|
  {
    if Recount(log).dispatched == 0 {
      NoneDispatched(log);
    } else if forall i :: 0 <= i < |log| ==> !log[i].Dispatched? {
      DispatchedMeans(log);
    }
  }

  /** Not every client that says nothing useful is got rid of. In every run of a client that was
      not refused and for which a limit was set: connected and not verified it has no session
      timer if and only if it still is in its first phase and some packet of it was taken. */
  lemma TimerlessInEveryRun(k: CharKind, cid: U64, env: Env, es: seq<Event>, c: Con)
    requires c == Run(Start(k, cid, env), es).con && c.connected && !c.limitTm
    requires env.seting.noMsgSec != 0 && !c.phase.Verifyed?
    ensures !c.firstTm && !c.verifyTm && !c.heartTm <==>
            c.phase.Init? && exists i :: 0 <= i < |c.log| && c.log[i].Dispatched?
  {
    RunWatched(k, cid, env, es);
    ReachableInv(k, cid, env, es);
    SomeDispatched(c.log);
  }

  const LIMITED := ONE_SERVER.(seting := NO_SETING.(noMsgSec := 30))

  /** An input: a first packet of three bytes stops the timer and cannot be forwarded. */
  lemma ShortPacketUntimed(c: Con)
    requires c == Run(Start(UnsignedChar, 1, LIMITED), [Recv(LIMITED, [0xEF, 0, 3])]).con
    ensures Start(UnsignedChar, 1, LIMITED).con.firstTm
    ensures c.connected && c.phase.Init? && !c.firstTm && !c.verifyTm && !c.heartTm && !c.limitTm
  {
    var l := Start(UnsignedChar, 1, LIMITED);
    var s: seq<byte> := [0xEF, 0, 3];
    var e := Recv(LIMITED, s);
    assert Head(UnsignedChar, true, s, 3) == Packet(3);
    assert ParsePacket(l.con, s) == (l.con.(seeded := true), 3);
    OnePacket(LIMITED, l, s, l.con.(seeded := true));
    assert AskFate(LIMITED, UnsignedChar, 1, s) == Dropped;
    assert Run(l, [e][..0]) == l;
    assert Run(l, [e]) == Step(l, e);
  }

  // ---- clients of a server compiled with signed char -----------------------------------

  lemma NoFirstId(k: CharKind, s: seq<byte>, len: nat)
    requires k.SignedChar? && len <= |s|
    ensures !Head(k, true, s, len).Packet?
  {
  }

  lemma NothingFramed(rev: Handler, c: Con, s: seq<byte>)
    requires c.k.SignedChar? && c.phase.Init?
    ensures Pump(rev, c, s).1 == 0 && Pump(rev, c, s).0 == c.(seeded := Pump(rev, c, s).0.seeded, connected := Pump(rev, c, s).0.connected)
  {
    NoFirstId(c.k, s, Counted(c.k, c.seeded, s));
    assert ParsePacket(c, s).1 == 0;
  }

  /** No packet was taken, and no server was sent anything. */
  predicate Unheard(log: seq<Entry>) {
    forall i :: 0 <= i < |log| ==> !log[i].Dispatched? && !log[i].VerifyReq? && !log[i].Forwarded?
  }

  predicate Mute(c: Con) {
    c.k.SignedChar? && c.phase.Init? && c.cache == [] && Unheard(c.log)
  }

  lemma LoggedMute(c: Con, e: Entry)
    requires Mute(c) && !e.Dispatched? && !e.VerifyReq? && !e.Forwarded?
    ensures Mute(Log(c, e))
  {
  }

  lemma VerdictMute(env: Env, c: Con, req: VerifyRet, addr: seq<byte>)
    requires Mute(c) && Finds(c, req, addr)
    ensures Mute(HandleVerifyRet(env, c, req, addr))
  {
    var e := ToClient(Answer, ClientPack(req.rsp.cmd, Span(req.rsp.msg, req.rsp.len)));
    LoggedMute(c, e);
    if |req.accName| <= MAX_NAME_LEN {
      LoggedMute(Log(c, e), Announced(Registered(env), CreatePack(req.cid, req.uin, req.accName, addr)));
    }
  }

  lemma UinMute(env: Env, c: Con, from: U16, uin: U64)
    requires Mute(c)
    ensures Mute(HandleBroadcastUin(env, c, from, uin))
  {
    LoggedMute(c.(uin := uin), UinTold(Registered(env) - {from}, UinPack(c.cid, uin)));
  }

  /** What is for verified clients only does nothing. */
  lemma RequestMute(env: Env, c: Con, from: U16, grp: U16, svr: U16, on: bool, cmd: U32, msg: seq<byte>)
    requires Mute(c)
    ensures HandleForward(c, cmd, msg) == c && HandleSetActiveSvr(c, from, grp, svr) == c
    ensures HandleCacheMsg(env, c, from, on) == c
  {
  }

  lemma EndMute(c: Con, t: Timer)
    requires Mute(c)
    ensures Mute(Fired(c, t)) && Mute(Disc(c))
  {
  }

  lemma RecvMute(env: Env, c: Con, s: seq<byte>)
    requires Mute(c)
    ensures Mute(OnRawRecv(env, c, s).0)
  {
    NothingFramed(RevPacketIn(env), c, s);
  }

  lemma StepMute(l: Link, e: Event)
    requires Mute(l.con)
    ensures Mute(Step(l, e).con)
  {
    match e {
      case Recv(env, chunk) => RecvMute(env, l.con, l.buf + chunk);
      case VerdictReq(env, req, addr) =>
        if Finds(l.con, req, addr) {
          VerdictMute(env, l.con, req, addr);
        }
      case ForwardReq(cmd, msg) => RequestMute(NOBODY, l.con, 0, 0, 0, false, cmd, msg);
      case RouteReq(from, grp, svr) => RequestMute(NOBODY, l.con, from, grp, svr, false, 0, []);
      case CacheReq(env, from, on) => RequestMute(env, l.con, from, 0, 0, on, 0, []);
      case UinReq(env, from, uin) => UinMute(env, l.con, from, uin);
      case RegReq(to, junk, addr) =>
      case Timeout(t) => EndMute(l.con, t);
      case Kick => EndMute(l.con, FirstTimer);
    }
  }

  /** Where char is signed no first byte passes the check made before verification: in every
      run the client stays in its first phase, no packet of it is ever taken, and no server is
      ever sent one. */
  lemma SignedCharHearsNobody(cid: U64, env: Env, es: seq<Event>, c: Con)
    requires c == Run(Start(SignedChar, cid, env), es).con
    ensures c.phase.Init? && c.cache == [] && Unheard(c.log)
  {
    forall l: Link, e | Mute(l.con) ensures Mute(Step(l, e).con) {
      StepMute(l, e);
    }
    RunKeeps(Mute, Start(SignedChar, cid, env), es);
  }

  // ---- where packs come from ----------------------------------------------------------

  /** A packet wrapped for a server. */
  function WrapPack(outer: U16, cid: U64, cmd: U32, p: seq<byte>): seq<byte>
    requires |p| < 0x1_0000
  {
    AsWire(outer, ForwardWire(Forward(cid, cmd, |p|, At(p))))
  }

  predicate Wraps(outer: U16, k: CharKind, cid: U64, p: seq<byte>, pack: seq<byte>) {
    4 <= |p| < 4096 && CharToU32(k, p[0]) != 0 && pack == WrapPack(outer, cid, CharToU32(k, p[0]), p)
  }

  predicate WrapsOne(outer: U16, k: CharKind, cid: U64, ps: seq<seq<byte>>, pack: seq<byte>) {
    exists i :: 0 <= i < |ps| && Wraps(outer, k, cid, ps[i], pack)
  }

  /** Every pack sent to a server wraps one of the packets handed over before it was sent. */
  predicate Traced(k: CharKind, cid: U64, log: seq<Entry>)
    decreases |log|
  {
    log == [] ||
    var before, e := log[..|log| - 1], log[|log| - 1];
    && Traced(k, cid, before)
    && (e.Forwarded? ==> WrapsOne(CMD_NTF_FORWARD, k, cid, Handed(before), e.pack))
    && (e.VerifyReq? ==> WrapsOne(CMD_NTF_VERIFY_REQ, k, cid, Handed(before), e.pack))
  }

  lemma TracedSnoc(k: CharKind, cid: U64, log: seq<Entry>, e: Entry)
    ensures Traced(k, cid, log + [e]) <==>
            && Traced(k, cid, log)
            && (e.Forwarded? ==> WrapsOne(CMD_NTF_FORWARD, k, cid, Handed(log), e.pack))
            && (e.VerifyReq? ==> WrapsOne(CMD_NTF_VERIFY_REQ, k, cid, Handed(log), e.pack))
  {
    SnocParts(log, e);
  }

  predicate Within(ps: seq<seq<byte>>, qs: seq<seq<byte>>) {
    forall i :: 0 <= i < |ps| ==> ps[i] in qs && |ps[i]| < 0x1_0000
  }

  predicate Honest(c: Con) {
    Traced(c.k, c.cid, c.log) && Within(c.cache, Handed(c.log))
  }

  lemma WrapsHanded(outer: U16, k: CharKind, cid: U64, ps: seq<seq<byte>>, p: seq<byte>, pack: seq<byte>)
    requires p in ps && Wraps(outer, k, cid, p, pack)
    ensures WrapsOne(outer, k, cid, ps, pack)
  {
  }

  lemma AskWraps(env: Env, k: CharKind, cid: U64, p: seq<byte>)
    requires |p| < 0x1_0000
    ensures var f := AskFate(env, k, cid, p); f.Sent? ==> Wraps(CMD_NTF_VERIFY_REQ, k, cid, p, f.pack)
  {
  }

  lemma FateWraps(env: Env, k: CharKind, cid: U64, routes: seq<U16>, p: seq<byte>)
    requires |p| < 0x1_0000
    ensures var f := ClientFate(env, k, cid, routes, p); f.Sent? ==> Wraps(CMD_NTF_FORWARD, k, cid, p, f.pack)
  {
  }

  /** Logging anything but a pack. */
  lemma LoggedHonest(c: Con, e: Entry)
    requires Honest(c) && !e.Forwarded? && !e.VerifyReq?
    ensures Honest(Log(c, e))
  {
    TracedSnoc(c.k, c.cid, c.log, e);
    HandedSnoc(c.log, e);
  }

  lemma SentHonest(c: Con, e: Entry)
    requires Honest(c)
    requires match e
             case Forwarded(_, pack) => WrapsOne(CMD_NTF_FORWARD, c.k, c.cid, Handed(c.log), pack)
             case VerifyReq(_, pack) => WrapsOne(CMD_NTF_VERIFY_REQ, c.k, c.cid, Handed(c.log), pack)
             case _ => false
    ensures Honest(Log(c, e))
  {
    TracedSnoc(c.k, c.cid, c.log, e);
    HandedSnoc(c.log, e);
    AppendNil(Handed(c.log));
  }

  lemma CarriedHonest(c: Con, f: Fate)
    requires Honest(c)
    requires f.Sent? ==> WrapsOne(CMD_NTF_FORWARD, c.k, c.cid, Handed(c.log), f.pack)
    ensures Honest(Carried(c, f))
  {
    match f {
      case Beat(pack) => LoggedHonest(c, ToClient(Echo, pack));
      case Sent(svr, pack) => SentHonest(c, Forwarded(svr, pack));
      case Dropped =>
      case Hopeless =>
    }
  }

  lemma {:induction false} CarriedAllHonest(c: Con, fs: seq<Fate>)
    requires Honest(c)
    requires forall i :: 0 <= i < |fs| && fs[i].Sent? ==>
               WrapsOne(CMD_NTF_FORWARD, c.k, c.cid, Handed(c.log), fs[i].pack)
    ensures Honest(CarriedAll(c, fs)) && Handed(CarriedAll(c, fs).log) == Handed(c.log)
    decreases |fs|
  {
    if fs != [] {
      var n := |fs| - 1;
      forall i | 0 <= i < n && fs[..n][i].Sent?
        ensures WrapsOne(CMD_NTF_FORWARD, c.k, c.cid, Handed(c.log), fs[..n][i].pack)
      {
        assert fs[..n][i] == fs[i];
      }
      CarriedAllHonest(c, fs[..n]);
      CarriedAllKept(c, fs[..n]);
      CarriedHonest(CarriedAll(c, fs[..n]), fs[n]);
      CarriedHanded(CarriedAll(c, fs[..n]), fs[n]);
    }
  }

  lemma WithinMore(ps: seq<seq<byte>>, qs: seq<seq<byte>>, p: seq<byte>)
    requires Within(ps, qs) && |p| < 0x1_0000
    ensures Within(ps, qs + [p]) && Within(ps + [p], qs + [p])
  {
    forall i | 0 <= i < |ps| ensures ps[i] in qs + [p] {
      assert ps[i] in qs;
    }
    assert (qs + [p])[|qs|] == p;
  }

  lemma NotedHonest(c: Con, p: seq<byte>)
    requires Honest(c) && |p| < 0x1_0000
    ensures Honest(Noted(c, p)) && p in Handed(Noted(c, p).log)
  {
    TracedSnoc(c.k, c.cid, c.log, Dispatched(p));
    HandedSnoc(c.log, Dispatched(p));
    WithinMore(c.cache, Handed(c.log), p);
    assert (Handed(c.log) + [p])[|Handed(c.log)|] == p;
  }

  lemma AskedHonest(c: Con, f: Fate)
    requires Honest(c) && !f.Beat?
    requires f.Sent? ==> WrapsOne(CMD_NTF_VERIFY_REQ, c.k, c.cid, Handed(c.log), f.pack)
    ensures Honest(Asked(c, f))
  {
    if f.Sent? {
      SentHonest(c, VerifyReq(f.svr, f.pack));
    }
  }

  lemma RevHonest(env: Env, c: Con, p: seq<byte>)
    requires Honest(c) && |p| < 0x1_0000
    ensures Honest(RevPacket(env, c, p))
  {
    var n, f := Noted(c, p), PacketFate(env, c, p);
    NotedHonest(c, p);
    if f.Sent? {
      AskWraps(env, c.k, c.cid, p);
      FateWraps(env, c.k, c.cid, c.routes, p);
      WrapsHanded(if c.phase.Init? then CMD_NTF_VERIFY_REQ else CMD_NTF_FORWARD, c.k, c.cid, Handed(n.log), p, f.pack);
    }
    match c.phase {
      case Init => AskedHonest(n, f);
      case WaitVerify =>
      case Verifyed => CarriedHonest(n, f);
    }
  }

  lemma RecvHonest(env: Env, c: Con, s: seq<byte>)
    requires Honest(c)
    ensures Honest(OnRawRecv(env, c, s).0)
  {
    var rev := RevPacketIn(env);
    forall d, p | Honest(d) && |p| < 0x1_0000 ensures Honest(rev(d, p)) {
      RevHonest(env, d, p);
    }
    PumpKeeps(Honest, rev, c, s);
  }

  lemma SetCacheHonest(env: Env, c: Con, on: bool)
    requires Honest(c)
    ensures Honest(SetCache(env, c, on))
  {
    var fs := Fates(env, c, c.cache);
    forall i | 0 <= i < |fs| && fs[i].Sent?
      ensures WrapsOne(CMD_NTF_FORWARD, c.k, c.cid, Handed(c.log), fs[i].pack)
    {
      FateWraps(env, c.k, c.cid, c.routes, c.cache[i]);
      WrapsHanded(CMD_NTF_FORWARD, c.k, c.cid, Handed(c.log), c.cache[i], fs[i].pack);
    }
    CarriedAllHonest(c, fs);
    CarriedAllKept(c, fs);
    LoggedHonest(c, CacheSet(on));
    LoggedHonest(CarriedAll(c, fs).(cache := []), CacheSet(on));
  }

  /** Honest looks at the log and the buffer only. */
  lemma AlikeHonest(c: Con, d: Con)
    requires Honest(c) && d.k == c.k && d.cid == c.cid && d.log == c.log && d.cache == c.cache
    ensures Honest(d)
  {
  }

  lemma SetActiveHonest(c: Con, grp: U16, svr: U16)
    requires Honest(c)
    ensures Honest(SetActiveSvrId(c, grp, svr))
  {
    LoggedHonest(c, RouteSet(grp, svr));
    AlikeHonest(Log(c, RouteSet(grp, svr)), SetActiveSvrId(c, grp, svr));
  }

  lemma SetVerifyHonest(c: Con, ok: bool)
    requires Honest(c)
    ensures Honest(SetVerify(c, ok))
  {
    LoggedHonest(c, Verdict(ok));
    if c.phase.WaitVerify? {
      AlikeHonest(Log(c, Verdict(ok)), SetVerify(c, ok));
    }
  }

  lemma VerdictHonest(env: Env, c: Con, req: VerifyRet, addr: seq<byte>)
    requires Honest(c) && Finds(c, req, addr)
    ensures Honest(HandleVerifyRet(env, c, req, addr))
  {
    var c1 := Log(c, ToClient(Answer, ClientPack(req.rsp.cmd, Span(req.rsp.msg, req.rsp.len))));
    LoggedHonest(c, c1.log[|c.log|]);
    if !req.success || c.phase.Verifyed? {
      assert HandleVerifyRet(env, c, req, addr) == c1;
    } else {
      AcceptHonest(env, c1, req, addr);
    }
  }

  lemma AcceptHonest(env: Env, c: Con, req: VerifyRet, addr: seq<byte>)
    requires Honest(c) && |addr| == 16
    ensures Honest(SetVerify(c, true))
    ensures |req.accName| <= MAX_NAME_LEN ==>
              Honest(Log(SetVerify(c, true), Announced(Registered(env), CreatePack(req.cid, req.uin, req.accName, addr))))
  {
    SetVerifyHonest(c, true);
    if |req.accName| <= MAX_NAME_LEN {
      LoggedHonest(SetVerify(c, true), Announced(Registered(env), CreatePack(req.cid, req.uin, req.accName, addr)));
    }
  }

  lemma ActiveHonest(c: Con, from: U16, grp: U16, svr: U16)
    requires Honest(c)
    ensures Honest(HandleSetActiveSvr(c, from, grp, svr))
  {
    SetActiveHonest(c, grp, svr);
    LoggedHonest(SetActiveSvrId(c, grp, svr), Replied(from, ActivePack(c.cid, svr, grp)));
  }

  lemma CacheHonest(env: Env, c: Con, from: U16, on: bool)
    requires Honest(c)
    ensures Honest(HandleCacheMsg(env, c, from, on))
  {
    LoggedHonest(c, Replied(from, CacheRspPack(c.cid, on)));
    SetCacheHonest(env, Log(c, Replied(from, CacheRspPack(c.cid, on))), on);
  }

  lemma UinHonest(env: Env, c: Con, from: U16, uin: U64)
    requires Honest(c)
    ensures Honest(HandleBroadcastUin(env, c, from, uin))
  {
    AlikeHonest(c, c.(uin := uin));
    LoggedHonest(c.(uin := uin), UinTold(Registered(env) - {from}, UinPack(c.cid, uin)));
  }

  lemma RevertHonest(c: Con, to: U16, junk: seq<byte>, addr: seq<byte>)
    requires Honest(c) && |junk| == 21 && |addr| == 16
    ensures Honest(RevertSession(c, to, junk, addr))
  {
    LoggedHonest(c, Recovered(to, CreateBytes(c.cid, c.uin, junk, addr)));
  }

  lemma RelayHonest(c: Con, cmd: U32, msg: seq<byte>)
    requires Honest(c)
    ensures Honest(HandleForward(c, cmd, msg))
  {
    LoggedHonest(c, ToClient(Relay, ClientPack(cmd, msg)));
  }

  lemma FiredHonest(c: Con, t: Timer)
    requires Honest(c)
    ensures Honest(Fired(c, t))
  {
    AlikeHonest(c, Fired(c, t));
  }

  lemma StepHonest(l: Link, e: Event)
    requires Honest(l.con)
    ensures Honest(Step(l, e).con)
  {
    match e {
      case Recv(env, chunk) => RecvHonest(env, l.con, l.buf + chunk);
      case VerdictReq(env, req, addr) =>
        if Finds(l.con, req, addr) {
          VerdictHonest(env, l.con, req, addr);
        }
      case ForwardReq(cmd, msg) => RelayHonest(l.con, cmd, msg);
      case RouteReq(from, grp, svr) => ActiveHonest(l.con, from, grp, svr);
      case CacheReq(env, from, on) => CacheHonest(env, l.con, from, on);
      case UinReq(env, from, uin) => UinHonest(env, l.con, from, uin);
      case RegReq(to, junk, addr) =>
        if |junk| == 21 && |addr| == 16 {
          RevertHonest(l.con, to, junk, addr);
        }
      case Timeout(t) => FiredHonest(l.con, t);
      case Kick => AlikeHonest(l.con, Disc(l.con));
    }
  }

  lemma StartHonest(k: CharKind, cid: U64, env: Env)
    ensures var c := OnConnected(env, Fresh(k, cid)); Honest(c) && c.k == k && c.cid == cid
  {
    var c := Fresh(k, cid);
    if OnConnected(env, c).log != [] {
      LoggedHonest(c, OnConnected(env, c).log[0]);
      assert c.log + [OnConnected(env, c).log[0]] == OnConnected(env, c).log;
    }
  }

  lemma CacheSelf(env: Env, c: Con, from: U16, on: bool)
    ensures var d := HandleCacheMsg(env, c, from, on); d.k == c.k && d.cid == c.cid
  {
    var d := Log(c, Replied(from, CacheRspPack(c.cid, on)));
    CarriedAllKept(d, Fates(env, d, d.cache));
  }

  lemma VerdictSelf(env: Env, c: Con, req: VerifyRet, addr: seq<byte>)
    requires Finds(c, req, addr)
    ensures var d := HandleVerifyRet(env, c, req, addr); d.k == c.k && d.cid == c.cid
  {
  }

  lemma ActiveSelf(c: Con, from: U16, grp: U16, svr: U16)
    ensures var d := HandleSetActiveSvr(c, from, grp, svr); d.k == c.k && d.cid == c.cid
  {
  }

  lemma FiredSelf(c: Con, t: Timer)
    ensures Fired(c, t).k == c.k && Fired(c, t).cid == c.cid
  {
  }

  lemma StepSelf(l: Link, e: Event)
    ensures Step(l, e).con.k == l.con.k && Step(l, e).con.cid == l.con.cid
  {
    match e {
      case Recv(env, chunk) => RecvSelf(env, l.con, l.buf + chunk);
      case VerdictReq(env, req, addr) =>
        if Finds(l.con, req, addr) {
          VerdictSelf(env, l.con, req, addr);
        }
      case RouteReq(from, grp, svr) => ActiveSelf(l.con, from, grp, svr);
      case CacheReq(env, from, on) => CacheSelf(env, l.con, from, on);
      case Timeout(t) => FiredSelf(l.con, t);
      case _ =>
    }
  }

  lemma RevSelf(env: Env, c: Con, p: seq<byte>)
    ensures var d := RevPacket(env, c, p); d.k == c.k && d.cid == c.cid
  {
    var n, f := Noted(c, p), PacketFate(env, c, p);
    match c.phase {
      case Init => AskedSelf(n, f);
      case WaitVerify =>
      case Verifyed => CarriedKept(n, f);
    }
  }

  lemma AskedSelf(c: Con, f: Fate)
    requires !f.Beat?
    ensures Asked(c, f).k == c.k && Asked(c, f).cid == c.cid
  {
    match f {
      case Sent(svr, pack) =>
      case Dropped =>
      case Hopeless =>
    }
  }

  lemma RecvSelf(env: Env, c: Con, s: seq<byte>)
    ensures var d := OnRawRecv(env, c, s).0; d.k == c.k && d.cid == c.cid
  {
    var rev := RevPacketIn(env);
    forall d: Con, p | d.k == c.k && d.cid == c.cid ensures rev(d, p).k == c.k && rev(d, p).cid == c.cid {
      RevSelf(env, d, p);
    }
    PumpKeeps((d: Con) => d.k == c.k && d.cid == c.cid, rev, c, s);
  }

  /** In every run, flushes of the cache included, each pack sent to a server wraps a packet
      that this client had sent before, with the client's id, the packet's first byte as
      command, and all its bytes. */
  lemma TracedInEveryRun(k: CharKind, cid: U64, env: Env, es: seq<Event>)
    ensures Traced(k, cid, Run(Start(k, cid, env), es).con.log)
  {
    StartHonest(k, cid, env);
    forall l: Link, e | Honest(l.con) && l.con.k == k && l.con.cid == cid
      ensures Honest(Step(l, e).con) && Step(l, e).con.k == k && Step(l, e).con.cid == cid
    {
      StepHonest(l, e);
      StepSelf(l, e);
    }
    RunKeeps((c: Con) => Honest(c) && c.k == k && c.cid == cid, Start(k, cid, env), es);
  }
}
