/** What is forwarded over whole runs of a client connection, each packet by the routes and
    settings of the moment it is decided, and what a pause does to that. */
module ClientPause {
  import opened Bytes
  import opened Proto
  import opened Framing
  import opened ExternalCon
  import opened ExternalRuns
  import opened Chunking
  import opened ClientStream
  import opened ClientTrace
  import opened EndToEnd

  // ---- what one event decides -----------------------------------------------------------

  /** The packets whose fate an event decides: those framed from what a verified client sends,
      or those a flush takes from the buffer. */
  function Decided(l: Link, e: Event): seq<seq<byte>> {
    if !l.con.phase.Verifyed? then []
    else match e
      case Recv(_, chunk) => if l.con.connected then ClientPackets(l.con, l.buf + chunk) else []
      case CacheReq(_, _, on) => if on || l.con.cid == 0 then [] else l.con.cache
      case _ => []
  }

  predicate Decides(e: Event) {
    e.Recv? || e.CacheReq?
  }

  /** What an event makes the access server forward to server `me`. */
  function EventPacks(l: Link, e: Event, me: U16): seq<seq<byte>> {
    if Decides(e) then PacksOf(Fates(e.env, l.con, Decided(l, e)), me) else []
  }

  function RunPacks(l: Link, es: seq<Event>, me: U16): seq<seq<byte>>
    decreases |es|
  {
    if es == [] then []
    else RunPacks(l, es[..|es| - 1], me) + EventPacks(Run(l, es[..|es| - 1]), es[|es| - 1], me)
  }

  // ---- what holds of every reachable connection -------------------------------------------

  predicate Sound(c: Con) {
    Inv(c) && Honest(c)
  }

  lemma StepSound(l: Link, e: Event)
    requires Sound(l.con)
    ensures Sound(Step(l, e).con) && Step(l, e).con.k == l.con.k && Step(l, e).con.cid == l.con.cid
  {
    StepInv(l, e);
    StepHonest(l, e);
    StepSelf(l, e);
  }

  lemma {:induction false} RunSound(l: Link, es: seq<Event>)
    requires Sound(l.con)
    ensures Sound(Run(l, es).con) && Run(l, es).con.k == l.con.k && Run(l, es).con.cid == l.con.cid
    decreases |es|
  {
    if es != [] {
      RunSound(l, es[..|es| - 1]);
      StepSound(Run(l, es[..|es| - 1]), es[|es| - 1]);
    }
  }

  lemma StartSound(k: CharKind, cid: U64, env: Env)
    ensures Sound(Start(k, cid, env).con) && Start(k, cid, env).con.k == k && Start(k, cid, env).con.cid == cid
  {
    StartInv(k, cid, env);
    StartHonest(k, cid, env);
  }

  // ---- what is forwarded --------------------------------------------------------------------

  lemma LoggedPacks(log: seq<Entry>, e: Entry, me: U16, w: Scope)
    requires PackFor(e, me, w) == []
    ensures PacksTo(log + [e], me, w) == PacksTo(log, me, w)
  {
    PacksSnoc(log, e, me, w);
    AppendNil(PacksTo(log, me, w));
  }

  lemma AskedSends(c: Con, f: Fate, me: U16)
    requires !f.Beat?
    ensures PacksTo(Asked(c, f).log, me, Forwards) == PacksTo(c.log, me, Forwards)
  {
    if f.Sent? {
      LoggedPacks(c.log, VerifyReq(f.svr, f.pack), me, Forwards);
    }
  }

  lemma NotedPacks(c: Con, p: seq<byte>, me: U16, w: Scope)
    ensures PacksTo(Noted(c, p).log, me, w) == PacksTo(c.log, me, w)
  {
    LoggedPacks(c.log, Dispatched(p), me, w);
  }

  lemma AskedPhase(c: Con, f: Fate)
    requires c.phase.Init? && !f.Beat?
    ensures !Asked(c, f).phase.Verifyed?
  {
  }

  lemma RevUnverified(env: Env, c: Con, p: seq<byte>, me: U16)
    requires !c.phase.Verifyed?
    ensures var d := RevPacket(env, c, p);
            !d.phase.Verifyed? && PacksTo(d.log, me, Forwards) == PacksTo(c.log, me, Forwards)
  {
    var n, f := Noted(c, p), PacketFate(env, c, p);
    NotedPacks(c, p, me, Forwards);
    if c.phase.Init? {
      assert RevPacket(env, c, p) == Asked(n, f);
      AskedSends(n, f, me);
      AskedPhase(n, f);
    } else {
      assert RevPacket(env, c, p) == n;
    }
  }

  lemma UnverifiedSends(env: Env, c: Con, s: seq<byte>, me: U16)
    requires !c.phase.Verifyed?
    ensures PacksTo(OnRawRecv(env, c, s).0.log, me, Forwards) == PacksTo(c.log, me, Forwards)
  {
    var rev, packs := RevPacketIn(env), PacksTo(c.log, me, Forwards);
    forall d: Con, p | !d.phase.Verifyed? && PacksTo(d.log, me, Forwards) == packs
      ensures !rev(d, p).phase.Verifyed? && PacksTo(rev(d, p).log, me, Forwards) == packs
    {
      RevUnverified(env, d, p, me);
    }
    PumpKeeps((d: Con) => !d.phase.Verifyed? && PacksTo(d.log, me, Forwards) == packs, rev, c, s);
  }

  lemma RecvSends(env: Env, l: Link, chunk: seq<byte>, me: U16)
    requires Inv(l.con)
    ensures PacksTo(Deliver(env, l, chunk).con.log, me, Forwards) ==
            PacksTo(l.con.log, me, Forwards) + PacksOf(Fates(env, l.con, Decided(l, Recv(env, chunk))), me)
  {
    AppendNil(PacksTo(l.con.log, me, Forwards));
    if l.con.connected {
      if l.con.phase.Verifyed? {
        StreamSends(env, l.con, l.buf + chunk, me, Forwards);
      } else {
        UnverifiedSends(env, l.con, l.buf + chunk, me);
      }
    }
  }

  lemma SetVerifySends(c: Con, ok: bool, me: U16, w: Scope)
    ensures PacksTo(SetVerify(c, ok).log, me, w) == PacksTo(c.log, me, w)
  {
    LoggedPacks(c.log, Verdict(ok), me, w);
  }

  lemma VerdictSends(env: Env, c: Con, req: VerifyRet, addr: seq<byte>, me: U16)
    requires Finds(c, req, addr)
    ensures PacksTo(HandleVerifyRet(env, c, req, addr).log, me, Forwards) == PacksTo(c.log, me, Forwards)
  {
    var e := ToClient(Answer, ClientPack(req.rsp.cmd, Span(req.rsp.msg, req.rsp.len)));
    var c2 := SetVerify(Log(c, e), req.success);
    LoggedPacks(c.log, e, me, Forwards);
    SetVerifySends(Log(c, e), req.success, me, Forwards);
    if |req.accName| <= MAX_NAME_LEN {
      LoggedPacks(c2.log, Announced(Registered(env), CreatePack(req.cid, req.uin, req.accName, addr)), me, Forwards);
    }
  }

  /** What pausing and resuming forwards, once the request is answered. */
  lemma SetCacheSends(env: Env, c: Con, on: bool, me: U16, w: Scope)
    ensures PacksTo(SetCache(env, c, on).log, me, w) ==
            PacksTo(c.log, me, w) + (if on then [] else PacksOf(Fates(env, c, c.cache), me))
  {
    if on {
      AppendNil(PacksTo(c.log, me, w));
      LoggedPacks(c.log, CacheSet(true), me, w);
    } else {
      FlushedPacks(env, c, me, w);
    }
  }

  lemma SameFates(env: Env, c: Con, d: Con, ps: seq<seq<byte>>)
    requires d.k == c.k && d.cid == c.cid && d.routes == c.routes
    ensures Fates(env, d, ps) == Fates(env, c, ps)
  {
  }

  lemma CacheSends(env: Env, c: Con, from: U16, on: bool, me: U16)
    ensures PacksTo(HandleCacheMsg(env, c, from, on).log, me, Forwards) ==
            PacksTo(c.log, me, Forwards) + (if c.phase.Verifyed? && !on then PacksOf(Fates(env, c, c.cache), me) else [])
  {
    AppendNil(PacksTo(c.log, me, Forwards));
    if c.phase.Verifyed? {
      var d := Log(c, Replied(from, CacheRspPack(c.cid, on)));
      LoggedPacks(c.log, Replied(from, CacheRspPack(c.cid, on)), me, Forwards);
      SetCacheSends(env, d, on, me, Forwards);
      SameFates(env, c, d, c.cache);
    }
  }

  lemma ActiveSends(c: Con, from: U16, grp: U16, svr: U16, me: U16)
    ensures PacksTo(HandleSetActiveSvr(c, from, grp, svr).log, me, Forwards) == PacksTo(c.log, me, Forwards)
  {
    LoggedPacks(c.log, RouteSet(grp, svr), me, Forwards);
    LoggedPacks(SetActiveSvrId(c, grp, svr).log, Replied(from, ActivePack(c.cid, svr, grp)), me, Forwards);
  }

  lemma UinSends(env: Env, c: Con, from: U16, uin: U64, me: U16)
    ensures PacksTo(HandleBroadcastUin(env, c, from, uin).log, me, Forwards) == PacksTo(c.log, me, Forwards)
  {
    LoggedPacks(c.log, UinTold(Registered(env) - {from}, UinPack(c.cid, uin)), me, Forwards);
  }

  lemma RevertSends(c: Con, to: U16, junk: seq<byte>, addr: seq<byte>, me: U16)
    requires |junk| == 21 && |addr| == 16
    ensures PacksTo(RevertSession(c, to, junk, addr).log, me, Forwards) == PacksTo(c.log, me, Forwards)
  {
    LoggedPacks(c.log, Recovered(to, CreateBytes(c.cid, c.uin, junk, addr)), me, Forwards);
  }

  lemma RelaySends(c: Con, cmd: U32, msg: seq<byte>, me: U16, w: Scope)
    ensures PacksTo(HandleForward(c, cmd, msg).log, me, w) == PacksTo(c.log, me, w)
  {
    LoggedPacks(c.log, ToClient(Relay, ClientPack(cmd, msg)), me, w);
  }

  lemma FiredSends(c: Con, t: Timer)
    ensures Fired(c, t).log == c.log
  {
  }

  lemma VerdictReqSends(l: Link, env: Env, req: VerifyRet, addr: seq<byte>, me: U16)
    ensures PacksTo(Step(l, VerdictReq(env, req, addr)).con.log, me, Forwards) == PacksTo(l.con.log, me, Forwards)
  {
    if Finds(l.con, req, addr) {
      VerdictSends(env, l.con, req, addr, me);
    }
  }

  lemma RegReqSends(l: Link, to: U16, junk: seq<byte>, addr: seq<byte>, me: U16)
    ensures PacksTo(Step(l, RegReq(to, junk, addr)).con.log, me, Forwards) == PacksTo(l.con.log, me, Forwards)
  {
    if |junk| == 21 && |addr| == 16 {
      RevertSends(l.con, to, junk, addr, me);
    }
  }

  /** Only what is received and what is flushed is forwarded. */
  lemma OtherSends(l: Link, e: Event, me: U16)
    requires !Decides(e)
    ensures PacksTo(Step(l, e).con.log, me, Forwards) == PacksTo(l.con.log, me, Forwards)
  {
    match e {
      case VerdictReq(env, req, addr) => VerdictReqSends(l, env, req, addr, me);
      case ForwardReq(cmd, msg) => RelaySends(l.con, cmd, msg, me, Forwards);
      case RouteReq(from, grp, svr) => ActiveSends(l.con, from, grp, svr, me);
      case UinReq(env, from, uin) => UinSends(env, l.con, from, uin, me);
      case RegReq(to, junk, addr) => RegReqSends(l, to, junk, addr, me);
      case Timeout(t) => FiredSends(l.con, t);
      case Kick =>
    }
  }

  lemma EventSends(l: Link, e: Event, me: U16)
    requires Inv(l.con)
    ensures PacksTo(Step(l, e).con.log, me, Forwards) == PacksTo(l.con.log, me, Forwards) + EventPacks(l, e, me)
  {
    match e {
      case Recv(env, chunk) => RecvSends(env, l, chunk, me);
      case CacheReq(env, from, on) =>
        AppendNil(PacksTo(l.con.log, me, Forwards));
        if l.con.cid != 0 {
          CacheSends(env, l.con, from, on, me);
        }
      case _ =>
        OtherSends(l, e, me);
        AppendNil(PacksTo(l.con.log, me, Forwards));
    }
  }

  lemma {:induction false} RunSends(l: Link, es: seq<Event>, me: U16)
    requires Sound(l.con)
    ensures PacksTo(Run(l, es).con.log, me, Forwards) == PacksTo(l.con.log, me, Forwards) + RunPacks(l, es, me)
    decreases |es|
  {
    if es == [] {
      AppendNil(PacksTo(l.con.log, me, Forwards));
    } else {
      var before, e := es[..|es| - 1], es[|es| - 1];
      RunSends(l, before, me);
      RunSound(l, before);
      EventSends(Run(l, before), e, me);
      Assoc(PacksTo(l.con.log, me, Forwards), RunPacks(l, before, me), EventPacks(Run(l, before), e, me));
    }
  }

  lemma DecidedSized(l: Link, e: Event)
    requires Sound(l.con)
    ensures Sized(Decided(l, e))
  {
    if e.Recv? {
      FrameSplits(l.con.k, false, l.buf + e.chunk);
      FramesAreSized(l.con.k, false, ClientPackets(l.con, l.buf + e.chunk));
    }
  }

  lemma StartSendsNothing(k: CharKind, cid: U64, env: Env, me: U16, w: Scope)
    ensures PacksTo(Start(k, cid, env).con.log, me, w) == []
  {
    var c := Start(k, cid, env).con;
    if c.log != [] {
      assert c.log == [] + [c.log[0]];
      LoggedPacks([], c.log[0], me, w);
    }
  }

  // ---- pauses -----------------------------------------------------------------------------

  predicate NoFlush(es: seq<Event>) {
    forall j :: 0 <= j < |es| && es[j].CacheReq? ==> es[j].on
  }

  /** The packets received in a run. */
  function RunPackets(l: Link, es: seq<Event>): seq<seq<byte>>
    decreases |es|
  {
    if es == [] then []
    else RunPackets(l, es[..|es| - 1]) + Decided(Run(l, es[..|es| - 1]), es[|es| - 1])
  }

  /** A client whose messages are paused. */
  predicate OnHold(c: Con) {
    c.phase.Verifyed? && c.caching && c.seeded
  }

  lemma RecvHolds(env: Env, c: Con, s: seq<byte>)
    requires OnHold(c)
    ensures var d := OnRawRecv(env, c, s).0; OnHold(d) && d.cache == c.cache + ClientPackets(c, s)
  {
    ClientUniform(env);
    PumpIsFrame(Client(env), c, s);
    RevAllState(env, c, ClientPackets(c, s));
    RevAllKeeps(Client(env), c, ClientPackets(c, s));
  }

  lemma VerdictHolds(env: Env, c: Con, req: VerifyRet, addr: seq<byte>)
    requires OnHold(c) && Finds(c, req, addr)
    ensures var d := HandleVerifyRet(env, c, req, addr); OnHold(d) && d.cache == c.cache
  {
  }

  lemma CacheHolds(env: Env, c: Con, from: U16)
    requires OnHold(c)
    ensures var d := HandleCacheMsg(env, c, from, true); OnHold(d) && d.cache == c.cache
  {
  }

  lemma RequestHolds(env: Env, c: Con, from: U16, grp: U16, svr: U16, uin: U64)
    requires OnHold(c)
    ensures OnHold(HandleSetActiveSvr(c, from, grp, svr)) && HandleSetActiveSvr(c, from, grp, svr).cache == c.cache
    ensures OnHold(HandleBroadcastUin(env, c, from, uin)) && HandleBroadcastUin(env, c, from, uin).cache == c.cache
  {
  }

  lemma RevertHolds(c: Con, to: U16, junk: seq<byte>, addr: seq<byte>)
    requires OnHold(c) && |junk| == 21 && |addr| == 16
    ensures OnHold(RevertSession(c, to, junk, addr)) && RevertSession(c, to, junk, addr).cache == c.cache
  {
  }

  lemma FiredHolds(c: Con, t: Timer)
    requires OnHold(c)
    ensures OnHold(Fired(c, t)) && Fired(c, t).cache == c.cache
  {
  }

  lemma OtherHolds(l: Link, e: Event)
    requires OnHold(l.con) && !e.Recv? && (e.CacheReq? ==> e.on)
    ensures OnHold(Step(l, e).con) && Step(l, e).con.cache == l.con.cache
  {
    match e {
      case VerdictReq(env, req, addr) =>
        if Finds(l.con, req, addr) {
          VerdictHolds(env, l.con, req, addr);
        }
      case ForwardReq(cmd, msg) =>
      case RouteReq(from, grp, svr) => RequestHolds(ONE_SERVER, l.con, from, grp, svr, 0);
      case CacheReq(env, from, on) => CacheHolds(env, l.con, from);
      case UinReq(env, from, uin) => RequestHolds(env, l.con, from, 0, 0, uin);
      case RegReq(to, junk, addr) =>
        if |junk| == 21 && |addr| == 16 {
          RevertHolds(l.con, to, junk, addr);
        }
      case Timeout(t) => FiredHolds(l.con, t);
      case Kick =>
    }
  }

  lemma EventHolds(l: Link, e: Event)
    requires OnHold(l.con) && (e.CacheReq? ==> e.on)
    ensures OnHold(Step(l, e).con) && Step(l, e).con.cache == l.con.cache + Decided(l, e)
  {
    if e.Recv? && l.con.connected {
      RecvHolds(e.env, l.con, l.buf + e.chunk);
    } else {
      AppendNil(l.con.cache);
      if !e.Recv? {
        OtherHolds(l, e);
      }
    }
  }

  lemma NoFlushPrefix(es: seq<Event>)
    requires es != [] && NoFlush(es)
    ensures NoFlush(es[..|es| - 1])
  {
    var fs := es[..|es| - 1];
    forall j | 0 <= j < |fs| && fs[j].CacheReq? ensures fs[j].on {
      assert fs[j] == es[j];
    }
  }

  lemma {:induction false} RunHolds(l: Link, es: seq<Event>)
    requires OnHold(l.con) && NoFlush(es)
    ensures OnHold(Run(l, es).con) && Run(l, es).con.cache == l.con.cache + RunPackets(l, es)
    decreases |es|
  {
    if es == [] {
      AppendNil(l.con.cache);
    } else {
      var n := |es| - 1;
      NoFlushPrefix(es);
      RunHolds(l, es[..n]);
      EventHolds(Run(l, es[..n]), es[n]);
      Assoc(l.con.cache, RunPackets(l, es[..n]), Decided(Run(l, es[..n]), es[n]));
    }
  }

  /** The event decides no packet that is forwarded to server `me`. */
  predicate SparedBy(l: Link, e: Event, me: U16) {
    Decides(e) ==> NothingFor(e.env, l.con, me, Decided(l, e))
  }

  /** Event j of a run does not. */
  predicate SparedAt(l: Link, es: seq<Event>, j: nat, me: U16)
    requires j < |es|
  {
    SparedBy(Run(l, es[..j]), es[j], me)
  }

  function PacksAt(l: Link, es: seq<Event>, j: nat, me: U16): seq<seq<byte>>
    requires j < |es|
  {
    EventPacks(Run(l, es[..j]), es[j], me)
  }

  predicate NoneBefore(l: Link, es: seq<Event>, n: nat, me: U16)
    requires n <= |es|
  {
    forall j :: 0 <= j < n ==> PacksAt(l, es, j, me) == []
  }

  lemma NonePrefix(l: Link, es: seq<Event>, n: nat, me: U16)
    requires n <= |es|
    ensures NoneBefore(l, es[..n], n, me) <==> NoneBefore(l, es, n, me)
  {
    forall j | 0 <= j < n ensures PacksAt(l, es[..n], j, me) == PacksAt(l, es, j, me) {
      assert es[..n][..j] == es[..j] && es[..n][j] == es[j];
    }
  }

  lemma NoneNext(l: Link, es: seq<Event>, n: nat, me: U16)
    requires n < |es|
    ensures NoneBefore(l, es, n + 1, me) <==> NoneBefore(l, es, n, me) && PacksAt(l, es, n, me) == []
  {
  }

  lemma {:induction false} NoRunPacks(l: Link, es: seq<Event>, me: U16)
    ensures RunPacks(l, es, me) == [] <==> NoneBefore(l, es, |es|, me)
    decreases |es|
  {
    if es != [] {
      var n := |es| - 1;
      NoRunPacks(l, es[..n], me);
      NonePrefix(l, es, n, me);
      NoneNext(l, es, n, me);
      BothEmpty(RunPacks(l, es[..n], me), PacksAt(l, es, n, me));
    }
  }

  lemma SparedMeans(l: Link, e: Event, me: U16)
    requires Sound(l.con)
    ensures SparedBy(l, e, me) <==> EventPacks(l, e, me) == []
  {
    DecidedSized(l, e);
    if Decides(e) {
      NothingForMeans(e.env, l.con, me, Decided(l, e));
    }
  }

  lemma RunSpares(l: Link, es: seq<Event>, me: U16)
    requires Sound(l.con)
    ensures RunPacks(l, es, me) == [] <==> forall j :: 0 <= j < |es| ==> SparedAt(l, es, j, me)
  {
    NoRunPacks(l, es, me);
    forall j | 0 <= j < |es| ensures SparedAt(l, es, j, me) <==> PacksAt(l, es, j, me) == [] {
      RunSound(l, es[..j]);
      SparedMeans(Run(l, es[..j]), es[j], me);
    }
  }

  lemma SameOnlyIfNothing<T>(a: seq<T>, b: seq<T>)
    ensures a + b == a <==> b == []
  {
    if b == [] {
      AppendNil(a);
    } else {
      assert |a + b| > |a|;
    }
  }

  /** Resuming: what the buffer holds is decided again, and forwarded unless nothing of it is
      for the server. */
  lemma ResumeSends(env: Env, c: Con, from: U16, me: U16)
    requires c.phase.Verifyed? && Sized(c.cache)
    ensures var d := HandleCacheMsg(env, c, from, false);
            && PacksTo(d.log, me, Forwards) == PacksTo(c.log, me, Forwards) + PacksOf(Fates(env, c, c.cache), me)
            && (PacksTo(d.log, me, Forwards) == PacksTo(c.log, me, Forwards) <==> NothingFor(env, c, me, c.cache))
  {
    CacheSends(env, c, from, false, me);
    NothingForMeans(env, c, me, c.cache);
    SameOnlyIfNothing(PacksTo(c.log, me, Forwards), PacksOf(Fates(env, c, c.cache), me));
  }

  lemma PauseSends(l: Link, es: seq<Event>, me: U16)
    requires Sound(l.con)
    ensures var d := Run(l, es).con;
            && PacksTo(d.log, me, Forwards) == PacksTo(l.con.log, me, Forwards) + RunPacks(l, es, me)
            && (PacksTo(d.log, me, Forwards) == PacksTo(l.con.log, me, Forwards) <==>
                forall j :: 0 <= j < |es| ==> SparedAt(l, es, j, me))
  {
    RunSends(l, es, me);
    RunSpares(l, es, me);
    SameOnlyIfNothing(PacksTo(l.con.log, me, Forwards), RunPacks(l, es, me));
  }

  /** A pause holds nothing back. However long it lasts and whatever happens meanwhile, each
      packet is forwarded when it arrives, and all of them, with what the buffer held before,
      are decided again on resume. The server is left in peace during the pause if and only if
      no packet that arrived was for it, and on resume if and only if no buffered one is. */
  lemma PauseForwardsTwice(l: Link, es: seq<Event>, m: Link, env: Env, from: U16, me: U16, d: Con)
    requires Sound(l.con) && OnHold(l.con) && NoFlush(es)
    requires m == Run(l, es) && d == HandleCacheMsg(env, m.con, from, false)
    ensures m.con.cache == l.con.cache + RunPackets(l, es)
    ensures PacksTo(m.con.log, me, Forwards) == PacksTo(l.con.log, me, Forwards) + RunPacks(l, es, me)
    ensures PacksTo(d.log, me, Forwards) == PacksTo(m.con.log, me, Forwards) + PacksOf(Fates(env, m.con, m.con.cache), me)
    ensures PacksTo(m.con.log, me, Forwards) == PacksTo(l.con.log, me, Forwards) <==> forall j :: 0 <= j < |es| ==> SparedAt(l, es, j, me)
    ensures PacksTo(d.log, me, Forwards) == PacksTo(m.con.log, me, Forwards) <==> NothingFor(env, m.con, me, m.con.cache)
  {
    RunHolds(l, es);
    PauseSends(l, es, me);
    RunSound(l, es);
    ResumeSends(env, m.con, from, me);
  }

  /** The packets a pause is shown with: one, sent while it lasts. */
  const PAUSE: seq<Event> := [CacheReq(ONE_SERVER, 7, true), Recv(ONE_SERVER, [1, 0, 4, 9]), CacheReq(ONE_SERVER, 7, false)]

  lemma RunThree(l: Link, a: Event, b: Event, c: Event)
    ensures Run(l, [a, b, c]) == Step(Step(Step(l, a), b), c)
  {
    RunTwo(l, a, b);
    assert [a, b, c][..2] == [a, b];
  }

  lemma OneFate(c: Con, p: seq<byte>, pack: seq<byte>)
    requires ClientFate(ONE_SERVER, c.k, c.cid, c.routes, p) == Sent(7, pack)
    ensures PacksOf(Fates(ONE_SERVER, c, [p]), 7) == [pack]
  {
    var fs := Fates(ONE_SERVER, c, [p]);
    assert fs == [Sent(7, pack)] && fs[..0] == [];
    AppendNil([pack]);
  }

  lemma ShownPacket()
    ensures var p := [1, 0, 4, 9];
            && Frame(UnsignedChar, false, p).pkts == [p]
            && ClientFate(ONE_SERVER, UnsignedChar, 1, [], p) == Sent(7, WrapPack(CMD_NTF_FORWARD, 1, 1, p))
  {
    var p: seq<byte> := [1, 0, 4, 9];
    assert IsPacket(UnsignedChar, false, p);
    FrameOfPackets(UnsignedChar, false, [p], []);
    assert Flatten([p]) == p + Flatten([]);
    AppendNil(p);
    AppendNil([p]);
    ArePacketsIff(UnsignedChar, false, [p]);
  }

  lemma StepCache(l: Link, env: Env, from: U16, on: bool)
    requires l.con.cid != 0
    ensures Step(l, CacheReq(env, from, on)).con == HandleCacheMsg(env, l.con, from, on)
  {
  }

  /** A run in which a pause shows: the one packet sent meanwhile reaches the server twice. */
  lemma PauseShown(l: Link, c: Con)
    requires l == Run(Start(UnsignedChar, 1, ONE_SERVER), LOGIN) && c == Run(l, PAUSE).con
    ensures var pack := WrapPack(CMD_NTF_FORWARD, 1, 1, [1, 0, 4, 9]);
            PacksTo(l.con.log, 7, Forwards) == [] && PacksTo(c.log, 7, Forwards) == [pack, pack]
  {
    var pack := WrapPack(CMD_NTF_FORWARD, 1, 1, [1, 0, 4, 9]);
    var l1 := Step(l, PAUSE[0]);
    RunThree(l, PAUSE[0], PAUSE[1], PAUSE[2]);
    PausedLogin(l, l1);
    LoggedIn();
    ShownPacket();
    var d := Step(l1, PAUSE[1]).con;
    HeldOnce(l1, PAUSE[1], [1, 0, 4, 9], pack, d);
    StepSound(l1, PAUSE[1]);
    StepCache(Step(l1, PAUSE[1]), ONE_SERVER, 7, false);
    ResumeSends(ONE_SERVER, d, 7, 7);
    Twice(PacksTo(c.log, 7, Forwards), pack);
  }

  /** The state in which a pause begins. */
  function Holding(c: Con, from: U16): Con {
    Log(Log(c, Replied(from, CacheRspPack(c.cid, true))), CacheSet(true)).(caching := true)
  }

  lemma HoldBegins(l: Link, env: Env, from: U16)
    requires Sound(l.con) && l.con.phase.Verifyed? && !l.con.caching && l.con.cid != 0
    ensures var l1 := Step(l, CacheReq(env, from, true));
            && Sound(l1.con) && OnHold(l1.con) && l1 == l.(con := Holding(l.con, from))
  {
    StepSound(l, CacheReq(env, from, true));
  }

  /** The pause begins. */
  lemma PausedLogin(l: Link, l1: Link)
    requires l == Run(Start(UnsignedChar, 1, ONE_SERVER), LOGIN) && l1 == Step(l, PAUSE[0])
    ensures Sound(l1.con) && OnHold(l1.con) && l1 == l.(con := l1.con)
    ensures l1.con == Holding(l.con, 7)
    ensures PacksTo(l.con.log, 7, Forwards) == [] && PacksTo(l1.con.log, 7, Forwards) == []
  {
    LoggedIn();
    StartSound(UnsignedChar, 1, ONE_SERVER);
    RunSound(Start(UnsignedChar, 1, ONE_SERVER), LOGIN);
    LoginSends();
    HoldBegins(l, ONE_SERVER, 7);
    CacheSends(ONE_SERVER, l.con, 7, true, 7);
  }

  /** One packet during a pause: sent, and held. */
  lemma HeldOnce(l: Link, e: Event, p: seq<byte>, pack: seq<byte>, d: Con)
    requires Sound(l.con) && OnHold(l.con) && l.buf == [] && l.con.connected && l.con.cache == []
    requires l.con.k.UnsignedChar? && l.con.cid == 1 && l.con.routes == [] && PacksTo(l.con.log, 7, Forwards) == []
    requires e == Recv(ONE_SERVER, p) && Frame(UnsignedChar, false, p).pkts == [p] && d == Step(l, e).con
    requires ClientFate(ONE_SERVER, UnsignedChar, 1, [], p) == Sent(7, pack)
    ensures d.phase.Verifyed? && PacksTo(d.log, 7, Forwards) == [pack] && d.cache == [p]
    ensures PacksOf(Fates(ONE_SERVER, d, d.cache), 7) == [pack]
  {
    AppendNil(p);
    AppendNil([p]);
    AppendNil([pack]);
    EventSends(l, e, 7);
    EventHolds(l, e);
    OneFate(l.con, p, pack);
    HeldPacket(l, e, p, pack);
  }

  lemma Twice(log: seq<seq<byte>>, pack: seq<byte>)
    requires log == [pack] + [pack]
    ensures log == [pack, pack]
  {
  }

  lemma LoginSends()
    ensures PacksTo(Run(Start(UnsignedChar, 1, ONE_SERVER), LOGIN).con.log, 7, Forwards) == []
  {
    var l := Start(UnsignedChar, 1, ONE_SERVER);
    RunTwo(l, LOGIN[0], LOGIN[1]);
    FirstPacketSent();
    StartSound(UnsignedChar, 1, ONE_SERVER);
    StartSendsNothing(UnsignedChar, 1, ONE_SERVER, 7, Forwards);
    StepSound(l, LOGIN[0]);
    EventSends(l, LOGIN[0], 7);
    EventSends(Step(l, LOGIN[0]), LOGIN[1], 7);
  }

  /** What is held after one packet during a pause with an empty buffer is decided as before. */
  lemma HeldPacket(l: Link, e: Event, p: seq<byte>, pack: seq<byte>)
    requires Sound(l.con) && OnHold(l.con) && l.con.cache == [] && l.con.k.UnsignedChar? && l.con.cid == 1
    requires l.con.routes == [] && e == Recv(ONE_SERVER, p) && Decided(l, e) == [p]
    requires ClientFate(ONE_SERVER, UnsignedChar, 1, [], p) == Sent(7, pack)
    ensures PacksOf(Fates(ONE_SERVER, Step(l, e).con, [] + [p]), 7) == [pack]
  {
    ClientUniform(ONE_SERVER);
    PumpIsFrame(Client(ONE_SERVER), l.con, l.buf + p);
    RevAllState(ONE_SERVER, l.con, ClientPackets(l.con, l.buf + p));
    AppendNil([p]);
    OneFate(Step(l, e).con, p, pack);
  }
}
