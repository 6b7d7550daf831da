/** What the messages of the servers (acc_svr/inner_con.cpp) can do to a client connection over
    whole runs: verification happens once or never, and a pause buffers what arrives. */
module InnerCon {
  import opened Bytes
  import opened Proto
  import opened ExternalCon
  import opened ExternalRuns

  // ---- what may happen when -----------------------------------------------------------

  /** One entry in its place: one verify request, one verdict and that positive; routes,
      pauses, answers about them and messages for the client only once it is verified. */
  predicate Fits(t: Tally, e: Entry) {
    match e
    case VerifyReq(_, _) => t.reqs == 0
    case Verdict(ok) => ok && t.verdicts == 0
    case RouteSet(_, _) => t.verified
    case CacheSet(_) => t.verified
    case ToClient(why, _) => why.Relay? || why.Echo? ==> t.verified
    case Replied(_, _) => t.verified
    case Recovered(_, _) => t.verified
    case Left(_, _) => t.verified
    case _ => true
  }

  predicate Orderly(log: seq<Entry>)
    decreases |log|
  {
    log != [] ==> Orderly(log[..|log| - 1]) && Fits(Recount(log[..|log| - 1]), log[|log| - 1])
  }

  lemma OrderlySnoc(log: seq<Entry>, e: Entry)
    ensures Orderly(log + [e]) <==> Orderly(log) && Fits(Recount(log), e)
  {
    SnocParts(log, e);
  }

  lemma {:induction false} OneVerdict(log: seq<Entry>)
    requires Orderly(log)
    ensures Recount(log).verdicts == (if Recount(log).verified then 1 else 0)
    decreases |log|
  {
    if log != [] {
      OneVerdict(log[..|log| - 1]);
    }
  }

  predicate Ordered(c: Con) {
    Inv(c) && Orderly(c.log)
  }

  lemma CarriedOrderly(c: Con, f: Fate)
    requires Orderly(c.log) && Recount(c.log).verified
    ensures Orderly(Carried(c, f).log) && Recount(Carried(c, f).log).verified
  {
    match f {
      case Beat(pack) =>
        OrderlySnoc(c.log, ToClient(Echo, pack));
        RecountSnoc(c.log, ToClient(Echo, pack));
      case Sent(svr, pack) =>
        OrderlySnoc(c.log, Forwarded(svr, pack));
        RecountSnoc(c.log, Forwarded(svr, pack));
      case Dropped =>
      case Hopeless =>
    }
  }

  lemma {:induction false} CarriedAllOrderly(c: Con, fs: seq<Fate>)
    requires Orderly(c.log) && Recount(c.log).verified
    ensures Orderly(CarriedAll(c, fs).log) && Recount(CarriedAll(c, fs).log).verified
    decreases |fs|
  {
    if fs != [] {
      CarriedAllOrderly(c, fs[..|fs| - 1]);
      CarriedOrderly(CarriedAll(c, fs[..|fs| - 1]), fs[|fs| - 1]);
    }
  }

  lemma AskedOrderly(c: Con, f: Fate)
    requires Orderly(c.log) && Recount(c.log).reqs == 0 && !f.Beat?
    ensures Orderly(Asked(c, f).log)
  {
    if f.Sent? {
      OrderlySnoc(c.log, VerifyReq(f.svr, f.pack));
    }
  }

  lemma RevOrdered(env: Env, c: Con, p: seq<byte>)
    requires Ordered(c) && c.seeded
    ensures Ordered(RevPacket(env, c, p))
  {
    var n, f := Noted(c, p), PacketFate(env, c, p);
    RevPacketInv(env, c, p);
    OneVerdict(c.log);
    OrderlySnoc(c.log, Dispatched(p));
    RecountSnoc(c.log, Dispatched(p));
    match c.phase {
      case Init => AskedOrderly(n, f);
      case WaitVerify =>
      case Verifyed => CarriedOrderly(n, f);
    }
  }

  lemma RecvOrdered(env: Env, c: Con, s: seq<byte>)
    requires Ordered(c)
    ensures Ordered(OnRawRecv(env, c, s).0)
  {
    var rev := RevPacketIn(env);
    forall d, p | Ordered(d) && d.seeded ensures Ordered(rev(d, p)) {
      RevOrdered(env, d, p);
    }
    PumpKeeps(Ordered, rev, c, s);
  }

  /** Entries that need no order, or come when the client is verified. */
  lemma SpokenOrdered(c: Con, e: Entry)
    requires Ordered(c) && Spoken(e) && Fits(Recount(c.log), e)
    ensures Ordered(Log(c, e))
  {
    SpokenInv(c, e);
    OrderlySnoc(c.log, e);
  }

  lemma SetVerifyOrdered(c: Con)
    requires Ordered(c)
    ensures Ordered(SetVerify(c, true))
  {
    SetVerifyInv(c, true);
    OneVerdict(c.log);
    OrderlySnoc(c.log, Verdict(true));
  }

  lemma VerdictOrdered(env: Env, c: Con, req: VerifyRet, addr: seq<byte>)
    requires Ordered(c) && Finds(c, req, addr)
    ensures Ordered(HandleVerifyRet(env, c, req, addr))
  {
    var e := ToClient(Answer, ClientPack(req.rsp.cmd, Span(req.rsp.msg, req.rsp.len)));
    SpokenOrdered(c, e);
    SetVerifyOrdered(Log(c, e));
    if req.success && |req.accName| <= MAX_NAME_LEN {
      SpokenOrdered(SetVerify(Log(c, e), true),
                    Announced(Registered(env), CreatePack(req.cid, req.uin, req.accName, addr)));
    }
  }

  lemma SetCacheOrdered(env: Env, c: Con, on: bool)
    requires Ordered(c) && c.phase.Verifyed?
    ensures Ordered(SetCache(env, c, on))
  {
    var fs := Fates(env, c, c.cache);
    SetCacheInv(env, c, on);
    CarriedAllOrderly(c, fs);
    OrderlySnoc(c.log, CacheSet(on));
    OrderlySnoc(CarriedAll(c, fs).log, CacheSet(on));
  }

  lemma CacheOrdered(env: Env, c: Con, from: U16, on: bool)
    requires Ordered(c)
    ensures Ordered(HandleCacheMsg(env, c, from, on))
  {
    if c.phase.Verifyed? {
      var e := Replied(from, CacheRspPack(c.cid, on));
      SpokenOrdered(c, e);
      SetCacheOrdered(env, Log(c, e), on);
    }
  }

  lemma ActiveOrdered(c: Con, from: U16, grp: U16, svr: U16)
    requires Ordered(c)
    ensures Ordered(HandleSetActiveSvr(c, from, grp, svr))
  {
    if c.phase.Verifyed? {
      SetActiveInv(c, grp, svr);
      OrderlySnoc(c.log, RouteSet(grp, svr));
      RecountSnoc(c.log, RouteSet(grp, svr));
      SpokenOrdered(SetActiveSvrId(c, grp, svr), Replied(from, ActivePack(c.cid, svr, grp)));
    }
  }

  lemma UinOrdered(env: Env, c: Con, from: U16, uin: U64)
    requires Ordered(c)
    ensures Ordered(HandleBroadcastUin(env, c, from, uin))
  {
    SpokenOrdered(c.(uin := uin), UinTold(Registered(env) - {from}, UinPack(c.cid, uin)));
  }

  lemma RelayOrdered(c: Con, cmd: U32, msg: seq<byte>)
    requires Ordered(c)
    ensures Ordered(HandleForward(c, cmd, msg))
  {
    if c.phase.Verifyed? {
      SpokenOrdered(c, ToClient(Relay, ClientPack(cmd, msg)));
    }
  }

  lemma RevertOrdered(c: Con, to: U16, junk: seq<byte>, addr: seq<byte>)
    requires Ordered(c) && |junk| == 21 && |addr| == 16
    ensures Ordered(RevertSession(c, to, junk, addr))
  {
    if c.phase.Verifyed? {
      SpokenOrdered(c, Recovered(to, CreateBytes(c.cid, c.uin, junk, addr)));
    }
  }

  lemma FiredOrdered(c: Con, t: Timer)
    requires Ordered(c)
    ensures Ordered(Fired(c, t)) && Ordered(Disc(c))
  {
    FiredInv(c, t);
  }

  lemma StepOrdered(l: Link, e: Event)
    requires Ordered(l.con)
    ensures Ordered(Step(l, e).con)
  {
    match e {
      case Recv(env, chunk) => RecvOrdered(env, l.con, l.buf + chunk);
      case VerdictReq(env, req, addr) =>
        if Finds(l.con, req, addr) {
          VerdictOrdered(env, l.con, req, addr);
        }
      case _ => OtherOrdered(l, e);
    }
  }

  lemma OtherOrdered(l: Link, e: Event)
    requires Ordered(l.con) && !e.Recv? && !e.VerdictReq?
    ensures Ordered(Step(l, e).con)
  {
    match e {
      case ForwardReq(cmd, msg) => RelayOrdered(l.con, cmd, msg);
      case RouteReq(from, grp, svr) => ActiveOrdered(l.con, from, grp, svr);
      case CacheReq(env, from, on) => CacheOrdered(env, l.con, from, on);
      case UinReq(env, from, uin) => UinOrdered(env, l.con, from, uin);
      case RegReq(to, junk, addr) =>
        if |junk| == 21 && |addr| == 16 {
          RevertOrdered(l.con, to, junk, addr);
        }
      case Timeout(t) => FiredOrdered(l.con, t);
      case Kick => FiredOrdered(l.con, FirstTimer);
    }
  }

  lemma StartOrdered(k: CharKind, cid: U64, env: Env)
    ensures Ordered(OnConnected(env, Fresh(k, cid)))
  {
    var c := OnConnected(env, Fresh(k, cid));
    StartInv(k, cid, env);
    if c.log != [] {
      OrderlySnoc([], c.log[0]);
      assert [] + [c.log[0]] == c.log;
    }
  }

  lemma ReachableOrdered(k: CharKind, cid: U64, env: Env, es: seq<Event>)
    ensures Ordered(Run(Start(k, cid, env), es).con)
  {
    StartOrdered(k, cid, env);
    forall l: Link, e | Ordered(l.con) ensures Ordered(Step(l, e).con) {
      StepOrdered(l, e);
    }
    RunKeeps(Ordered, Start(k, cid, env), es);
  }

  // ---- verification -------------------------------------------------------------------

  lemma {:induction false} NoRequests(log: seq<Entry>)
    requires Recount(log).reqs == 0
    ensures forall i :: 0 <= i < |log| ==> !log[i].VerifyReq?
    decreases |log|
  {
    if log != [] {
      NoRequests(log[..|log| - 1]);
      assert forall i :: 0 <= i < |log| - 1 ==> log[i] == log[..|log| - 1][i];
    }
  }

  lemma {:induction false} OrderlyMeans(log: seq<Entry>)
    requires Orderly(log)
    ensures Verdict(false) !in log
    ensures forall i, j :: 0 <= i < j < |log| && log[i].VerifyReq? ==> !log[j].VerifyReq?
    decreases |log|
  {
    if log != [] {
      var n := |log| - 1;
      OrderlyMeans(log[..n]);
      Cut(log, n);
      if log[n].VerifyReq? {
        NoRequests(log[..n]);
      }
      forall i, j | 0 <= i < j < |log| && log[i].VerifyReq? ensures !log[j].VerifyReq? {
        assert log[..n][i] == log[i];
        if j < n {
          assert log[..n][j] == log[j];
        }
      }
    }
  }

  /** In every run a client is put to a verify server once at most, and no verdict on it ever
      fails: a negative one is passed on to the client and leaves it waiting. So the way back
      from waiting to asking again, which SetVerify has, is never taken. */
  lemma NoVerdictFails(k: CharKind, cid: U64, env: Env, es: seq<Event>, c: Con)
    requires c == Run(Start(k, cid, env), es).con
    ensures Verdict(false) !in c.log
    ensures forall i, j :: 0 <= i < j < |c.log| && c.log[i].VerifyReq? ==> !c.log[j].VerifyReq?
    ensures Recount(c.log).reqs == if c.phase.Init? then 0 else 1
  {
    ReachableOrdered(k, cid, env, es);
    OrderlyMeans(c.log);
    OneVerdict(c.log);
  }

  // ---- pauses -------------------------------------------------------------------------

  /** A pause that began and was not ended. */
  predicate Paused(log: seq<Entry>) {
    exists i :: 0 <= i < |log| && log[i] == CacheSet(true) && CacheSet(false) !in log[i..]
  }

  /** The pause that lasts began with entry i. */
  predicate PauseBegan(log: seq<Entry>, i: nat) {
    i < |log| && log[i] == CacheSet(true) && CacheSet(false) !in log[i..] && !Paused(log[..i])
  }

  lemma TailSnoc(log: seq<Entry>, i: nat)
    requires i < |log| - 1
    ensures log[i..] == log[..|log| - 1][i..] + [log[|log| - 1]]
    ensures log[..|log| - 1][..i] == log[..i] && log[..|log| - 1][i] == log[i]
  {
  }

  lemma PauseEnds(log: seq<Entry>)
    requires log != [] && log[|log| - 1] == CacheSet(false)
    ensures !Paused(log)
  {
    forall i | 0 <= i < |log| ensures CacheSet(false) in log[i..] {
      assert log[i..][|log| - 1 - i] == CacheSet(false);
    }
  }

  lemma StillUnpaused(log: seq<Entry>)
    requires log != [] && !log[|log| - 1].CacheSet? && !Paused(log[..|log| - 1])
    ensures !Paused(log)
  {
    forall i | 0 <= i < |log| && log[i] == CacheSet(true) ensures CacheSet(false) in log[i..] {
      TailSnoc(log, i);
    }
  }

  lemma PauseGoesOn(log: seq<Entry>, i: nat)
    requires log != [] && log[|log| - 1] != CacheSet(false) && PauseBegan(log[..|log| - 1], i)
    ensures PauseBegan(log, i)
    ensures var e := log[|log| - 1];
            Handed(log[i..]) == Handed(log[..|log| - 1][i..]) + (if e.Dispatched? then [e.p] else [])
  {
    TailSnoc(log, i);
    HandedSnoc(log[..|log| - 1][i..], log[|log| - 1]);
  }

  lemma PauseStarts(log: seq<Entry>)
    requires log != [] && log[|log| - 1] == CacheSet(true) && !Paused(log[..|log| - 1])
    ensures PauseBegan(log, |log| - 1) && Handed(log[|log| - 1..]) == []
  {
    var n := |log| - 1;
    HandedSnoc([], log[n]);
    assert log[n..] == [] + [log[n]];
  }

  /** The tally says of the pause, which began with entry i, what the log says. */
  predicate Tallied(log: seq<Entry>, i: nat) {
    var t := Recount(log);
    && (t.caching <==> Paused(log))
    && (Paused(log) ==> PauseBegan(log, i) && t.verified && t.pending == Handed(log[i..]))
    && (!Paused(log) ==> t.pending == [])
  }

  lemma GoesOnTallied(log: seq<Entry>, i: nat)
    requires log != [] && Tallied(log[..|log| - 1], i) && Paused(log[..|log| - 1]) && log[|log| - 1] != CacheSet(false)
    ensures Tallied(log, i)
  {
    PauseGoesOn(log, i);
    AppendNil(Handed(log[..|log| - 1][i..]));
  }

  lemma StartsTallied(log: seq<Entry>, i: nat)
    requires log != [] && Orderly(log) && Tallied(log[..|log| - 1], i) && !Paused(log[..|log| - 1])
    requires log[|log| - 1] == CacheSet(true)
    ensures Tallied(log, |log| - 1)
  {
    PauseStarts(log);
  }

  lemma EndsTallied(log: seq<Entry>, i: nat)
    requires log != [] && Tallied(log[..|log| - 1], i)
    requires log[|log| - 1] == CacheSet(false) || (!log[|log| - 1].CacheSet? && !Paused(log[..|log| - 1]))
    ensures Tallied(log, i)
  {
    if log[|log| - 1] == CacheSet(false) {
      PauseEnds(log);
    } else {
      StillUnpaused(log);
    }
  }

  /** One more entry, the pause that lasts before it having begun with entry i. */
  lemma PendingNext(log: seq<Entry>, i: nat) returns (j: nat)
    requires log != [] && Orderly(log) && Tallied(log[..|log| - 1], i)
    ensures Tallied(log, j)
  {
    var n := |log| - 1;
    j := i;
    if log[n] == CacheSet(false) {
      EndsTallied(log, i);
    } else if Paused(log[..n]) {
      GoesOnTallied(log, i);
    } else if log[n] == CacheSet(true) {
      StartsTallied(log, i);
      j := n;
    } else {
      EndsTallied(log, i);
    }
  }

  /** What the tally calls pending, read off the log: what was handed over since the pause began. */
  lemma {:induction false} PendingMeans(log: seq<Entry>) returns (i: nat)
    requires Orderly(log)
    ensures Recount(log).caching <==> Paused(log)
    ensures Paused(log) ==> PauseBegan(log, i) && Recount(log).verified && Recount(log).pending == Handed(log[i..])
    ensures !Paused(log) ==> Recount(log).pending == []
    decreases |log|
  {
    i := 0;
    if log != [] {
      i := PendingMeans(log[..|log| - 1]);
      i := PendingNext(log, i);
    }
  }

  /** In every run the client is paused exactly if the last pause was not ended, and the buffer
      holds exactly what was handed over since it began, in order; else it is empty. */
  lemma CacheInEveryRun(k: CharKind, cid: U64, env: Env, es: seq<Event>, c: Con)
    requires c == Run(Start(k, cid, env), es).con
    ensures c.caching <==> Paused(c.log)
    ensures c.caching ==> c.phase.Verifyed? && exists i: nat :: PauseBegan(c.log, i) && c.cache == Handed(c.log[i..])
    ensures !c.caching ==> c.cache == []
  {
    ReachableOrdered(k, cid, env, es);
    var i := PendingMeans(c.log);
  }

  // ---- announcements ------------------------------------------------------------------

  /** The announcements made. */
  function Announcements(log: seq<Entry>): seq<seq<byte>>
    decreases |log|
  {
    if log == [] then []
    else
      var e := log[|log| - 1];
      Announcements(log[..|log| - 1]) + (if e.Announced? then [e.pack] else [])
  }

  lemma AnnouncementsSnoc(log: seq<Entry>, e: Entry)
    ensures Announcements(log + [e]) == Announcements(log) + (if e.Announced? then [e.pack] else [])
  {
    SnocParts(log, e);
  }

  lemma UnannouncedSnoc(log: seq<Entry>, e: Entry)
    requires !e.Announced?
    ensures Announcements(log + [e]) == Announcements(log)
  {
    AnnouncementsSnoc(log, e);
    AppendNil(Announcements(log));
  }

  /** A verdict that announces a session: positive, on a client not verified yet, with a name
      that fits. Whether a verdict was awaited does not matter. */
  predicate Announces(c: Con, req: VerifyRet, addr: seq<byte>) {
    Finds(c, req, addr) && req.success && !c.phase.Verifyed? && |req.accName| <= MAX_NAME_LEN
  }

  lemma CarriedUnannounced(c: Con, f: Fate)
    ensures Announcements(Carried(c, f).log) == Announcements(c.log)
  {
    match f {
      case Beat(pack) => UnannouncedSnoc(c.log, ToClient(Echo, pack));
      case Sent(svr, pack) => UnannouncedSnoc(c.log, Forwarded(svr, pack));
      case Dropped =>
      case Hopeless =>
    }
  }

  lemma {:induction false} CarriedAllUnannounced(c: Con, fs: seq<Fate>)
    ensures Announcements(CarriedAll(c, fs).log) == Announcements(c.log)
    decreases |fs|
  {
    if fs != [] {
      CarriedAllUnannounced(c, fs[..|fs| - 1]);
      CarriedUnannounced(CarriedAll(c, fs[..|fs| - 1]), fs[|fs| - 1]);
    }
  }

  lemma AskedUnannounced(c: Con, f: Fate)
    requires !f.Beat?
    ensures Announcements(Asked(c, f).log) == Announcements(c.log)
  {
    if f.Sent? {
      UnannouncedSnoc(c.log, VerifyReq(f.svr, f.pack));
    }
  }

  lemma NotedUnannounced(c: Con, p: seq<byte>)
    ensures Announcements(Noted(c, p).log) == Announcements(c.log)
  {
    UnannouncedSnoc(c.log, Dispatched(p));
  }

  lemma RevUnannounced(env: Env, c: Con, p: seq<byte>)
    ensures Announcements(RevPacket(env, c, p).log) == Announcements(c.log)
  {
    var n, f := Noted(c, p), PacketFate(env, c, p);
    NotedUnannounced(c, p);
    match c.phase {
      case Init =>
        assert RevPacket(env, c, p) == Asked(n, f);
        AskedUnannounced(n, f);
      case WaitVerify => assert RevPacket(env, c, p) == n;
      case Verifyed =>
        assert RevPacket(env, c, p) == Carried(n, f);
        CarriedUnannounced(n, f);
    }
  }

  lemma RecvUnannounced(env: Env, c: Con, s: seq<byte>)
    ensures Announcements(OnRawRecv(env, c, s).0.log) == Announcements(c.log)
  {
    var rev, told := RevPacketIn(env), Announcements(c.log);
    forall d: Con, p | Announcements(d.log) == told ensures Announcements(rev(d, p).log) == told {
      RevUnannounced(env, d, p);
    }
    PumpKeeps((d: Con) => Announcements(d.log) == told, rev, c, s);
  }

  lemma CacheUnannounced(env: Env, c: Con, from: U16, on: bool)
    ensures Announcements(HandleCacheMsg(env, c, from, on).log) == Announcements(c.log)
  {
    var e := Replied(from, CacheRspPack(c.cid, on));
    var d := Log(c, e);
    UnannouncedSnoc(c.log, e);
    CarriedAllUnannounced(d, Fates(env, d, d.cache));
    UnannouncedSnoc(d.log, CacheSet(on));
    UnannouncedSnoc(CarriedAll(d, Fates(env, d, d.cache)).log, CacheSet(on));
  }

  lemma ActiveUnannounced(c: Con, from: U16, grp: U16, svr: U16)
    ensures Announcements(HandleSetActiveSvr(c, from, grp, svr).log) == Announcements(c.log)
  {
    UnannouncedSnoc(c.log, RouteSet(grp, svr));
    UnannouncedSnoc(SetActiveSvrId(c, grp, svr).log, Replied(from, ActivePack(c.cid, svr, grp)));
  }

  lemma SetVerifyUnannounced(c: Con, ok: bool)
    ensures Announcements(SetVerify(c, ok).log) == Announcements(c.log)
  {
    UnannouncedSnoc(c.log, Verdict(ok));
  }

  lemma VerdictAnnounces(env: Env, c: Con, req: VerifyRet, addr: seq<byte>)
    requires Finds(c, req, addr)
    ensures Announcements(HandleVerifyRet(env, c, req, addr).log) == Announcements(c.log) +
            (if Announces(c, req, addr) then [CreatePack(req.cid, req.uin, req.accName, addr)] else [])
  {
    var e := ToClient(Answer, ClientPack(req.rsp.cmd, Span(req.rsp.msg, req.rsp.len)));
    var c2 := SetVerify(Log(c, e), req.success);
    AppendNil(Announcements(c.log));
    UnannouncedSnoc(c.log, e);
    SetVerifyUnannounced(Log(c, e), req.success);
    if Announces(c, req, addr) {
      AnnouncementsSnoc(c2.log, Announced(Registered(env), CreatePack(req.cid, req.uin, req.accName, addr)));
    }
  }

  /** What an event announces. */
  function EventAnnounces(l: Link, e: Event): seq<seq<byte>> {
    match e
    case VerdictReq(_, req, addr) =>
      if Announces(l.con, req, addr) then [CreatePack(req.cid, req.uin, req.accName, addr)] else []
    case _ => []
  }

  lemma UinUnannounced(env: Env, c: Con, from: U16, uin: U64)
    ensures Announcements(HandleBroadcastUin(env, c, from, uin).log) == Announcements(c.log)
  {
    UnannouncedSnoc(c.log, UinTold(Registered(env) - {from}, UinPack(c.cid, uin)));
  }

  lemma RevertUnannounced(c: Con, to: U16, junk: seq<byte>, addr: seq<byte>)
    requires |junk| == 21 && |addr| == 16
    ensures Announcements(RevertSession(c, to, junk, addr).log) == Announcements(c.log)
  {
    UnannouncedSnoc(c.log, Recovered(to, CreateBytes(c.cid, c.uin, junk, addr)));
  }

  lemma RelayUnannounced(c: Con, cmd: U32, msg: seq<byte>)
    ensures Announcements(HandleForward(c, cmd, msg).log) == Announcements(c.log)
  {
    UnannouncedSnoc(c.log, ToClient(Relay, ClientPack(cmd, msg)));
  }

  lemma FiredUnannounced(c: Con, t: Timer)
    ensures Fired(c, t).log == c.log
  {
  }

  lemma OthersUnannounced(l: Link, e: Event)
    requires !e.VerdictReq?
    ensures Announcements(Step(l, e).con.log) == Announcements(l.con.log)
  {
    match e {
      case Recv(env, chunk) => RecvUnannounced(env, l.con, l.buf + chunk);
      case ForwardReq(cmd, msg) => RelayUnannounced(l.con, cmd, msg);
      case RouteReq(from, grp, svr) => ActiveUnannounced(l.con, from, grp, svr);
      case CacheReq(env, from, on) => CacheUnannounced(env, l.con, from, on);
      case UinReq(env, from, uin) => UinUnannounced(env, l.con, from, uin);
      case RegReq(to, junk, addr) =>
        if |junk| == 21 && |addr| == 16 {
          RevertUnannounced(l.con, to, junk, addr);
        }
      case Timeout(t) => FiredUnannounced(l.con, t);
      case Kick =>
    }
  }

  lemma StepAnnounces(l: Link, e: Event)
    ensures Announcements(Step(l, e).con.log) == Announcements(l.con.log) + EventAnnounces(l, e)
  {
    if e.VerdictReq? && Finds(l.con, e.req, e.addr) {
      VerdictAnnounces(e.env, l.con, e.req, e.addr);
    } else {
      AppendNil(Announcements(l.con.log));
      if !e.VerdictReq? {
        OthersUnannounced(l, e);
      }
    }
  }

  function RunAnnounces(l: Link, es: seq<Event>): seq<seq<byte>>
    decreases |es|
  {
    if es == [] then []
    else RunAnnounces(l, es[..|es| - 1]) + EventAnnounces(Run(l, es[..|es| - 1]), es[|es| - 1])
  }

  /** Which positive verdicts of a whole run announce a session: all that come before the client
      is verified, awaited or not, and the one that verifies it, if their name fits; none after. */
  lemma {:induction false} AnnouncedInRun(l: Link, es: seq<Event>)
    ensures Announcements(Run(l, es).con.log) == Announcements(l.con.log) + RunAnnounces(l, es)
    ensures l.con.phase.Verifyed? ==> RunAnnounces(l, es) == []
    decreases |es|
  {
    if es == [] {
      AppendNil(Announcements(l.con.log));
    } else {
      var before, e := es[..|es| - 1], es[|es| - 1];
      AnnouncedInRun(l, before);
      StepAnnounces(Run(l, before), e);
      Assoc(Announcements(l.con.log), RunAnnounces(l, before), EventAnnounces(Run(l, before), e));
      if l.con.phase.Verifyed? {
        VerifiedForGood(l, before);
      }
    }
  }

  /** An announcement is made by such verdicts alone, and the client is verified then if and
      only if a verdict was awaited. */
  lemma AnnouncedIsVerified(env: Env, c: Con, req: VerifyRet, addr: seq<byte>, d: Con)
    requires Finds(c, req, addr) && d == HandleVerifyRet(env, c, req, addr)
    ensures Announcements(d.log) != Announcements(c.log) <==> Announces(c, req, addr)
    ensures Announces(c, req, addr) ==> (d.phase.Verifyed? <==> c.phase.WaitVerify?)
  {
    VerdictAnnounces(env, c, req, addr);
    AppendNil(Announcements(c.log));
  }

  /** A run in which a client that sent nothing is announced to every server without being verified. */
  lemma AnnouncedUnverified(k: CharKind, env0: Env, e: Event, l: Link, c: Con)
    requires e.VerdictReq? && e.req == VerifyRet(1, true, 0, [], NO_CLIENT_MSG) && e.addr == Zeros(16)
    requires l == Start(k, 1, env0) && c == Run(l, [e]).con
    ensures Announcements(c.log) == Announcements(l.con.log) + [CreatePack(1, 0, [], Zeros(16))] && c.phase.Init?
  {
    assert Run(l, [e][..0]) == l;
    assert Run(l, [e]) == Step(l, e);
    VerdictAnnounces(e.env, l.con, e.req, e.addr);
    AnnouncedIsVerified(e.env, l.con, e.req, e.addr, c);
  }
}
