/** Whole-run properties of a client connection: every statement is about the state reached
    after any list of events, with the server-wide state free to change between events. */
module ExternalRuns {
  import opened Bytes
  import opened Proto
  import opened Framing
  import opened ExternalCon

  // ---- reading a log ------------------------------------------------------------------

  /** What can be told from a log alone. early: something was forwarded before a positive
      verdict. pending: packets received while caching since the last flush. vector: the
      routing vector grown by the route requests. */
  datatype Tally = Tally(reqs: nat, verdicts: nat, verified: bool, early: bool, dispatched: nat,
                         caching: bool, pending: seq<seq<byte>>, vector: seq<U16>)

  function Tell(t: Tally, e: Entry): Tally {
    match e
    case Dispatched(p) =>
      t.(dispatched := t.dispatched + 1,
         pending := if t.verified && t.caching then t.pending + [p] else t.pending)
    case VerifyReq(_, _) => t.(reqs := t.reqs + 1)
    case Verdict(ok) => t.(verdicts := t.verdicts + 1, verified := t.verified || ok)
    case Forwarded(_, _) => t.(early := t.early || !t.verified)
    case RouteSet(grp, svr) => t.(vector := Routed(t.vector, grp, svr))
    case CacheSet(on) => t.(caching := on, pending := if on then t.pending else [])
    case _ => t
  }

  function Recount(log: seq<Entry>): Tally
    decreases |log|
  {
    if log == [] then Tally(0, 0, false, false, 0, false, [], [])
    else Tell(Recount(log[..|log| - 1]), log[|log| - 1])
  }

  lemma RecountSnoc(log: seq<Entry>, e: Entry)
    ensures Recount(log + [e]) == Tell(Recount(log), e)
  {
    SnocParts(log, e);
  }

  /** The packets handed to RevPacket. */
  function Handed(log: seq<Entry>): seq<seq<byte>>
    decreases |log|
  {
    if log == [] then []
    else
      var e := log[|log| - 1];
      Handed(log[..|log| - 1]) + (if e.Dispatched? then [e.p] else [])
  }

  lemma HandedSnoc(log: seq<Entry>, e: Entry)
    ensures Handed(log + [e]) == Handed(log) + (if e.Dispatched? then [e.p] else [])
  {
    SnocParts(log, e);
  }

  // ---- the invariant ------------------------------------------------------------------

  predicate PhaseInv(c: Con, t: Tally) {
    && (c.phase.Verifyed? <==> t.verified)
    && !t.early
    && t.reqs == t.verdicts + (if c.phase.WaitVerify? then 1 else 0)
    && (!c.seeded ==> t.dispatched == 0 && c.phase.Init?)
  }

  predicate TimerInv(c: Con, t: Tally) {
    && (c.firstTm ==> c.phase.Init? && t.dispatched == 0)
    && (c.verifyTm ==> c.phase.WaitVerify?)
    && (c.connected && c.phase.WaitVerify? ==> c.verifyTm)
    && (c.heartTm ==> c.phase.Verifyed?)
  }

  predicate CacheInv(c: Con, t: Tally) {
    && c.caching == t.caching
    && c.cache == t.pending
    && (!c.caching ==> c.cache == [])
    && (c.cache != [] ==> c.phase.Verifyed?)
  }

  predicate Inv(c: Con) {
    var t := Recount(c.log);
    PhaseInv(c, t) && TimerInv(c, t) && CacheInv(c, t) && c.routes == t.vector
  }

  // ---- every operation keeps it -------------------------------------------------------

  lemma StartInv(k: CharKind, cid: U64, env: Env)
    ensures Inv(OnConnected(env, Fresh(k, cid)))
  {
    var c := OnConnected(env, Fresh(k, cid));
    if c.log != [] {
      RecountSnoc([], c.log[0]);
      assert [] + [c.log[0]] == c.log;
    }
  }

  lemma SetVerifyInv(c: Con, ok: bool)
    requires Inv(c)
    ensures Inv(SetVerify(c, ok))
  {
    RecountSnoc(c.log, Verdict(ok));
  }

  /** Entries that only tell what was said to the client or to servers about it. */
  predicate Spoken(e: Entry) {
    e.ToClient? || e.Replied? || e.UinTold? || e.Announced? || e.Recovered? || e.Left?
  }

  lemma SpokenTally(log: seq<Entry>, e: Entry)
    requires Spoken(e)
    ensures Recount(log + [e]) == Recount(log)
  {
    RecountSnoc(log, e);
    SpokenTells(Recount(log), e);
  }

  lemma SpokenTells(t: Tally, e: Entry)
    requires Spoken(e)
    ensures Tell(t, e) == t
  {
    match e {
      case ToClient(_, _) =>
      case Replied(_, _) =>
      case UinTold(_, _) =>
      case Announced(_, _) =>
      case Recovered(_, _) =>
      case Left(_, _) =>
    }
  }

  /** The invariant looks at the log through its tally only. */
  lemma AlikeInv(c: Con, log: seq<Entry>)
    requires Inv(c) && Recount(log) == Recount(c.log)
    ensures Inv(c.(log := log))
  {
  }

  lemma SpokenInv(c: Con, e: Entry)
    requires Inv(c) && Spoken(e)
    ensures Inv(Log(c, e))
  {
    SpokenTally(c.log, e);
    AlikeInv(c, c.log + [e]);
  }

  lemma HandleVerifyRetInv(env: Env, c: Con, req: VerifyRet, addr: seq<byte>)
    requires Inv(c) && Finds(c, req, addr)
    ensures Inv(HandleVerifyRet(env, c, req, addr))
  {
    var e := ToClient(Answer, ClientPack(req.rsp.cmd, Span(req.rsp.msg, req.rsp.len)));
    SpokenInv(c, e);
    SetVerifyInv(Log(c, e), req.success);
    if |req.accName| <= MAX_NAME_LEN {
      SpokenInv(SetVerify(Log(c, e), req.success),
                Announced(Registered(env), CreatePack(req.cid, req.uin, req.accName, addr)));
    }
  }

  lemma HandleForwardInv(c: Con, cmd: U32, msg: seq<byte>)
    requires Inv(c)
    ensures Inv(HandleForward(c, cmd, msg))
  {
    SpokenInv(c, ToClient(Relay, ClientPack(cmd, msg)));
  }

  lemma HandleSetActiveInv(c: Con, from: U16, grp: U16, svr: U16)
    requires Inv(c)
    ensures Inv(HandleSetActiveSvr(c, from, grp, svr))
  {
    SetActiveInv(c, grp, svr);
    SpokenInv(SetActiveSvrId(c, grp, svr), Replied(from, ActivePack(c.cid, svr, grp)));
  }

  lemma HandleCacheInv(env: Env, c: Con, from: U16, on: bool)
    requires Inv(c)
    ensures Inv(HandleCacheMsg(env, c, from, on))
  {
    var e := Replied(from, CacheRspPack(c.cid, on));
    SpokenInv(c, e);
    SetCacheInv(env, Log(c, e), on);
  }

  lemma HandleUinInv(env: Env, c: Con, from: U16, uin: U64)
    requires Inv(c)
    ensures Inv(HandleBroadcastUin(env, c, from, uin))
  {
    SpokenInv(c.(uin := uin), UinTold(Registered(env) - {from}, UinPack(c.cid, uin)));
  }

  lemma RevertInv(c: Con, to: U16, junk: seq<byte>, addr: seq<byte>)
    requires Inv(c) && |junk| == 21 && |addr| == 16
    ensures Inv(RevertSession(c, to, junk, addr))
  {
    SpokenInv(c, Recovered(to, CreateBytes(c.cid, c.uin, junk, addr)));
  }

  lemma SetActiveInv(c: Con, grp: U16, svr: U16)
    requires Inv(c)
    ensures Inv(SetActiveSvrId(c, grp, svr))
  {
    RecountSnoc(c.log, RouteSet(grp, svr));
  }

  lemma CarriedInv(c: Con, f: Fate)
    requires Inv(c) && c.phase.Verifyed?
    ensures Inv(Carried(c, f))
  {
    match f {
      case Beat(pack) => RecountSnoc(c.log, ToClient(Echo, pack));
      case Sent(svr, pack) => RecountSnoc(c.log, Forwarded(svr, pack));
      case _ =>
    }
  }

  lemma AskedInv(c: Con, f: Fate)
    requires Inv(c.(firstTm := false)) && c.phase.Init? && c.seeded && !f.Beat?
    ensures Inv(Asked(c, f))
  {
    if f.Sent? {
      RecountSnoc(c.log, VerifyReq(f.svr, f.pack));
    }
  }

  /** All but the log, the heartbeat timer and the connection is as before. */
  predicate Kept(c: Con, d: Con) {
    && d.k == c.k && d.cid == c.cid && d.phase == c.phase && d.routes == c.routes
    && d.firstTm == c.firstTm && d.verifyTm == c.verifyTm && d.limitTm == c.limitTm
    && d.uin == c.uin && d.caching == c.caching && d.cache == c.cache && d.seeded == c.seeded
  }

  lemma CarriedKept(c: Con, f: Fate)
    ensures Kept(c, Carried(c, f))
  {
    match f {
      case Beat(pack) =>
      case Sent(svr, pack) =>
      case Dropped =>
      case Hopeless =>
    }
  }

  lemma {:induction false} CarriedAllKept(c: Con, fs: seq<Fate>)
    ensures Kept(c, CarriedAll(c, fs))
    decreases |fs|
  {
    if fs != [] {
      CarriedAllKept(c, fs[..|fs| - 1]);
      CarriedKept(CarriedAll(c, fs[..|fs| - 1]), fs[|fs| - 1]);
    }
  }

  lemma CarriedAllNext(c: Con, fs: seq<Fate>, i: nat)
    requires i < |fs|
    ensures CarriedAll(c, fs[..i + 1]) == Carried(CarriedAll(c, fs[..i]), fs[i])
  {
    assert fs[..i + 1][..i] == fs[..i];
  }

  lemma {:induction false} CarriedAllInv(c: Con, fs: seq<Fate>)
    requires Inv(c) && (fs != [] ==> c.phase.Verifyed?)
    ensures Inv(CarriedAll(c, fs))
    decreases |fs|
  {
    if fs != [] {
      CarriedAllInv(c, fs[..|fs| - 1]);
      CarriedAllKept(c, fs[..|fs| - 1]);
      CarriedInv(CarriedAll(c, fs[..|fs| - 1]), fs[|fs| - 1]);
    }
  }

  lemma CacheSetInv(c: Con, d: Con, on: bool)
    requires Inv(c) && d == Log(c, CacheSet(on)).(cache := if on then c.cache else [], caching := on)
    ensures Inv(d)
  {
    RecountSnoc(c.log, CacheSet(on));
  }

  lemma SetCacheInv(env: Env, c: Con, on: bool)
    requires Inv(c)
    ensures Inv(SetCache(env, c, on))
  {
    var fs := Fates(env, c, c.cache);
    if on {
      CacheSetInv(c, SetCache(env, c, on), on);
    } else {
      CarriedAllInv(c, fs);
      CarriedAllKept(c, fs);
      CacheSetInv(CarriedAll(c, fs), SetCache(env, c, on), on);
    }
  }

  /** Between being noted and being acted upon a packet may still find its timer armed. */
  lemma NotedInv(c: Con, p: seq<byte>)
    requires Inv(c) && c.seeded
    ensures Inv(Noted(c, p).(firstTm := false))
  {
    RecountSnoc(c.log, Dispatched(p));
  }

  lemma ActedInv(c: Con, f: Fate)
    requires Inv(c.(firstTm := false)) && c.seeded && (c.phase.Init? ==> !f.Beat?)
    requires !c.phase.Init? ==> !c.firstTm
    ensures Inv(Acted(c, f))
  {
    match c.phase {
      case Init => AskedInv(c, f);
      case WaitVerify => assert c.(firstTm := false) == c;
      case Verifyed =>
        assert c.(firstTm := false) == c;
        CarriedInv(c, f);
    }
  }

  lemma RevPacketInv(env: Env, c: Con, p: seq<byte>)
    requires Inv(c) && c.seeded
    ensures Inv(RevPacket(env, c, p))
  {
    NotedInv(c, p);
    ActedInv(Noted(c, p), PacketFate(env, c, p));
  }

  lemma PumpPacket(rev: Handler, c: Con, s: seq<byte>)
    requires 0 < ParsePacket(c, s).1
    ensures var r := ParsePacket(c, s);
            var q := Pump(rev, rev(r.0, s[..r.1]), s[r.1..]);
            Pump(rev, c, s).0 == q.0 && Pump(rev, c, s).1 == r.1 + q.1
  {
  }

  /** What parsing and handing over keep, the receive loop keeps. */
  lemma {:induction false} PumpKeeps(P: Con -> bool, rev: Handler, c: Con, s: seq<byte>)
    requires forall d, t :: P(d) ==> P(ParsePacket(d, t).0)
    requires forall d, p :: P(d) && d.seeded && |p| < 0x1_0000 ==> P(rev(d, p))
    requires P(c)
    ensures P(Pump(rev, c, s).0)
    decreases |s|
  {
    var (c1, n) := ParsePacket(c, s);
    if n != 0 {
      PumpKeeps(P, rev, rev(c1, s[..n]), s[n..]);
    }
  }

  /** What every event keeps, every run keeps. */
  lemma {:induction false} RunKeeps(P: Con -> bool, l: Link, es: seq<Event>)
    requires forall m: Link, e :: P(m.con) ==> P(Step(m, e).con)
    requires P(l.con)
    ensures P(Run(l, es).con)
    decreases |es|
  {
    if es != [] {
      RunKeeps(P, l, es[..|es| - 1]);
    }
  }

  lemma OnRawRecvInv(env: Env, c: Con, s: seq<byte>)
    requires Inv(c)
    ensures Inv(OnRawRecv(env, c, s).0)
  {
    var rev := RevPacketIn(env);
    forall d, p | Inv(d) && d.seeded ensures Inv(rev(d, p)) {
      RevPacketInv(env, d, p);
    }
    PumpKeeps(Inv, rev, c, s);
  }

  lemma FiredInv(c: Con, t: Timer)
    requires Inv(c)
    ensures Inv(Fired(c, t))
  {
  }

  lemma StepInv(l: Link, e: Event)
    requires Inv(l.con)
    ensures Inv(Step(l, e).con)
  {
    match e {
      case Timeout(t) => FiredInv(l.con, t);
      case Recv(env, chunk) => OnRawRecvInv(env, l.con, l.buf + chunk);
      case VerdictReq(env, req, addr) =>
        if Finds(l.con, req, addr) {
          HandleVerifyRetInv(env, l.con, req, addr);
        }
      case ForwardReq(cmd, msg) => HandleForwardInv(l.con, cmd, msg);
      case RouteReq(from, grp, svr) => HandleSetActiveInv(l.con, from, grp, svr);
      case CacheReq(env, from, on) => HandleCacheInv(env, l.con, from, on);
      case UinReq(env, from, uin) => HandleUinInv(env, l.con, from, uin);
      case RegReq(to, junk, addr) =>
        if |junk| == 21 && |addr| == 16 {
          RevertInv(l.con, to, junk, addr);
        }
      case Kick =>
    }
  }

  lemma ReachableInv(k: CharKind, cid: U64, env: Env, es: seq<Event>)
    ensures Inv(Run(Start(k, cid, env), es).con)
  {
    StartInv(k, cid, env);
    forall l: Link, e | Inv(l.con) ensures Inv(Step(l, e).con) {
      StepInv(l, e);
    }
    RunKeeps(Inv, Start(k, cid, env), es);
  }

  // ---- the log of a flush -----------------------------------------------------------------

  function EntryOf(f: Fate): seq<Entry> {
    match f
    case Beat(pack) => [ToClient(Echo, pack)]
    case Sent(svr, pack) => [Forwarded(svr, pack)]
    case _ => []
  }

  function Entries(fs: seq<Fate>): seq<Entry>
    decreases |fs|
  {
    if fs == [] then [] else Entries(fs[..|fs| - 1]) + EntryOf(fs[|fs| - 1])
  }

  lemma CarriedLog(c: Con, f: Fate)
    ensures Carried(c, f).log == c.log + EntryOf(f)
  {
    match f {
      case Beat(pack) =>
      case Sent(svr, pack) =>
      case Dropped => AppendNil(c.log);
      case Hopeless => AppendNil(c.log);
    }
  }

  lemma {:induction false} CarriedAllLog(c: Con, fs: seq<Fate>)
    ensures CarriedAll(c, fs).log == c.log + Entries(fs)
    decreases |fs|
  {
    if fs == [] {
      AppendNil(c.log);
    } else {
      var f := fs[|fs| - 1];
      CarriedAllLog(c, fs[..|fs| - 1]);
      CarriedLog(CarriedAll(c, fs[..|fs| - 1]), f);
      Assoc(c.log, Entries(fs[..|fs| - 1]), EntryOf(f));
    }
  }

  // ---- what the tally says, entry by entry --------------------------------------------

  lemma TellVerified(t: Tally, e: Entry)
    ensures Tell(t, e).verified <==> t.verified || e == Verdict(true)
  {
  }

  lemma InSnoc(log: seq<Entry>, e: Entry)
    requires log != []
    ensures e in log <==> e in log[..|log| - 1] || e == log[|log| - 1]
  {
    Cut(log, |log| - 1);
  }

  lemma {:induction false} VerifiedMeans(log: seq<Entry>)
    ensures Recount(log).verified <==> Verdict(true) in log
    decreases |log|
  {
    if log != [] {
      VerifiedMeans(log[..|log| - 1]);
      TellVerified(Recount(log[..|log| - 1]), log[|log| - 1]);
      InSnoc(log, Verdict(true));
    }
  }

  lemma {:induction false} EarlyMeans(log: seq<Entry>)
    requires !Recount(log).early
    ensures forall i :: 0 <= i < |log| && log[i].Forwarded? ==> Verdict(true) in log[..i]
    decreases |log|
  {
    if log != [] {
      var n := |log| - 1;
      EarlyMeans(log[..n]);
      VerifiedMeans(log[..n]);
      forall i | 0 <= i < |log| && log[i].Forwarded? ensures Verdict(true) in log[..i] {
        if i < n {
          assert log[..n][..i] == log[..i];
          assert log[..n][i] == log[i];
        }
      }
    }
  }

  lemma {:induction false} NoneDispatched(log: seq<Entry>)
    requires Recount(log).dispatched == 0
    ensures forall i :: 0 <= i < |log| ==> !log[i].Dispatched?
    decreases |log|
  {
    if log != [] {
      NoneDispatched(log[..|log| - 1]);
      assert forall i :: 0 <= i < |log| - 1 ==> log[i] == log[..|log| - 1][i];
    }
  }

  /** The server last set for a group, if any: the finite map the routing vector stands for. */
  function LastSet(log: seq<Entry>, grp: U16): Option<U16>
    decreases |log|
  {
    if log == [] then None
    else
      var e := log[|log| - 1];
      if e.RouteSet? && e.grp == grp && RouteAccepted(e.grp, e.svr) then Some(e.svr)
      else LastSet(log[..|log| - 1], grp)
  }

  /** The vector v has at most 100 slots, slot 0 stays 0, and slot grp holds last, or 0. */
  predicate Holds(v: seq<U16>, grp: U16, last: Option<U16>) {
    && |v| <= 100 && (v != [] ==> v[0] == 0)
    && last == (if grp < |v| && v[grp] != 0 then Some(v[grp]) else None)
  }

  lemma RoutedHolds(v: seq<U16>, grp: U16, last: Option<U16>, g: U16, svr: U16)
    requires Holds(v, grp, last)
    ensures Holds(Routed(v, g, svr), grp, if g == grp && RouteAccepted(g, svr) then Some(svr) else last)
  {
  }

  /** The vector stands for the finite map of the servers last set. */
  lemma {:induction false} VectorMeans(log: seq<Entry>, grp: U16)
    ensures Holds(Recount(log).vector, grp, LastSet(log, grp))
    decreases |log|
  {
    if log != [] {
      var before, e := log[..|log| - 1], log[|log| - 1];
      VectorMeans(before, grp);
      if e.RouteSet? {
        RoutedHolds(Recount(before).vector, grp, LastSet(before, grp), e.grp, e.svr);
      }
    }
  }

  // ---- main results -------------------------------------------------------------------

  /** At most one session timer is armed, each only in its own phase; a connected client that
      waits for its verdict has the verify timer running, and whenever that timer can fire
      the phase its handler asserts is the current one. */
  lemma TimersInEveryRun(k: CharKind, cid: U64, env: Env, es: seq<Event>, c: Con)
    requires c == Run(Start(k, cid, env), es).con
    ensures !(c.firstTm && c.verifyTm) && !(c.firstTm && c.heartTm) && !(c.verifyTm && c.heartTm)
    ensures c.firstTm ==> c.phase.Init? && forall i :: 0 <= i < |c.log| ==> !c.log[i].Dispatched?
    ensures Armed(c, VerifyTimer) ==> c.phase.WaitVerify?
    ensures c.heartTm ==> c.phase.Verifyed?
    ensures c.connected && c.phase.WaitVerify? ==> c.verifyTm
  {
    ReachableInv(k, cid, env, es);
    if c.firstTm {
      NoneDispatched(c.log);
    }
  }

  /** Every verify request sent is matched by an accepted verdict, but for one that is pending;
      nothing is forwarded before a positive verdict, in replays included. */
  lemma VerificationInEveryRun(k: CharKind, cid: U64, env: Env, es: seq<Event>, c: Con)
    requires c == Run(Start(k, cid, env), es).con
    ensures Recount(c.log).reqs == Recount(c.log).verdicts + (if c.phase.WaitVerify? then 1 else 0)
    ensures c.phase.Verifyed? <==> Verdict(true) in c.log
    ensures forall i :: 0 <= i < |c.log| && c.log[i].Forwarded? ==> Verdict(true) in c.log[..i]
  {
    ReachableInv(k, cid, env, es);
    VerifiedMeans(c.log);
    EarlyMeans(c.log);
  }

  /** The phases in the order a client goes through them. */
  function Rank(p: Phase): nat {
    match p
    case Init => 0
    case WaitVerify => 1
    case Verifyed => 2
  }

  lemma RevRank(env: Env, c: Con, p: seq<byte>)
    ensures Rank(c.phase) <= Rank(RevPacket(env, c, p).phase)
  {
    CarriedKept(Noted(c, p), PacketFate(env, c, p));
  }

  lemma RecvRank(env: Env, c: Con, s: seq<byte>)
    ensures Rank(c.phase) <= Rank(OnRawRecv(env, c, s).0.phase)
  {
    var rev := RevPacketIn(env);
    forall d: Con, p | Rank(c.phase) <= Rank(d.phase) ensures Rank(c.phase) <= Rank(rev(d, p).phase) {
      RevRank(env, d, p);
    }
    PumpKeeps((d: Con) => Rank(c.phase) <= Rank(d.phase), rev, c, s);
  }

  lemma VerdictRank(env: Env, c: Con, req: VerifyRet, addr: seq<byte>)
    requires Finds(c, req, addr)
    ensures Rank(c.phase) <= Rank(HandleVerifyRet(env, c, req, addr).phase)
  {
  }

  lemma CacheRank(env: Env, c: Con, from: U16, on: bool)
    ensures HandleCacheMsg(env, c, from, on).phase == c.phase
  {
    var d := Log(c, Replied(from, CacheRspPack(c.cid, on)));
    CarriedAllKept(d, Fates(env, d, d.cache));
  }

  lemma StepRank(l: Link, e: Event)
    ensures Rank(l.con.phase) <= Rank(Step(l, e).con.phase)
  {
    match e {
      case Recv(env, chunk) => RecvRank(env, l.con, l.buf + chunk);
      case VerdictReq(env, req, addr) =>
        if Finds(l.con, req, addr) {
          VerdictRank(env, l.con, req, addr);
        }
      case CacheReq(env, from, on) => CacheRank(env, l.con, from, on);
      case Timeout(t) => FiredPhase(l.con, t);
      case _ =>
    }
  }

  lemma FiredPhase(c: Con, t: Timer)
    ensures Fired(c, t).phase == c.phase
  {
  }

  /** Whatever happens, a client never goes back to an earlier phase: waiting is left only by
      being verified. */
  lemma PhaseNeverGoesBack(l: Link, es: seq<Event>)
    ensures Rank(l.con.phase) <= Rank(Run(l, es).con.phase)
  {
    forall m: Link, e | Rank(l.con.phase) <= Rank(m.con.phase) ensures Rank(l.con.phase) <= Rank(Step(m, e).con.phase) {
      StepRank(m, e);
    }
    RunKeeps((c: Con) => Rank(l.con.phase) <= Rank(c.phase), l, es);
  }

  /** A verified client stays verified whatever happens next. */
  lemma VerifiedForGood(l: Link, es: seq<Event>)
    requires l.con.phase.Verifyed?
    ensures Run(l, es).con.phase.Verifyed?
  {
    PhaseNeverGoesBack(l, es);
  }

  /** Switching the cache off forwards exactly the buffered packets, each once and in order, by
      the routes and settings of that moment, and leaves the buffer empty. */
  lemma FlushForwardsBuffer(env: Env, c: Con)
    ensures var d := SetCache(env, c, false);
            && d.log == c.log + Entries(Fates(env, c, c.cache)) + [CacheSet(false)]
            && d.cache == [] && !d.caching
            && Kept(c.(cache := [], caching := false), d)
  {
    CarriedAllLog(c, Fates(env, c, c.cache));
    CarriedAllKept(c, Fates(env, c, c.cache));
  }

  /** After any run the vector answers as the finite map of the servers last set: command to
      group, group to its server or else to itself, unmapped commands to the default group. */
  lemma RoutingInEveryRun(k: CharKind, cid: U64, env0: Env, es: seq<Event>, c: Con, env: Env, cmd: U16)
    requires c == Run(Start(k, cid, env0), es).con
    ensures |c.routes| <= 100 && (c.routes != [] ==> c.routes[0] == 0)
    ensures ChooseSvr(env, c.routes, cmd) ==
            if cmd !in env.cmd2Grp then env.seting.defaultGrp
            else match LastSet(c.log, env.cmd2Grp[cmd])
              case Some(svr) => svr
              case None => env.cmd2Grp[cmd]
  {
    ReachableInv(k, cid, env0, es);
    VectorMeans(c.log, if cmd in env.cmd2Grp then env.cmd2Grp[cmd] else 0);
  }
}
