/** The client connection of the access server (acc_svr/external_con.{h,cpp}) as a state and
    one function per operation. The class in ExternalSvrCon.dfy is proved against these. */
module ExternalCon {
  import opened Bytes
  import opened Proto
  import opened Framing

  datatype Phase = Init | WaitVerify | Verifyed

  /** Why something is sent to the client: there are too many, it sent a heartbeat, a server
      judged it, a server has something to say. */
  datatype Reason = Limit | Echo | Answer | Relay

  /** What a connection did, oldest first: packets handed to RevPacket, packs sent to a server
      or to the client, requests of the servers that it carried out, answers to them, and what
      several servers were told about it. */
  datatype Entry =
    | Dispatched(p: seq<byte>)
    | VerifyReq(svr: U16, pack: seq<byte>)
    | Verdict(ok: bool)
    | Forwarded(svr: U16, pack: seq<byte>)
    | ToClient(why: Reason, pack: seq<byte>)
    | RouteSet(grp: U16, svr: U16)
    | CacheSet(on: bool)
    | Replied(to: U16, pack: seq<byte>)
    | UinTold(all: set<U16>, pack: seq<byte>)
    | Announced(all: set<U16>, pack: seq<byte>)
    | Recovered(to: U16, pack: seq<byte>)
    | Left(all: set<U16>, pack: seq<byte>)

  /** The server-wide state a connection consults; svrs says of each known id if it is registered. */
  datatype Env = Env(seting: AccSeting, cmd2Grp: map<U16, U16>, svrs: map<U16, bool>,
                     verifySvr: Option<U16>, conSize: U32)

  datatype Con = Con(k: CharKind, cid: U64, phase: Phase, routes: seq<U16>,
                     firstTm: bool, verifyTm: bool, heartTm: bool, limitTm: bool,
                     uin: U64, caching: bool, cache: seq<seq<byte>>,
                     seeded: bool, connected: bool, log: seq<Entry>)

  function Fresh(k: CharKind, cid: U64): Con {
    Con(k, cid, Init, [], false, false, false, false, 0, false, [], false, true, [])
  }

  function Log(c: Con, e: Entry): Con {
    c.(log := c.log + [e])
  }

  function Disc(c: Con): Con {
    c.(connected := false)
  }

  predicate Strict(c: Con) {
    !c.phase.Verifyed?
  }

  // ---- operations ---------------------------------------------------------------------

  function ClientPack(cmd: U32, msg: seq<byte>): seq<byte> {
    Le(cmd, 4) + msg
  }

  /** The message a client packet is forwarded as: first byte as command, whole packet as text. */
  function ToForward(k: CharKind, cid: U64, p: seq<byte>): (m: Option<Forward>)
    ensures m.Some? <==> |p| >= 4
    ensures m.Some? ==> Readable(m.value.msg, m.value.len)
  {
    if |p| < 4 then None else Some(Forward(cid, CharToU32(k, p[0]), |p| % 0x1_0000, At(p)))
  }

  function OnConnected(env: Env, c: Con): Con {
    var cli := env.seting.cli;
    if env.conSize > cli.maxNum then
      Log(c, ToClient(Limit, ClientPack(cli.rspCmd, cli.rspMsg[..|cli.rspMsg| % 0x1_0000]))).(limitTm := true)
    else if env.seting.noMsgSec != 0 then c.(firstTm := true)
    else c
  }

  function SetVerify(c: Con, ok: bool): Con {
    if !c.phase.WaitVerify? then c
    else Log(c, Verdict(ok)).(phase := if ok then Verifyed else Init, verifyTm := false)
  }

  /** What becomes of a client packet: dropped, answered as a heartbeat, sent to a server, or
      the connection is closed because nobody can take it. */
  datatype Fate = Dropped | Beat(pack: seq<byte>) | Sent(svr: U16, pack: seq<byte>) | Hopeless

  function AskFate(env: Env, k: CharKind, cid: U64, p: seq<byte>): (f: Fate)
    ensures !f.Beat?
  {
    match ToForward(k, cid, p)
    case None => Dropped
    case Some(f) =>
      if !ForwardOk(f) then Dropped
      else match env.verifySvr
        case None => Hopeless
        case Some(svr) => Sent(svr, AsWire(CMD_NTF_VERIFY_REQ, ForwardWire(f)))
  }

  function Asked(c: Con, f: Fate): Con
    requires !f.Beat?
  {
    match f
    case Dropped => c.(firstTm := false)
    case Hopeless => Disc(c.(firstTm := false))
    case Sent(svr, pack) =>
      Log(c, VerifyReq(svr, pack)).(firstTm := false, verifyTm := true, phase := WaitVerify)
  }

  predicate IsHeartBeat(env: Env, cmd: U32) {
    env.seting.hbi.reqCmd != 0 && env.seting.hbi.reqCmd == cmd
  }

  /** The routing of Forward2Svr over the grown vector. */
  function ChooseSvr(env: Env, routes: seq<U16>, cmd: U16): U16 {
    if cmd !in env.cmd2Grp then env.seting.defaultGrp
    else
      var grp := env.cmd2Grp[cmd];
      var svr := if |routes| >= grp as int + 1 then routes[grp] else 0;
      if svr == 0 then grp else svr
  }

  function ClientFate(env: Env, k: CharKind, cid: U64, routes: seq<U16>, p: seq<byte>): Fate {
    match ToForward(k, cid, p)
    case None => Dropped
    case Some(f) =>
      if IsHeartBeat(env, f.cmd) then Beat(ClientPack(env.seting.hbi.rspCmd, []))
      else
        var svr := ChooseSvr(env, routes, f.cmd % 0x1_0000);
        if svr == 0 then Hopeless
        else if svr !in env.svrs || !env.svrs[svr] || !ForwardOk(f) then Dropped
        else Sent(svr, AsWire(CMD_NTF_FORWARD, ForwardWire(f)))
  }

  function Carried(c: Con, f: Fate): Con {
    match f
    case Dropped => c
    case Hopeless => Disc(c)
    case Beat(pack) => Log(c, ToClient(Echo, pack)).(heartTm := true)
    case Sent(svr, pack) => Log(c, Forwarded(svr, pack))
  }

  function Forward2Svr(env: Env, c: Con, p: seq<byte>): Con {
    Carried(c, ClientFate(env, c.k, c.cid, c.routes, p))
  }

  function PacketFate(env: Env, c: Con, p: seq<byte>): (f: Fate)
    ensures c.phase.Init? ==> !f.Beat?
  {
    match c.phase
    case Init => AskFate(env, c.k, c.cid, p)
    case WaitVerify => Dropped
    case Verifyed => ClientFate(env, c.k, c.cid, c.routes, p)
  }

  /** A packet handed over; while caching it is buffered, and it is acted upon all the same. */
  function Noted(c: Con, p: seq<byte>): Con {
    var cache := if c.phase.Verifyed? && c.caching then c.cache + [p] else c.cache;
    c.(log := c.log + [Dispatched(p)], cache := cache)
  }

  function Acted(c: Con, f: Fate): Con
    requires c.phase.Init? ==> !f.Beat?
  {
    match c.phase
    case Init => Asked(c, f)
    case WaitVerify => c
    case Verifyed => Carried(c, f)
  }

  function RevPacket(env: Env, c: Con, p: seq<byte>): Con {
    Acted(Noted(c, p), PacketFate(env, c, p))
  }

  function Resized(routes: seq<U16>, n: nat): (r: seq<U16>)
    ensures |r| == if |routes| < n then n else |routes|
    ensures forall i :: 0 <= i < |r| ==> r[i] == if i < |routes| then routes[i] else 0
  {
    if |routes| < n then routes + seq(n - |routes|, _ => 0) else routes
  }

  predicate RouteAccepted(grp: U16, svr: U16) {
    grp != 0 && svr != 0 && grp < 100
  }

  /** The routing vector after one call: grown with zeros as far as needed, then assigned. */
  function Routed(routes: seq<U16>, grp: U16, svr: U16): seq<U16> {
    if RouteAccepted(grp, svr) then Resized(routes, grp + 1)[grp := svr] else routes
  }

  function SetActiveSvrId(c: Con, grp: U16, svr: U16): Con {
    Log(c, RouteSet(grp, svr)).(routes := Routed(c.routes, grp, svr))
  }

  /** The fates of several packets; none depends on what carrying another one out changes. */
  function Fates(env: Env, c: Con, ps: seq<seq<byte>>): (fs: seq<Fate>)
    ensures |fs| == |ps|
  {
    seq(|ps|, i requires 0 <= i < |ps| => ClientFate(env, c.k, c.cid, c.routes, ps[i]))
  }

  function CarriedAll(c: Con, fs: seq<Fate>): Con
    decreases |fs|
  {
    if fs == [] then c else Carried(CarriedAll(c, fs[..|fs| - 1]), fs[|fs| - 1])
  }

  function SetCache(env: Env, c: Con, on: bool): Con {
    var c1 := if on then c else CarriedAll(c, Fates(env, c, c.cache)).(cache := []);
    Log(c1, CacheSet(on)).(caching := on)
  }

  // ---- requests of the servers (acc_svr/inner_con.cpp) -----------------------------------

  function Zeros(n: nat): (s: seq<byte>)
    ensures |s| == n
  {
    seq(n, _ => 0)
  }

  /** CMD_NTF_CREATE_SESSION: cid, uin, the 21 bytes of the name field, 16 bytes of socket address. */
  function CreateBytes(cid: U64, uin: U64, name: seq<byte>, addr: seq<byte>): (s: seq<byte>)
    requires |name| == 21 && |addr| == 16
    ensures |s| == 55
  {
    AsWire(CMD_NTF_CREATE_SESSION, Le(cid, 8) + (Le(uin, 8) + (name + addr)))
  }

  /** The name padded with zeros. */
  function CreatePack(cid: U64, uin: U64, name: seq<byte>, addr: seq<byte>): (s: seq<byte>)
    requires |name| <= MAX_NAME_LEN && |addr| == 16
    ensures |s| == 55
  {
    CreateBytes(cid, uin, name + Zeros(21 - |name|), addr)
  }

  function DisconPack(cid: U64): (s: seq<byte>)
    ensures |s| == 10
  {
    AsWire(CMD_NTF_DISCON, Le(cid, 8))
  }

  function UinPack(cid: U64, uin: U64): (s: seq<byte>)
    ensures |s| == 18
  {
    AsWire(CMD_RSP_BROADCAST_UIN, Le(cid, 8) + Le(uin, 8))
  }

  function ActivePack(cid: U64, svr: U16, grp: U16): (s: seq<byte>)
    ensures |s| == 14
  {
    AsWire(CMD_RSP_SET_ACTIVE_SVR, Le(cid, 8) + (Le(svr, 2) + Le(grp, 2)))
  }

  function CacheRspPack(cid: U64, on: bool): (s: seq<byte>)
    ensures |s| == 11
  {
    AsWire(CMD_RSP_CACHE_MSG, Le(cid, 8) + [BoolByte(on)])
  }

  function Registered(env: Env): (ids: set<U16>)
    ensures forall id :: id in ids <==> id in env.svrs && env.svrs[id]
  {
    set id | id in env.svrs && env.svrs[id]
  }

  /** A verdict that finds the client it is about; addr is the client's socket address. */
  predicate Finds(c: Con, req: VerifyRet, addr: seq<byte>) {
    req.cid == c.cid != 0 && Readable(req.rsp.msg, req.rsp.len) && |addr| == 16
  }

  /** The answer is passed on first; a negative verdict ends there. A name that is too long
      keeps the session from being announced, not the client from being verified. */
  function HandleVerifyRet(env: Env, c: Con, req: VerifyRet, addr: seq<byte>): Con
    requires Finds(c, req, addr)
  {
    var c1 := Log(c, ToClient(Answer, ClientPack(req.rsp.cmd, Span(req.rsp.msg, req.rsp.len))));
    if !req.success || c.phase.Verifyed? then c1
    else
      var c2 := SetVerify(c1, req.success);
      if |req.accName| > MAX_NAME_LEN then c2
      else Log(c2, Announced(Registered(env), CreatePack(req.cid, req.uin, req.accName, addr)))
  }

  /** A message for the client; what is not verified gets none. */
  function HandleForward(c: Con, cmd: U32, msg: seq<byte>): Con {
    if !c.phase.Verifyed? then c else Log(c, ToClient(Relay, ClientPack(cmd, msg)))
  }

  /** The answer repeats the request, also when the ids are refused. */
  function HandleSetActiveSvr(c: Con, from: U16, grp: U16, svr: U16): Con {
    if !c.phase.Verifyed? then c
    else Log(SetActiveSvrId(c, grp, svr), Replied(from, ActivePack(c.cid, svr, grp)))
  }

  /** Answered before it is done. */
  function HandleCacheMsg(env: Env, c: Con, from: U16, on: bool): Con {
    if !c.phase.Verifyed? then c
    else SetCache(env, Log(c, Replied(from, CacheRspPack(c.cid, on))), on)
  }

  /** A user id is passed on to every registered server but the one it came from. */
  function HandleBroadcastUin(env: Env, c: Con, from: U16, uin: U64): Con {
    Log(c.(uin := uin), UinTold(Registered(env) - {from}, UinPack(c.cid, uin)))
  }

  /** A server that registers is told of each verified client; the name field is not written, so
      it holds junk. */
  function RevertSession(c: Con, to: U16, junk: seq<byte>, addr: seq<byte>): Con
    requires |junk| == 21 && |addr| == 16
  {
    if !c.phase.Verifyed? then c else Log(c, Recovered(to, CreateBytes(c.cid, c.uin, junk, addr)))
  }

  /** The end of a connection: every registered server is told if the client was verified. */
  function Destroyed(env: Env, c: Con): Con {
    if c.phase.Verifyed? then Log(c, Left(Registered(env), DisconPack(c.cid))) else c
  }

  // ---- raw receive --------------------------------------------------------------------

  /** What HandleSeed decides on the first bytes. */
  datatype Seed = NoSeed | ZeroSeed | NewSeed | OldSeed

  function HandleSeed(k: CharKind, s: seq<byte>): Seed
    requires s != []
  {
    if CharVal(k, s[0]) == 0xEF then NewSeed
    else if |s| < 4 then NoSeed
    else if s[..4] == [0, 0, 0, 0] then ZeroSeed
    else OldSeed
  }

  function Judged(c: Con, v: Verdict): (r: (Con, nat))
    ensures r.0 == c || r.0 == Disc(c)
    ensures r.1 != 0 ==> r.0 == c && v == Packet(r.1)
  {
    match v
    case Wait => (c, 0)
    case Bad => (Disc(c), 0)
    case Packet(n) => (c, n)
  }

  /** How many of the bytes received count for framing; none while no seed was read. After an
      old-style seed four bytes are taken off the length but not off the buffer. */
  function Counted(k: CharKind, seeded: bool, s: seq<byte>): (n: nat)
    ensures n <= |s|
  {
    if s == [] then 0
    else if seeded then |s|
    else match HandleSeed(k, s)
      case NewSeed => |s|
      case OldSeed => |s| - 4
      case _ => 0
  }

  function ParsePacket(c: Con, s: seq<byte>): (r: (Con, nat))
    ensures r.1 <= |s| && (r.1 != 0 ==> 3 <= r.1 < 0x1_0000)
    ensures r.0 == c.(seeded := r.0.seeded, connected := r.0.connected)
    ensures r.1 != 0 ==> r.0.connected == c.connected && r.0.seeded
  {
    if s == [] then (c, 0)
    else
      var seed := if c.seeded then NewSeed else HandleSeed(c.k, s);
      match seed
      case NoSeed => (c, 0)
      case ZeroSeed => (Disc(c), 0)
      case _ => Judged(c.(seeded := true), Head(c.k, Strict(c), s, Counted(c.k, c.seeded, s)))
  }

  /** What is done with a packet. */
  type Handler = (Con, seq<byte>) -> Con

  function RevPacketIn(env: Env): Handler {
    (c: Con, p: seq<byte>) => RevPacket(env, c, p)
  }

  /** The receive loop: it ends when nothing more can be framed, not when the handler closes
      the connection. */
  function Pump(rev: Handler, c: Con, s: seq<byte>): (r: (Con, nat))
    ensures r.1 <= |s|
    decreases |s|
  {
    var r := ParsePacket(c, s);
    if r.1 == 0 then r
    else
      var q := Pump(rev, rev(r.0, s[..r.1]), s[r.1..]);
      (q.0, r.1 + q.1)
  }

  function OnRawRecv(env: Env, c: Con, s: seq<byte>): (r: (Con, nat))
    ensures r.1 <= |s|
  {
    Pump(RevPacketIn(env), c, s)
  }

  // ---- runs ---------------------------------------------------------------------------

  datatype Timer = FirstTimer | VerifyTimer | HeartTimer | LimitTimer

  /** Bytes from the client; messages of the servers, which name a client by an id that is not 0;
      a server that registers; timers; the connection being ended. */
  datatype Event =
    | Recv(env: Env, chunk: seq<byte>)
    | VerdictReq(env: Env, req: VerifyRet, addr: seq<byte>)
    | ForwardReq(cmd: U32, msg: seq<byte>)
    | RouteReq(from: U16, grp: U16, svr: U16)
    | CacheReq(env: Env, from: U16, on: bool)
    | UinReq(env: Env, from: U16, uin: U64)
    | RegReq(to: U16, junk: seq<byte>, addr: seq<byte>)
    | Timeout(timer: Timer)
    | Kick

  /** A connection with the bytes received but not yet consumed. */
  datatype Link = Link(con: Con, buf: seq<byte>)

  function DeliverTo(rev: Handler, l: Link, chunk: seq<byte>): Link {
    if !l.con.connected then l
    else
      var (c, n) := Pump(rev, l.con, l.buf + chunk);
      Link(c, (l.buf + chunk)[n..])
  }

  function Deliver(env: Env, l: Link, chunk: seq<byte>): Link {
    DeliverTo(RevPacketIn(env), l, chunk)
  }

  predicate Armed(c: Con, t: Timer) {
    match t
    case FirstTimer => c.firstTm
    case VerifyTimer => c.verifyTm
    case HeartTimer => c.heartTm
    case LimitTimer => c.limitTm
  }

  /** A timer is one-shot: it is no longer armed when its handler runs. Every handler disconnects. */
  function Fired(c: Con, t: Timer): Con {
    match t
    case FirstTimer => Disc(c.(firstTm := false))
    case VerifyTimer => Disc(c.(verifyTm := false))
    case HeartTimer => Disc(c.(heartTm := false))
    case LimitTimer => Disc(c.(limitTm := false))
  }

  function Step(l: Link, e: Event): Link {
    match e
    case Recv(env, chunk) => Deliver(env, l, chunk)
    case VerdictReq(env, req, addr) =>
      if Finds(l.con, req, addr) then l.(con := HandleVerifyRet(env, l.con, req, addr)) else l
    case ForwardReq(cmd, msg) => if l.con.cid == 0 then l else l.(con := HandleForward(l.con, cmd, msg))
    case RouteReq(from, grp, svr) => if l.con.cid == 0 then l else l.(con := HandleSetActiveSvr(l.con, from, grp, svr))
    case CacheReq(env, from, on) => if l.con.cid == 0 then l else l.(con := HandleCacheMsg(env, l.con, from, on))
    case UinReq(env, from, uin) => if l.con.cid == 0 then l else l.(con := HandleBroadcastUin(env, l.con, from, uin))
    case RegReq(to, junk, addr) =>
      if |junk| == 21 && |addr| == 16 then l.(con := RevertSession(l.con, to, junk, addr)) else l
    case Timeout(t) => if Armed(l.con, t) then l.(con := Fired(l.con, t)) else l
    case Kick => l.(con := Disc(l.con))
  }

  function Run(l: Link, es: seq<Event>): Link
    decreases |es|
  {
    if es == [] then l else Step(Run(l, es[..|es| - 1]), es[|es| - 1])
  }

  function Start(k: CharKind, cid: U64, env: Env): Link {
    Link(OnConnected(env, Fresh(k, cid)), [])
  }
}
