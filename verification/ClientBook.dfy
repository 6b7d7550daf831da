/** A client connection kept account of from the events alone: what was received, judged, asked for
    and said, without the vector, the receive loop, the timers and the log. In every run the
    connection is as the book says, and the client reads on its wire what the book says it is told. */
module ClientBook {
  import opened Bytes
  import opened Proto
  import opened Framing
  import opened ExternalCon
  import opened ExternalRuns
  import opened Chunking
  import opened ClientStream
  import opened ClientTrace
  import opened EndToEnd

  // ---- what the client is told ------------------------------------------------------------

  /** A message as the client reads it: four bytes of command, and the rest. */
  datatype Said = Said(cmd: nat, text: seq<byte>)

  function Read(pack: seq<byte>): Said {
    if |pack| < 4 then Said(0, pack) else Said(LeVal(pack[..4]), pack[4..])
  }

  /** All that was sent to the client, as it reads it. */
  function Heard(log: seq<Entry>): seq<Said>
    decreases |log|
  {
    if log == [] then []
    else
      var e := log[|log| - 1];
      Heard(log[..|log| - 1]) + (if e.ToClient? then [Read(e.pack)] else [])
  }

  lemma HeardSnoc(log: seq<Entry>, e: Entry)
    ensures Heard(log + [e]) == Heard(log) + (if e.ToClient? then [Read(e.pack)] else [])
  {
    SnocParts(log, e);
  }

  /** A message of 4 + |msg| bytes whose first four read as the command and whose rest is the text. */
  lemma PackReads(cmd: U32, msg: seq<byte>)
    ensures Read(ClientPack(cmd, msg)) == Said(cmd, msg) && |ClientPack(cmd, msg)| == 4 + |msg|
  {
    Widths();
    LeValOfLe(cmd, 4);
    assert ClientPack(cmd, msg)[..4] == Le(cmd, 4) && ClientPack(cmd, msg)[4..] == msg;
  }

  // ---- the book ---------------------------------------------------------------------------

  /** taken: the packets handed over; held: those kept for the end of a pause; beaten: a heartbeat
      was answered. Each group has a server only if one was set for it. */
  datatype Book = Book(entrance: Entrance, phase: Phase, open: bool, seeded: bool, buf: seq<byte>,
                       taken: seq<seq<byte>>, routes: map<U16, U16>, uin: U64, paused: bool,
                       held: seq<seq<byte>>, said: seq<Said>, beaten: bool)

  function Opened(env: Env): Book {
    var cli := env.seting.cli;
    var refusal := Said(cli.rspCmd, cli.rspMsg[..|cli.rspMsg| % 0x1_0000]);
    Book(EntranceOf(env), Init, true, false, [], [], map[], 0, false, [],
         if env.conSize > cli.maxNum then [refusal] else [], false)
  }

  function RouteOf(env: Env, routes: map<U16, U16>, cmd: U16): U16 {
    if cmd !in env.cmd2Grp then env.seting.defaultGrp
    else
      var grp := env.cmd2Grp[cmd];
      if grp in routes then routes[grp] else grp
  }

  predicate IsBeat(env: Env, k: CharKind, p: seq<byte>) {
    4 <= |p| && CharToU32(k, p[0]) == env.seting.hbi.reqCmd != 0
  }

  /** A packet of a verified client: a heartbeat is answered, and the client is given up for one
      that nobody is responsible for. */
  function Serve(env: Env, k: CharKind, b: Book, p: seq<byte>): Book {
    if IsBeat(env, k, p) then b.(said := b.said + [Said(env.seting.hbi.rspCmd, [])], beaten := true)
    else if 4 <= |p| && RouteOf(env, b.routes, CharToU32(k, p[0]) % 0x1_0000) == 0 then b.(open := false)
    else b
  }

  function ServeAll(env: Env, k: CharKind, b: Book, ps: seq<seq<byte>>): Book
    decreases |ps|
  {
    if ps == [] then b else Serve(env, k, ServeAll(env, k, b, ps[..|ps| - 1]), ps[|ps| - 1])
  }

  /** A packet of a client that was not asked about yet: if it can be forwarded the client waits
      for its verdict, or is given up without a verify server. */
  function Ask(env: Env, k: CharKind, b: Book, p: seq<byte>): Book {
    if |p| < 4 || 4096 <= |p| || CharToU32(k, p[0]) == 0 then b
    else if env.verifySvr.None? then b.(open := false)
    else b.(phase := WaitVerify)
  }

  function Take(env: Env, k: CharKind, b: Book, p: seq<byte>): Book {
    var t := b.(taken := b.taken + [p]);
    match b.phase
    case Init => Ask(env, k, t, p)
    case WaitVerify => t
    case Verifyed => Serve(env, k, if b.paused then t.(held := b.held + [p]) else t, p)
  }

  function TakeAll(env: Env, k: CharKind, b: Book, ps: seq<seq<byte>>): Book
    decreases |ps|
  {
    if ps == [] then b else TakeAll(env, k, Take(env, k, b, ps[0]), ps[1..])
  }

  /** The bytes are split into packets, the rest is kept. */
  function Split(env: Env, k: CharKind, b: Book, s: seq<byte>): Book {
    var f := Frame(k, !b.phase.Verifyed?, s);
    var t := TakeAll(env, k, b.(seeded := true), f.pkts);
    t.(buf := f.rest, open := t.open && !f.bad)
  }

  /** The bytes are split once the seed was read: 0xEF, or four bytes that are not all zero and as
      many more as decide on a packet four bytes shorter. Either is part of the first packet. */
  predicate Splits(k: CharKind, b: Book, s: seq<byte>) {
    s != [] &&
    (|| b.seeded
     || CharVal(k, s[0]) == 0xEF
     || (|s| >= 4 && s[..4] != [0, 0, 0, 0] && !Head(k, !b.phase.Verifyed?, s, |s| - 4).Wait?))
  }

  function Receive(env: Env, k: CharKind, b: Book, chunk: seq<byte>): Book {
    var s := b.buf + chunk;
    if !b.open || s == [] then b
    else if Splits(k, b, s) then Split(env, k, b, s)
    else if |s| < 4 then b.(buf := s)
    else if s[..4] == [0, 0, 0, 0] then b.(open := false, buf := s)
    else b.(seeded := true, buf := s)
  }

  /** The answer is passed on, and a positive verdict counts if it was awaited. */
  function Judge(b: Book, req: VerifyRet): Book
    requires Readable(req.rsp.msg, req.rsp.len)
  {
    var t := b.(said := b.said + [Said(req.rsp.cmd, Span(req.rsp.msg, req.rsp.len))]);
    if req.success && b.phase.WaitVerify? then t.(phase := Verifyed) else t
  }

  /** A server is set for a group. */
  function Rerouted(b: Book, grp: U16, svr: U16): Book {
    if 0 < grp < 100 && svr != 0 then b.(routes := b.routes[grp := svr]) else b
  }

  /** The timers that run while the client is connected. */
  predicate Running(b: Book, t: Timer) {
    match t
    case FirstTimer => b.entrance.Timed? && b.taken == []
    case VerifyTimer => b.phase.WaitVerify?
    case HeartTimer => b.beaten
    case LimitTimer => b.entrance.Refused?
  }

  function Next(k: CharKind, cid: U64, b: Book, e: Event): Book {
    match e
    case Recv(env, chunk) => Receive(env, k, b, chunk)
    case VerdictReq(_, req, addr) =>
      if req.cid == cid != 0 && Readable(req.rsp.msg, req.rsp.len) && |addr| == 16 then Judge(b, req) else b
    case ForwardReq(cmd, msg) =>
      if cid != 0 && b.phase.Verifyed? then b.(said := b.said + [Said(cmd, msg)]) else b
    case RouteReq(_, grp, svr) =>
      if cid != 0 && b.phase.Verifyed? then Rerouted(b, grp, svr) else b
    case CacheReq(env, _, on) =>
      if cid == 0 || !b.phase.Verifyed? then b
      else if on then b.(paused := true)
      else ServeAll(env, k, b, b.held).(paused := false, held := [])
    case UinReq(_, _, uin) => if cid != 0 then b.(uin := uin) else b
    case RegReq(_, _, _) => b
    case Timeout(t) => if Running(b, t) then b.(open := false) else b
    case Kick => b.(open := false)
  }

  function BookOf(k: CharKind, cid: U64, env: Env, es: seq<Event>): Book
    decreases |es|
  {
    if es == [] then Opened(env) else Next(k, cid, BookOf(k, cid, env, es[..|es| - 1]), es[|es| - 1])
  }

  // ---- a connection as the book says ---------------------------------------------------------

  /** What the vector holds for a group. */
  function Slot(v: seq<U16>, grp: U16): U16 {
    if grp < |v| then v[grp] else 0
  }

  predicate Stands(v: seq<U16>, m: map<U16, U16>) {
    forall grp: U16 :: if grp in m then Slot(v, grp) == m[grp] != 0 else Slot(v, grp) == 0
  }

  predicate Agrees(c: Con, b: Book) {
    && c.phase == b.phase && c.connected == b.open && c.seeded == b.seeded
    && Handed(c.log) == b.taken && Stands(c.routes, b.routes) && c.uin == b.uin
    && c.caching == b.paused && c.cache == b.held
    && Heard(c.log) == b.said && (Echoed(c.log) <==> b.beaten)
  }

  predicate Tells(l: Link, b: Book) {
    Agrees(l.con, b) && l.buf == b.buf
  }

  lemma LogAgrees(c: Con, b: Book, e: Entry)
    requires Agrees(c, b) && !e.ToClient? && !e.Dispatched?
    ensures Agrees(Log(c, e), b)
  {
    HandedSnoc(c.log, e);
    HeardSnoc(c.log, e);
    EchoedSnoc(c.log, e);
    AppendNil(b.taken);
    AppendNil(b.said);
  }

  lemma SaidAgrees(c: Con, b: Book, why: Reason, cmd: U32, msg: seq<byte>)
    requires Agrees(c, b)
    ensures Agrees(Log(c, ToClient(why, ClientPack(cmd, msg))),
                   b.(said := b.said + [Said(cmd, msg)], beaten := b.beaten || why.Echo?))
  {
    var e := ToClient(why, ClientPack(cmd, msg));
    PackReads(cmd, msg);
    HandedSnoc(c.log, e);
    HeardSnoc(c.log, e);
    EchoedSnoc(c.log, e);
    AppendNil(b.taken);
  }

  lemma RouteAgrees(env: Env, v: seq<U16>, m: map<U16, U16>, cmd: U16)
    requires Stands(v, m)
    ensures ChooseSvr(env, v, cmd) == RouteOf(env, m, cmd)
  {
    if cmd in env.cmd2Grp {
      var grp := env.cmd2Grp[cmd];
      assert Slot(v, grp) == if grp in m then m[grp] else 0;
    }
  }

  /** A fate in the book, a heartbeat being answered with cmd. */
  function Borne(b: Book, f: Fate, cmd: U32): Book {
    match f
    case Beat(_) => b.(said := b.said + [Said(cmd, [])], beaten := true)
    case Hopeless => b.(open := false)
    case _ => b
  }

  lemma BorneAgrees(c: Con, b: Book, f: Fate, cmd: U32)
    requires Agrees(c, b) && (f.Beat? ==> f.pack == ClientPack(cmd, []))
    ensures Agrees(Carried(c, f), Borne(b, f, cmd))
  {
    match f {
      case Beat(pack) => SaidAgrees(c, b, Echo, cmd, []);
      case Sent(svr, pack) => LogAgrees(c, b, Forwarded(svr, pack));
      case Dropped =>
      case Hopeless =>
    }
  }

  lemma FateBorne(env: Env, k: CharKind, cid: U64, v: seq<U16>, b: Book, p: seq<byte>)
    requires Stands(v, b.routes)
    ensures var f := ClientFate(env, k, cid, v, p);
            && (f.Beat? ==> f.pack == ClientPack(env.seting.hbi.rspCmd, []))
            && Borne(b, f, env.seting.hbi.rspCmd) == Serve(env, k, b, p)
  {
    if |p| >= 4 {
      RouteAgrees(env, v, b.routes, CharToU32(k, p[0]) % 0x1_0000);
    }
  }

  lemma ServeAgrees(env: Env, c: Con, b: Book, p: seq<byte>)
    requires Agrees(c, b)
    ensures Agrees(Carried(c, ClientFate(env, c.k, c.cid, c.routes, p)), Serve(env, c.k, b, p))
  {
    FateBorne(env, c.k, c.cid, c.routes, b, p);
    BorneAgrees(c, b, ClientFate(env, c.k, c.cid, c.routes, p), env.seting.hbi.rspCmd);
  }

  lemma {:induction false} ServeAllAgrees(env: Env, c: Con, b: Book, ps: seq<seq<byte>>)
    requires Agrees(c, b)
    ensures Agrees(CarriedAll(c, Fates(env, c, ps)), ServeAll(env, c.k, b, ps))
    decreases |ps|
  {
    if ps != [] {
      var n := |ps| - 1;
      var d := CarriedAll(c, Fates(env, c, ps[..n]));
      ServeAllAgrees(env, c, b, ps[..n]);
      FatesSnoc(env, c, ps);
      CarriedAllKept(c, Fates(env, c, ps[..n]));
      ServeAgrees(env, d, ServeAll(env, c.k, b, ps[..n]), ps[n]);
    }
  }

  /** Only the answers, the heartbeat and the connection can change. */
  lemma {:induction false} ServeAllKeeps(env: Env, k: CharKind, b: Book, ps: seq<seq<byte>>)
    ensures var d := ServeAll(env, k, b, ps); d == b.(open := d.open, said := d.said, beaten := d.beaten)
    decreases |ps|
  {
    if ps != [] {
      ServeAllKeeps(env, k, b, ps[..|ps| - 1]);
    }
  }

  lemma NotedAgrees(c: Con, b: Book, p: seq<byte>)
    requires Agrees(c, b)
    ensures var t := b.(taken := b.taken + [p]);
            Agrees(Noted(c, p), if b.phase.Verifyed? && b.paused then t.(held := b.held + [p]) else t)
  {
    HandedSnoc(c.log, Dispatched(p));
    HeardSnoc(c.log, Dispatched(p));
    EchoedSnoc(c.log, Dispatched(p));
    AppendNil(b.said);
  }

  lemma AskAgrees(env: Env, c: Con, b: Book, p: seq<byte>)
    requires Agrees(c, b) && |p| < 0x1_0000 && c.phase.Init?
    ensures Agrees(Asked(c, AskFate(env, c.k, c.cid, p)), Ask(env, c.k, b, p))
  {
    FateAsked(env, c.k, c.cid, b, p);
    AskedAgrees(c, b, AskFate(env, c.k, c.cid, p));
  }

  lemma FateAsked(env: Env, k: CharKind, cid: U64, b: Book, p: seq<byte>)
    requires |p| < 0x1_0000
    ensures var f := AskFate(env, k, cid, p);
            Ask(env, k, b, p) == if f.Sent? then b.(phase := WaitVerify) else if f.Hopeless? then b.(open := false) else b
  {
  }

  lemma AskedAgrees(c: Con, b: Book, f: Fate)
    requires Agrees(c, b) && !f.Beat?
    ensures Agrees(Asked(c, f), if f.Sent? then b.(phase := WaitVerify) else if f.Hopeless? then b.(open := false) else b)
  {
    if f.Sent? {
      LogAgrees(c, b, VerifyReq(f.svr, f.pack));
    }
  }

  lemma TakeAgrees(env: Env, c: Con, b: Book, p: seq<byte>)
    requires Agrees(c, b) && |p| < 0x1_0000
    ensures Agrees(RevPacket(env, c, p), Take(env, c.k, b, p))
  {
    var n, t := Noted(c, p), b.(taken := b.taken + [p]);
    NotedAgrees(c, b, p);
    match c.phase {
      case Init => AskAgrees(env, n, t, p);
      case WaitVerify =>
      case Verifyed => ServeAgrees(env, n, if b.paused then t.(held := b.held + [p]) else t, p);
    }
  }

  lemma {:induction false} TakeAllAgrees(env: Env, c: Con, b: Book, ps: seq<seq<byte>>)
    requires Agrees(c, b) && Sized(ps)
    ensures Agrees(RevAll(Client(env), c, ps), TakeAll(env, c.k, b, ps))
    decreases |ps|
  {
    if ps != [] {
      TakeAgrees(env, c, b, ps[0]);
      RevSelf(env, c, ps[0]);
      TakeAllAgrees(env, RevPacket(env, c, ps[0]), Take(env, c.k, b, ps[0]), ps[1..]);
    }
  }

  /** The receive loop of a connection that is seeded, or counts as seeded. */
  lemma SplitAgrees(env: Env, c: Con, b: Book, s: seq<byte>)
    requires Agrees(c, b)
    ensures var (d, n) := Pump(RevPacketIn(env), c.(seeded := true), s);
            Tells(Link(d, s[n..]), Split(env, c.k, b, s))
  {
    var h, c1, b1 := Client(env), c.(seeded := true), b.(seeded := true);
    var f := Frame(c.k, Strict(c), s);
    ClientUniform(env);
    PumpIsFrame(h, c1, s);
    FrameSplits(c.k, Strict(c), s);
    FramesAreSized(c.k, Strict(c), f.pkts);
    TakeAllAgrees(env, c1, b1, f.pkts);
    assert s[|Flatten(f.pkts)|..] == f.rest;
  }

  lemma SplitReceives(env: Env, l: Link, b: Book, chunk: seq<byte>)
    requires Tells(l, b) && l.con.connected
    requires var s := l.buf + chunk; Pump(RevPacketIn(env), l.con, s) == Pump(RevPacketIn(env), l.con.(seeded := true), s)
    ensures Tells(Deliver(env, l, chunk), Split(env, l.con.k, b, l.buf + chunk))
  {
    SplitAgrees(env, l.con, b, l.buf + chunk);
  }

  lemma UnseededReceives(env: Env, l: Link, b: Book, chunk: seq<byte>)
    requires Tells(l, b) && l.con.connected && !l.con.seeded && l.buf + chunk != []
    ensures Tells(Deliver(env, l, chunk), Receive(env, l.con.k, b, chunk))
  {
    var c, s, rev := l.con, l.buf + chunk, RevPacketIn(env);
    match HandleSeed(c.k, s) {
      case NewSeed =>
        NewSeedPump(rev, c, s);
        SplitReceives(env, l, b, chunk);
      case OldSeed =>
        OldSeedPump(rev, c, s);
        if !Head(c.k, Strict(c), s, |s| - 4).Wait? {
          SplitReceives(env, l, b, chunk);
        }
      case _ => NoSeedPump(rev, c, s);
    }
  }

  lemma ReceiveAgrees(env: Env, l: Link, b: Book, chunk: seq<byte>)
    requires Tells(l, b)
    ensures Tells(Deliver(env, l, chunk), Receive(env, l.con.k, b, chunk))
  {
    if l.con.connected && l.buf + chunk != [] {
      if l.con.seeded {
        assert l.con.(seeded := true) == l.con;
        SplitReceives(env, l, b, chunk);
      } else {
        UnseededReceives(env, l, b, chunk);
      }
    }
  }

  lemma SetVerifyAgrees(c: Con, b: Book)
    requires Agrees(c, b)
    ensures Agrees(SetVerify(c, true), if b.phase.WaitVerify? then b.(phase := Verifyed) else b)
  {
    LogAgrees(c, b, Verdict(true));
  }

  lemma AcceptAgrees(env: Env, c: Con, b: Book, req: VerifyRet, addr: seq<byte>)
    requires Agrees(c, b) && |addr| == 16
    ensures var d := SetVerify(c, true);
            Agrees(if |req.accName| > MAX_NAME_LEN then d
                   else Log(d, Announced(Registered(env), CreatePack(req.cid, req.uin, req.accName, addr))),
                   if b.phase.WaitVerify? then b.(phase := Verifyed) else b)
  {
    var t := if b.phase.WaitVerify? then b.(phase := Verifyed) else b;
    SetVerifyAgrees(c, b);
    if |req.accName| <= MAX_NAME_LEN {
      LogAgrees(SetVerify(c, true), t, Announced(Registered(env), CreatePack(req.cid, req.uin, req.accName, addr)));
    }
  }

  lemma JudgeAgrees(env: Env, c: Con, b: Book, req: VerifyRet, addr: seq<byte>)
    requires Agrees(c, b) && Finds(c, req, addr)
    ensures Agrees(HandleVerifyRet(env, c, req, addr), Judge(b, req))
  {
    var text := Span(req.rsp.msg, req.rsp.len);
    var c1 := Log(c, ToClient(Answer, ClientPack(req.rsp.cmd, text)));
    SaidAgrees(c, b, Answer, req.rsp.cmd, text);
    if !req.success || c.phase.Verifyed? {
      assert HandleVerifyRet(env, c, req, addr) == c1;
    } else {
      AcceptAgrees(env, c1, b.(said := b.said + [Said(req.rsp.cmd, text)]), req, addr);
    }
  }

  lemma RoutedStands(v: seq<U16>, m: map<U16, U16>, grp: U16, svr: U16)
    requires Stands(v, m) && 0 < grp < 100 && svr != 0
    ensures Stands(Routed(v, grp, svr), m[grp := svr])
  {
    var w := Routed(v, grp, svr);
    forall g: U16 ensures Slot(w, g) == if g == grp then svr else Slot(v, g) {
    }
  }

  lemma RoutesAgree(c: Con, b: Book, v: seq<U16>, m: map<U16, U16>)
    requires Agrees(c, b) && Stands(v, m)
    ensures Agrees(c.(routes := v), b.(routes := m))
  {
  }

  lemma SetActiveAgrees(c: Con, b: Book, grp: U16, svr: U16)
    requires Agrees(c, b)
    ensures Agrees(SetActiveSvrId(c, grp, svr), Rerouted(b, grp, svr))
  {
    LogAgrees(c, b, RouteSet(grp, svr));
    if 0 < grp < 100 && svr != 0 {
      RoutedStands(c.routes, b.routes, grp, svr);
    }
    RoutesAgree(Log(c, RouteSet(grp, svr)), b, Routed(c.routes, grp, svr), Rerouted(b, grp, svr).routes);
  }

  lemma RouteReqAgrees(l: Link, b: Book, from: U16, grp: U16, svr: U16)
    requires Tells(l, b)
    ensures Tells(Step(l, RouteReq(from, grp, svr)), Next(l.con.k, l.con.cid, b, RouteReq(from, grp, svr)))
  {
    if l.con.cid != 0 && l.con.phase.Verifyed? {
      SetActiveAgrees(l.con, b, grp, svr);
      LogAgrees(SetActiveSvrId(l.con, grp, svr), Rerouted(b, grp, svr), Replied(from, ActivePack(l.con.cid, svr, grp)));
    }
  }

  lemma ResumeAgrees(env: Env, c: Con, b: Book)
    requires Agrees(c, b)
    ensures Agrees(SetCache(env, c, false), ServeAll(env, c.k, b, b.held).(paused := false, held := []))
  {
    var d, t := CarriedAll(c, Fates(env, c, c.cache)), ServeAll(env, c.k, b, b.held);
    ServeAllAgrees(env, c, b, b.held);
    LogAgrees(d, t, CacheSet(false));
  }

  lemma CacheReqAgrees(l: Link, b: Book, env: Env, from: U16, on: bool)
    requires Tells(l, b)
    ensures Tells(Step(l, CacheReq(env, from, on)), Next(l.con.k, l.con.cid, b, CacheReq(env, from, on)))
  {
    var e := Replied(from, CacheRspPack(l.con.cid, on));
    if l.con.cid != 0 && l.con.phase.Verifyed? {
      LogAgrees(l.con, b, e);
      if on {
        LogAgrees(Log(l.con, e), b, CacheSet(true));
      } else {
        ResumeAgrees(env, Log(l.con, e), b);
        ServeAllKeeps(env, l.con.k, b, b.held);
      }
    }
  }

  /** While the client is connected the timers that run are those the book says. */
  lemma TimersAgree(c: Con, b: Book, t: Timer)
    requires Agrees(c, b) && Inv(c) && Watched(c, b.entrance) && c.connected
    ensures Armed(c, t) <==> Running(b, t)
  {
    HandedCounted(c.log);
  }

  lemma {:induction false} HandedCounted(log: seq<Entry>)
    ensures |Handed(log)| == Recount(log).dispatched
    decreases |log|
  {
    if log != [] {
      HandedCounted(log[..|log| - 1]);
    }
  }

  lemma TimeoutAgrees(l: Link, b: Book, t: Timer)
    requires Tells(l, b) && Inv(l.con) && Watched(l.con, b.entrance)
    ensures Tells(Step(l, Timeout(t)), if Running(b, t) then b.(open := false) else b)
  {
    if l.con.connected {
      TimersAgree(l.con, b, t);
    }
  }

  lemma VerdictReqAgrees(l: Link, b: Book, env: Env, req: VerifyRet, addr: seq<byte>)
    requires Tells(l, b)
    ensures Tells(Step(l, VerdictReq(env, req, addr)), Next(l.con.k, l.con.cid, b, VerdictReq(env, req, addr)))
  {
    if Finds(l.con, req, addr) {
      JudgeAgrees(env, l.con, b, req, addr);
    }
  }

  lemma ForwardReqAgrees(l: Link, b: Book, cmd: U32, msg: seq<byte>)
    requires Tells(l, b)
    ensures Tells(Step(l, ForwardReq(cmd, msg)), Next(l.con.k, l.con.cid, b, ForwardReq(cmd, msg)))
  {
    if l.con.cid != 0 && l.con.phase.Verifyed? {
      SaidAgrees(l.con, b, Relay, cmd, msg);
    }
  }

  lemma UinReqAgrees(l: Link, b: Book, env: Env, from: U16, uin: U64)
    requires Tells(l, b)
    ensures Tells(Step(l, UinReq(env, from, uin)), Next(l.con.k, l.con.cid, b, UinReq(env, from, uin)))
  {
    if l.con.cid != 0 {
      LogAgrees(l.con.(uin := uin), b.(uin := uin), UinTold(Registered(env) - {from}, UinPack(l.con.cid, uin)));
    }
  }

  lemma RegReqAgrees(l: Link, b: Book, to: U16, junk: seq<byte>, addr: seq<byte>)
    requires Tells(l, b)
    ensures Tells(Step(l, RegReq(to, junk, addr)), b)
  {
    if |junk| == 21 && |addr| == 16 && l.con.phase.Verifyed? {
      LogAgrees(l.con, b, Recovered(to, CreateBytes(l.con.cid, l.con.uin, junk, addr)));
    }
  }

  lemma NextAgrees(l: Link, b: Book, e: Event)
    requires Tells(l, b) && Inv(l.con) && Watched(l.con, b.entrance)
    ensures Tells(Step(l, e), Next(l.con.k, l.con.cid, b, e))
  {
    match e {
      case Recv(env, chunk) => ReceiveAgrees(env, l, b, chunk);
      case VerdictReq(env, req, addr) => VerdictReqAgrees(l, b, env, req, addr);
      case ForwardReq(cmd, msg) => ForwardReqAgrees(l, b, cmd, msg);
      case RouteReq(from, grp, svr) => RouteReqAgrees(l, b, from, grp, svr);
      case CacheReq(env, from, on) => CacheReqAgrees(l, b, env, from, on);
      case UinReq(env, from, uin) => UinReqAgrees(l, b, env, from, uin);
      case RegReq(to, junk, addr) => RegReqAgrees(l, b, to, junk, addr);
      case Timeout(t) => TimeoutAgrees(l, b, t);
      case Kick =>
    }
  }

  lemma StartAgrees(k: CharKind, cid: U64, env: Env)
    ensures Tells(Start(k, cid, env), Opened(env))
  {
    var c, b := Fresh(k, cid), Opened(env).(said := []);
    var cli := env.seting.cli;
    assert Agrees(c, b);
    if env.conSize > cli.maxNum {
      SaidAgrees(c, b, Limit, cli.rspCmd, cli.rspMsg[..|cli.rspMsg| % 0x1_0000]);
    }
  }

  // ---- what packets change in the book -------------------------------------------------------

  /** The packets that a receive event completes. */
  function Came(k: CharKind, b: Book, chunk: seq<byte>): seq<seq<byte>> {
    var s := b.buf + chunk;
    if b.open && Splits(k, b, s) then Frame(k, !b.phase.Verifyed?, s).pkts else []
  }

  /** The answers to the heartbeats among some packets. */
  function Echoes(env: Env, k: CharKind, ps: seq<seq<byte>>): seq<Said>
    decreases |ps|
  {
    if ps == [] then []
    else (if IsBeat(env, k, ps[0]) then [Said(env.seting.hbi.rspCmd, [])] else []) + Echoes(env, k, ps[1..])
  }

  lemma {:induction false} EchoesSnoc(env: Env, k: CharKind, ps: seq<seq<byte>>)
    requires ps != []
    ensures var n := |ps| - 1;
            Echoes(env, k, ps) == Echoes(env, k, ps[..n]) +
              (if IsBeat(env, k, ps[n]) then [Said(env.seting.hbi.rspCmd, [])] else [])
    decreases |ps|
  {
    var n := |ps| - 1;
    if n == 0 {
      assert ps[1..] == [];
    } else {
      EchoesSnoc(env, k, ps[1..]);
      assert ps[1..][..n - 1] == ps[..n][1..] && ps[1..][n - 1] == ps[n];
    }
  }

  /** From b to d the packets ps were taken, says was said, and what only requests change stayed. */
  predicate GoesOn(b: Book, d: Book, ps: seq<seq<byte>>, says: seq<Said>) {
    && d.entrance == b.entrance && d.routes == b.routes && d.uin == b.uin && d.paused == b.paused
    && (d.phase.Verifyed? <==> b.phase.Verifyed?)
    && d.taken == b.taken + ps && d.said == b.said + says
    && d.held == if b.phase.Verifyed? && b.paused then b.held + ps else b.held
  }

  lemma GoesOnAgain(b: Book, d: Book, e: Book, ps: seq<seq<byte>>, qs: seq<seq<byte>>, says: seq<Said>, more: seq<Said>)
    requires GoesOn(b, d, ps, says) && GoesOn(d, e, qs, more)
    ensures GoesOn(b, e, ps + qs, says + more)
  {
    Assoc(b.taken, ps, qs);
    Assoc(b.said, says, more);
    Assoc(b.held, ps, qs);
  }

  lemma GoesNowhere(b: Book)
    ensures GoesOn(b, b, [], [])
  {
    AppendNil(b.taken);
    AppendNil(b.said);
    AppendNil(b.held);
  }

  function EchoOf(env: Env, k: CharKind, b: Book, ps: seq<seq<byte>>): seq<Said> {
    if b.phase.Verifyed? then Echoes(env, k, ps) else []
  }

  lemma EchoesOne(env: Env, k: CharKind, p: seq<byte>)
    ensures Echoes(env, k, [p]) == if IsBeat(env, k, p) then [Said(env.seting.hbi.rspCmd, [])] else []
  {
    assert [p][1..] == [];
  }

  lemma TakeGoesOn(env: Env, k: CharKind, b: Book, p: seq<byte>)
    ensures GoesOn(b, Take(env, k, b, p), [p], EchoOf(env, k, b, [p]))
  {
    EchoesOne(env, k, p);
    AppendNil(b.said);
    match b.phase {
      case Init =>
      case WaitVerify =>
      case Verifyed =>
    }
  }

  lemma EchoesCons(env: Env, k: CharKind, ps: seq<seq<byte>>)
    requires ps != []
    ensures Echoes(env, k, ps) == Echoes(env, k, [ps[0]]) + Echoes(env, k, ps[1..])
  {
    EchoesOne(env, k, ps[0]);
  }

  lemma {:induction false} TakeAllGoesOn(env: Env, k: CharKind, b: Book, ps: seq<seq<byte>>)
    ensures GoesOn(b, TakeAll(env, k, b, ps), ps, EchoOf(env, k, b, ps))
    decreases |ps|
  {
    GoesNowhere(b);
    if ps != [] {
      var d := Take(env, k, b, ps[0]);
      TakeGoesOn(env, k, b, ps[0]);
      TakeAllGoesOn(env, k, d, ps[1..]);
      EchoesCons(env, k, ps);
      GoesOnAgain(b, d, TakeAll(env, k, d, ps[1..]), [ps[0]], ps[1..], EchoOf(env, k, b, [ps[0]]), EchoOf(env, k, d, ps[1..]));
      assert [ps[0]] + ps[1..] == ps;
    }
  }

  lemma ReceiveGoesOn(env: Env, k: CharKind, b: Book, chunk: seq<byte>)
    ensures GoesOn(b, Receive(env, k, b, chunk), Came(k, b, chunk), EchoOf(env, k, b, Came(k, b, chunk)))
  {
    GoesNowhere(b);
    if b.open && Splits(k, b, b.buf + chunk) {
      TakeAllGoesOn(env, k, b.(seeded := true), Came(k, b, chunk));
    }
  }

  lemma NextEntrance(k: CharKind, cid: U64, b: Book, e: Event)
    ensures Next(k, cid, b, e).entrance == b.entrance
  {
    match e {
      case Recv(env, chunk) => ReceiveGoesOn(env, k, b, chunk);
      case CacheReq(env, _, on) => ServeAllKeeps(env, k, b, b.held);
      case _ =>
    }
  }

  lemma {:induction false} RunAgrees(k: CharKind, cid: U64, env: Env, es: seq<Event>)
    ensures var l, b := Run(Start(k, cid, env), es), BookOf(k, cid, env, es);
            && Tells(l, b) && b.entrance == EntranceOf(env)
            && l.con.k == k && l.con.cid == cid
    decreases |es|
  {
    if es == [] {
      StartAgrees(k, cid, env);
    } else {
      var before, e := es[..|es| - 1], es[|es| - 1];
      RunAgrees(k, cid, env, before);
      ReachableInv(k, cid, env, before);
      RunWatched(k, cid, env, before);
      NextAgrees(Run(Start(k, cid, env), before), BookOf(k, cid, env, before), e);
      NextEntrance(k, cid, BookOf(k, cid, env, before), e);
      StepSelf(Run(Start(k, cid, env), before), e);
    }
  }

  // ---- main results ---------------------------------------------------------------------------

  /** In every run the connection is as the book says: phase and connection, the packets handed
      over and the bytes kept back, the server each command is routed to, the user id, the pause and
      what it holds, all that the client reads, and which timers run while it is connected. */
  lemma BookInEveryRun(k: CharKind, cid: U64, env0: Env, es: seq<Event>, l: Link, b: Book)
    requires l == Run(Start(k, cid, env0), es) && b == BookOf(k, cid, env0, es)
    ensures l.con.phase == b.phase && l.con.connected == b.open
    ensures Handed(l.con.log) == b.taken && l.buf == b.buf
    ensures forall env: Env, cmd: U16 :: ChooseSvr(env, l.con.routes, cmd) == RouteOf(env, b.routes, cmd)
    ensures l.con.uin == b.uin && l.con.caching == b.paused && l.con.cache == b.held
    ensures Heard(l.con.log) == b.said
    ensures l.con.connected ==> forall t :: Armed(l.con, t) <==> Running(b, t)
  {
    RunAgrees(k, cid, env0, es);
    ReachableInv(k, cid, env0, es);
    RunWatched(k, cid, env0, es);
    forall env: Env, cmd: U16 ensures ChooseSvr(env, l.con.routes, cmd) == RouteOf(env, b.routes, cmd) {
      RouteAgrees(env, l.con.routes, b.routes, cmd);
    }
    if l.con.connected {
      forall t ensures Armed(l.con, t) <==> Running(b, t) {
        TimersAgree(l.con, b, t);
      }
    }
  }

  // ---- bytes ----

  lemma ReceiveKeeps(env: Env, k: CharKind, b: Book, chunk: seq<byte>)
    ensures Flatten(Came(k, b, chunk)) + Receive(env, k, b, chunk).buf == if b.open then b.buf + chunk else b.buf
  {
    if b.open && Splits(k, b, b.buf + chunk) {
      FrameSplits(k, !b.phase.Verifyed?, b.buf + chunk);
    } else {
      AppendNil(Receive(env, k, b, chunk).buf);
      AppendNil(b.buf);
    }
  }

  /** What was received while the client was connected. */
  function Received(l: Link, es: seq<Event>): seq<byte>
    decreases |es|
  {
    if es == [] then []
    else
      var before, e := es[..|es| - 1], es[|es| - 1];
      Received(l, before) + (if e.Recv? && Run(l, before).con.connected then e.chunk else [])
  }

  /** The bytes a book accounts for. */
  function BytesOf(b: Book): seq<byte> {
    Flatten(b.taken) + b.buf
  }

  lemma ReceiveBytes(env: Env, k: CharKind, b: Book, chunk: seq<byte>)
    ensures BytesOf(Receive(env, k, b, chunk)) == BytesOf(b) + (if b.open then chunk else [])
  {
    var d, ps := Receive(env, k, b, chunk), Came(k, b, chunk);
    ReceiveGoesOn(env, k, b, chunk);
    ReceiveKeeps(env, k, b, chunk);
    FlattenAppend(b.taken, ps);
    Assoc(Flatten(b.taken), Flatten(ps), d.buf);
    Assoc(Flatten(b.taken), b.buf, chunk);
    AppendNil(BytesOf(b));
  }

  /** Nothing else takes packets or bytes. */
  lemma NextQuiet(k: CharKind, cid: U64, b: Book, e: Event)
    requires !e.Recv?
    ensures var d := Next(k, cid, b, e); d.taken == b.taken && d.buf == b.buf
  {
    if e.CacheReq? {
      ServeAllKeeps(e.env, k, b, b.held);
    }
  }

  lemma NextBytes(k: CharKind, cid: U64, b: Book, e: Event)
    ensures BytesOf(Next(k, cid, b, e)) == BytesOf(b) + (if e.Recv? && b.open then e.chunk else [])
  {
    if e.Recv? {
      ReceiveBytes(e.env, k, b, e.chunk);
    } else {
      NextQuiet(k, cid, b, e);
      AppendNil(BytesOf(b));
    }
  }

  /** Not a byte is lost, doubled or moved: whatever was received, cut as it may be, is the packets
      handed over, one after the other, and what is kept back. */
  lemma {:induction false} BytesInEveryRun(k: CharKind, cid: U64, env0: Env, es: seq<Event>, l: Link)
    requires l == Run(Start(k, cid, env0), es)
    ensures Flatten(Handed(l.con.log)) + l.buf == Received(Start(k, cid, env0), es)
    decreases |es|
  {
    RunAgrees(k, cid, env0, es);
    if es != [] {
      var before := es[..|es| - 1];
      BytesInEveryRun(k, cid, env0, before, Run(Start(k, cid, env0), before));
      RunAgrees(k, cid, env0, before);
      NextBytes(k, cid, BookOf(k, cid, env0, before), es[|es| - 1]);
    }
  }

  // ---- routes and user ids ----

  /** The server that was last asked to be set for a group while the client was verified. */
  function LastRequested(l: Link, es: seq<Event>, grp: U16): Option<U16>
    decreases |es|
  {
    if es == [] then None
    else
      var before, e := es[..|es| - 1], es[|es| - 1];
      if e.RouteReq? && e.grp == grp && 0 < grp < 100 && e.svr != 0 && Run(l, before).con.phase.Verifyed? then Some(e.svr)
      else LastRequested(l, before, grp)
  }

  lemma NextRoutes(k: CharKind, cid: U64, b: Book, e: Event)
    requires cid != 0
    ensures Next(k, cid, b, e).routes ==
            if e.RouteReq? && b.phase.Verifyed? then Rerouted(b, e.grp, e.svr).routes else b.routes
  {
    match e {
      case Recv(env, chunk) => ReceiveGoesOn(env, k, b, chunk);
      case CacheReq(env, _, on) => ServeAllKeeps(env, k, b, b.held);
      case _ =>
    }
  }

  lemma {:induction false} RequestsRoute(k: CharKind, cid: U64, env0: Env, es: seq<Event>, grp: U16)
    requires cid != 0
    ensures var m := BookOf(k, cid, env0, es).routes;
            LastRequested(Start(k, cid, env0), es, grp) == if grp in m then Some(m[grp]) else None
    decreases |es|
  {
    if es != [] {
      var before := es[..|es| - 1];
      RequestsRoute(k, cid, env0, before, grp);
      RunAgrees(k, cid, env0, before);
      NextRoutes(k, cid, BookOf(k, cid, env0, before), es[|es| - 1]);
    }
  }

  /** In every run a command is routed by its group to the server that was last asked for that
      group while the client was verified, or else to the group itself; a command without a group
      to the default group. */
  lemma RoutedAsRequested(k: CharKind, cid: U64, env0: Env, es: seq<Event>, c: Con, env: Env, cmd: U16)
    requires cid != 0 && c == Run(Start(k, cid, env0), es).con
    ensures ChooseSvr(env, c.routes, cmd) ==
            if cmd !in env.cmd2Grp then env.seting.defaultGrp
            else match LastRequested(Start(k, cid, env0), es, env.cmd2Grp[cmd])
              case Some(svr) => svr
              case None => env.cmd2Grp[cmd]
  {
    RunAgrees(k, cid, env0, es);
    RouteAgrees(env, c.routes, BookOf(k, cid, env0, es).routes, cmd);
    if cmd in env.cmd2Grp {
      RequestsRoute(k, cid, env0, es, env.cmd2Grp[cmd]);
    }
  }

  /** What one request changes: the commands of its group go to its server, all others where they
      went before. */
  lemma RouteReqTakesEffect(l: Link, from: U16, grp: U16, svr: U16, env: Env, cmd: U16)
    requires l.con.cid != 0 && l.con.phase.Verifyed? && 0 < grp < 100 && svr != 0
    ensures ChooseSvr(env, Step(l, RouteReq(from, grp, svr)).con.routes, cmd) ==
            if cmd in env.cmd2Grp && env.cmd2Grp[cmd] == grp then svr else ChooseSvr(env, l.con.routes, cmd)
  {
    var v, w := l.con.routes, Step(l, RouteReq(from, grp, svr)).con.routes;
    assert w == Resized(v, grp + 1)[grp := svr];
    forall g: U16 ensures Slot(w, g) == if g == grp then svr else Slot(v, g) {
    }
  }

  /** The user id last broadcast. */
  function LastUin(es: seq<Event>): U64
    decreases |es|
  {
    if es == [] then 0
    else if es[|es| - 1].UinReq? then es[|es| - 1].uin
    else LastUin(es[..|es| - 1])
  }

  lemma NextUin(k: CharKind, cid: U64, b: Book, e: Event)
    requires cid != 0
    ensures Next(k, cid, b, e).uin == if e.UinReq? then e.uin else b.uin
  {
    match e {
      case Recv(env, chunk) => ReceiveGoesOn(env, k, b, chunk);
      case CacheReq(env, _, on) => ServeAllKeeps(env, k, b, b.held);
      case _ =>
    }
  }

  lemma {:induction false} BookUin(k: CharKind, cid: U64, env0: Env, es: seq<Event>)
    requires cid != 0
    ensures BookOf(k, cid, env0, es).uin == LastUin(es)
    decreases |es|
  {
    if es != [] {
      BookUin(k, cid, env0, es[..|es| - 1]);
      NextUin(k, cid, BookOf(k, cid, env0, es[..|es| - 1]), es[|es| - 1]);
    }
  }

  /** After any run a server that registers is told of a verified client under the user id last
      broadcast; under 0 if none was, whatever user id the verdict announced. */
  lemma RecoveredUnderLastUin(k: CharKind, cid: U64, env0: Env, es: seq<Event>, l: Link, to: U16, junk: seq<byte>, addr: seq<byte>)
    requires cid != 0 && l == Run(Start(k, cid, env0), es) && |junk| == 21 && |addr| == 16
    ensures Step(l, RegReq(to, junk, addr)).con.log ==
            if l.con.phase.Verifyed? then l.con.log + [Recovered(to, CreateBytes(cid, LastUin(es), junk, addr))]
            else l.con.log
  {
    RunAgrees(k, cid, env0, es);
    BookUin(k, cid, env0, es);
  }

  // ---- what the client is told ----

  lemma {:induction false} ServeAllSays(env: Env, k: CharKind, b: Book, ps: seq<seq<byte>>)
    ensures ServeAll(env, k, b, ps).said == b.said + Echoes(env, k, ps)
    decreases |ps|
  {
    if ps == [] {
      AppendNil(b.said);
    } else {
      var n := |ps| - 1;
      var echo := if IsBeat(env, k, ps[n]) then [Said(env.seting.hbi.rspCmd, [])] else [];
      ServeAllSays(env, k, b, ps[..n]);
      EchoesSnoc(env, k, ps);
      Assoc(b.said, Echoes(env, k, ps[..n]), echo);
      AppendNil(ServeAll(env, k, b, ps[..n]).said);
    }
  }

  /** What an event makes the client hear: the answers to its heartbeats, also to those that a
      resume takes from the buffer; the answer to a verdict on it, good or bad; what a server has to
      say to a verified client. Nothing else does. */
  function EventSays(k: CharKind, cid: U64, b: Book, e: Event): seq<Said> {
    match e
    case Recv(env, chunk) => if b.phase.Verifyed? then Echoes(env, k, Came(k, b, chunk)) else []
    case VerdictReq(_, req, addr) =>
      if req.cid == cid != 0 && Readable(req.rsp.msg, req.rsp.len) && |addr| == 16 then
        [Said(req.rsp.cmd, Span(req.rsp.msg, req.rsp.len))]
      else []
    case ForwardReq(cmd, msg) => if cid != 0 && b.phase.Verifyed? then [Said(cmd, msg)] else []
    case CacheReq(env, _, on) => if cid != 0 && b.phase.Verifyed? && !on then Echoes(env, k, b.held) else []
    case _ => []
  }

  lemma NextSays(k: CharKind, cid: U64, b: Book, e: Event)
    ensures Next(k, cid, b, e).said == b.said + EventSays(k, cid, b, e)
  {
    AppendNil(b.said);
    match e {
      case Recv(env, chunk) => ReceiveGoesOn(env, k, b, chunk);
      case CacheReq(env, _, on) => ServeAllSays(env, k, b, b.held);
      case _ =>
    }
  }

  function RunSays(k: CharKind, cid: U64, env0: Env, es: seq<Event>): seq<Said>
    decreases |es|
  {
    if es == [] then
      var cli := env0.seting.cli;
      if env0.conSize > cli.maxNum then [Said(cli.rspCmd, cli.rspMsg[..|cli.rspMsg| % 0x1_0000])] else []
    else
      var before := es[..|es| - 1];
      RunSays(k, cid, env0, before) + EventSays(k, cid, BookOf(k, cid, env0, before), es[|es| - 1])
  }

  lemma {:induction false} BookSays(k: CharKind, cid: U64, env0: Env, es: seq<Event>)
    ensures BookOf(k, cid, env0, es).said == RunSays(k, cid, env0, es)
    decreases |es|
  {
    if es != [] {
      BookSays(k, cid, env0, es[..|es| - 1]);
      NextSays(k, cid, BookOf(k, cid, env0, es[..|es| - 1]), es[|es| - 1]);
    }
  }

  /** From server to client: in every run the client reads, message by message and in order, the
      refusal if there were too many when it came, and then what the events make it hear. */
  lemma HearsInEveryRun(k: CharKind, cid: U64, env0: Env, es: seq<Event>, c: Con)
    requires c == Run(Start(k, cid, env0), es).con
    ensures Heard(c.log) == RunSays(k, cid, env0, es)
  {
    RunAgrees(k, cid, env0, es);
    BookSays(k, cid, env0, es);
  }

  lemma BookNext(k: CharKind, cid: U64, env0: Env, es: seq<Event>, e: Event)
    ensures BookOf(k, cid, env0, es + [e]) == Next(k, cid, BookOf(k, cid, env0, es), e)
  {
    SnocParts(es, e);
  }

  /** What a paused client with an empty buffer sends is held, and its heartbeats are answered ... */
  lemma BeatsAnswered(k: CharKind, cid: U64, env0: Env, es: seq<Event>, b: Book, env: Env, chunk: seq<byte>, d: Book)
    requires b == BookOf(k, cid, env0, es) && b.phase.Verifyed? && b.paused && b.held == []
    requires d == BookOf(k, cid, env0, es + [Recv(env, chunk)])
    ensures d.said == b.said + Echoes(env, k, Came(k, b, chunk))
    ensures d.held == Came(k, b, chunk) && d.phase.Verifyed?
  {
    BookNext(k, cid, env0, es, Recv(env, chunk));
    ReceiveGoesOn(env, k, b, chunk);
    AppendNil(Came(k, b, chunk));
  }

  /** ... and once more on resume. */
  lemma BeatsAnsweredTwice(k: CharKind, cid: U64, env0: Env, es: seq<Event>, b: Book, env: Env, chunk: seq<byte>, from: U16, c: Con)
    requires b == BookOf(k, cid, env0, es) && cid != 0 && b.phase.Verifyed? && b.paused && b.held == []
    requires c == Run(Start(k, cid, env0), es + [Recv(env, chunk)] + [CacheReq(env, from, false)]).con
    ensures var echoes := Echoes(env, k, Came(k, b, chunk));
            Heard(c.log) == b.said + echoes + echoes
  {
    var fs, f := es + [Recv(env, chunk)], CacheReq(env, from, false);
    BeatsAnswered(k, cid, env0, es, b, env, chunk, BookOf(k, cid, env0, fs));
    BookNext(k, cid, env0, fs, f);
    NextSays(k, cid, BookOf(k, cid, env0, fs), f);
    RunAgrees(k, cid, env0, fs + [f]);
  }
}
