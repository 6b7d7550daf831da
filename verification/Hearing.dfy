/** What a driver makes of each pack an access server sends about a client, whatever its table
    holds for that client, and of any number of them, alone or among other events. */
module Hearing {
  import opened Bytes
  import opened Proto
  import opened Framing
  import opened ExternalCon
  import opened ClientTrace
  import opened EndToEnd
  import D = Driver
  import DriverRuns

  // ---- one client's entry in a session table ----------------------------------------------

  type Slot = Option<D.Session>

  function Get(t: DriverRuns.Table, cid: U64): Slot {
    if cid in t then Some(t[cid]) else None
  }

  function Put(t: DriverRuns.Table, cid: U64, o: Slot): DriverRuns.Table {
    match o
    case Some(s) => t[cid := s]
    case None => t - {cid}
  }

  lemma PutGet(t: DriverRuns.Table, cid: U64)
    ensures Put(t, cid, Get(t, cid)) == t
  {
  }

  lemma GetPut(t: DriverRuns.Table, cid: U64, o: Slot, other: U64)
    ensures Get(Put(t, cid, o), cid) == o
    ensures other != cid ==> Get(Put(t, cid, o), other) == Get(t, other)
  {
  }

  lemma PutPut(t: DriverRuns.Table, cid: U64, o: Slot, p: Slot)
    ensures Put(Put(t, cid, o), cid, p) == Put(t, cid, p)
  {
  }

  /** A reaction that leaves o as the client's entry and makes one callback at most. */
  function Hears(d: D.DCon, cid: U64, o: Slot, call: Option<D.Call>): D.Reaction {
    D.Reaction(d.(sessions := Put(d.sessions, cid, o)), call, D.NoNews)
  }

  lemma HearsNothing(d: D.DCon, cid: U64)
    ensures Hears(d, cid, Get(d.sessions, cid), None) == D.Nothing(d)
    ensures forall call :: Hears(d, cid, Get(d.sessions, cid), Some(call)) == D.Tell(d, call)
  {
    PutGet(d.sessions, cid);
  }

  // ---- the packs and what they mean ---------------------------------------------------------

  /** A pack, what the driver's table holds for the client after it, and what the user hears. */
  datatype Line = Line(pack: seq<byte>, after: Slot, call: Option<D.Call>)

  /** A forwarded packet: the user hears it if a session is open and it has at most 4081 bytes. */
  function ForwardLine(k: CharKind, cid: U64, p: seq<byte>, o: Slot): Line
    requires 4 <= |p| < 4096
  {
    var cmd := CharToU32(k, p[0]);
    Line(WrapPack(CMD_NTF_FORWARD, cid, cmd, p), o,
         if o.Some? && |p| <= 4081 then Some(D.ClientText(o.value, cmd, p)) else None)
  }

  /** A first packet, put to a verify server: no session is needed. */
  function AskLine(accId: nat, k: CharKind, cid: U64, p: seq<byte>, o: Slot): Line
    requires 4 <= |p| < 4096
  {
    var cmd := CharToU32(k, p[0]);
    Line(WrapPack(CMD_NTF_VERIFY_REQ, cid, cmd, p), o,
         if |p| <= 4081 then Some(D.VerifyAsked(accId, cid, cmd, p)) else None)
  }

  /** The session an announcement describes. */
  function NewSession(accId: nat, cid: U64, uin: U64, name: seq<byte>, addr: seq<byte>): D.Session
    requires |name| == 21 && |addr| == 16
  {
    D.Session(cid, accId, addr[4..8], BigEndian(addr[2], addr[3]) as U16, uin, D.CStr(name + addr))
  }

  /** An announcement: it opens a session unless one is open. */
  function OpenLine(accId: nat, cid: U64, uin: U64, name: seq<byte>, addr: seq<byte>, o: Slot): Line
    requires |name| == 21 && |addr| == 16
  {
    var s := NewSession(accId, cid, uin, name, addr);
    Line(CreateBytes(cid, uin, name, addr), if o.Some? then o else Some(s),
         if o.Some? then None else Some(D.ClientConnect(s)))
  }

  /** A farewell: it closes the session if one is open. */
  function CloseLine(cid: U64, o: Slot): Line {
    Line(DisconPack(cid), None, if o.Some? then Some(D.ClientDiscon(o.value)) else None)
  }

  /** A user id: it changes that field of an open session. */
  function UinLine(cid: U64, uin: U64, o: Slot): Line {
    var p := if o.Some? then Some(o.value.(uin := uin)) else None;
    Line(UinPack(cid, uin), p, if p.Some? then Some(D.UinSet(p.value)) else None)
  }

  function ActiveLine(cid: U64, svr: U16, grp: U16, o: Slot): Line {
    Line(ActivePack(cid, svr, grp), o, if o.Some? then Some(D.ActiveSvr(o.value, grp, svr)) else None)
  }

  function CacheLine(cid: U64, on: bool, o: Slot): Line {
    Line(CacheRspPack(cid, on), o, if o.Some? then Some(D.CacheRsp(o.value, on)) else None)
  }

  /** Whatever follows the pack in the receive buffer, the connection takes it as the line says. */
  predicate Takes(d: D.DCon, svrId: U16, cid: U64, line: Line, t: seq<byte>) {
    && |line.pack| < 0x1_0000 && D.Received(line.pack + t, |line.pack|)
    && D.OnRecv(d, svrId, line.pack + t, |line.pack|) == Hears(d, cid, line.after, line.call)
  }

  // ---- each of them heard ---------------------------------------------------------------------

  lemma ForwardHeard(k: CharKind, d: D.DCon, svrId: U16, cid: U64, p: seq<byte>, t: seq<byte>)
    requires d.isReg && 4 <= |p| < 4096 && CharToU32(k, p[0]) != 0
    ensures var line := ForwardLine(k, cid, p, Get(d.sessions, cid));
            Takes(d, svrId, cid, line, t)
  {
    HearsNothing(d, cid);
    if cid in d.sessions {
      ForwardReachesUser(d, svrId, cid, CharToU32(k, p[0]), p, t);
    } else {
      ForwardUnheard(d, svrId, cid, CharToU32(k, p[0]), p, t);
    }
  }

  lemma ForwardUnheard(d: D.DCon, svrId: U16, cid: U64, cmd: U32, p: seq<byte>, t: seq<byte>)
    requires d.isReg && cid !in d.sessions && cmd != 0 && 4 <= |p| < 4096
    ensures var pack := WrapPack(CMD_NTF_FORWARD, cid, cmd, p);
            && D.Received(pack + t, |pack|) && D.OnRecv(d, svrId, pack + t, |pack|) == D.Nothing(d)
  {
    var f := Forward(cid, cmd, |p|, At(p));
    AsRoundTrip(CMD_NTF_FORWARD, ForwardWire(f), t);
    if |p| <= 4081 {
      ForwardRoundTrip(f, t);
    }
  }

  lemma AskHeard(k: CharKind, d: D.DCon, svrId: U16, cid: U64, p: seq<byte>, t: seq<byte>)
    requires d.isReg && 4 <= |p| < 4096 && CharToU32(k, p[0]) != 0
    ensures var line := AskLine(d.accId, k, cid, p, Get(d.sessions, cid));
            Takes(d, svrId, cid, line, t)
  {
    HearsNothing(d, cid);
    AskReachesUser(d, svrId, cid, CharToU32(k, p[0]), p, t);
  }

  lemma CidFirst(cid: U64, rest: seq<byte>)
    ensures D.U64At(Le(cid, 8) + rest, 0) == cid
  {
    Widths();
    LeValOfLe(cid, 8);
    assert (Le(cid, 8) + rest)[0..8] == Le(cid, 8);
  }

  lemma U64Second(cid: U64, x: U64)
    ensures D.U64At(Le(cid, 8) + Le(x, 8), 8) == x
  {
    Widths();
    LeValOfLe(x, 8);
    SecondHalf(Le(cid, 8), Le(x, 8));
  }

  lemma SecondHalf(a: seq<byte>, b: seq<byte>)
    requires |a| == 8 && |b| == 8
    ensures (a + b)[8..16] == b
  {
  }

  lemma SvrSecond(cid: U64, svr: U16, grp: U16)
    ensures D.U16At(Le(cid, 8) + (Le(svr, 2) + Le(grp, 2)), 8) == svr
  {
    Widths();
    LeValOfLe(svr, 2);
    assert (Le(cid, 8) + (Le(svr, 2) + Le(grp, 2)))[8..10] == Le(svr, 2);
  }

  lemma GrpThird(cid: U64, svr: U16, grp: U16)
    ensures D.U16At(Le(cid, 8) + (Le(svr, 2) + Le(grp, 2)), 10) == grp
  {
    Widths();
    LeValOfLe(grp, 2);
    assert (Le(cid, 8) + (Le(svr, 2) + Le(grp, 2)))[10..12] == Le(grp, 2);
  }

  /** The registration lets a control message through to its handler. */
  lemma CtrlHandled(d: D.DCon, svrId: U16, cmd: U16, body: seq<byte>, t: seq<byte>) returns (a: AsMsg)
    requires d.isReg && |body| < 4096 && |t| >= 16
    ensures a.cmd == cmd && Readable(a.msg, a.len)
    ensures forall size: nat :: D.Ctrl(a, size) == if size == |body| then Some(body) else None
    ensures D.Received(AsWire(cmd, body) + t, 2 + |body|)
    ensures D.OnRecv(d, svrId, AsWire(cmd, body) + t, 2 + |body|) == D.HandleMsg(d, svrId, a)
  {
    a := CtrlArrives(cmd, body, t);
  }

  lemma CloseHeard(d: D.DCon, svrId: U16, cid: U64, t: seq<byte>)
    requires d.isReg && cid != 0 && |t| >= 16
    ensures var line := CloseLine(cid, Get(d.sessions, cid));
            Takes(d, svrId, cid, line, t)
  {
    HearsNothing(d, cid);
    AppendNil(Le(cid, 8));
    CidFirst(cid, []);
    var a := CtrlHandled(d, svrId, CMD_NTF_DISCON, Le(cid, 8), t);
    assert D.HandleMsg(d, svrId, a) == D.HandleNtfDiscon(d, a);
  }

  lemma UinHeard(d: D.DCon, svrId: U16, cid: U64, uin: U64, t: seq<byte>)
    requires d.isReg && cid != 0 && |t| >= 16
    ensures var line := UinLine(cid, uin, Get(d.sessions, cid));
            Takes(d, svrId, cid, line, t)
  {
    HearsNothing(d, cid);
    CidFirst(cid, Le(uin, 8));
    U64Second(cid, uin);
    var a := CtrlHandled(d, svrId, CMD_RSP_BROADCAST_UIN, Le(cid, 8) + Le(uin, 8), t);
    assert D.HandleMsg(d, svrId, a) == D.HandleBroadcastUin(d, a);
  }

  /** The answer names the server first and the group second, in that order. */
  lemma ActiveHeard(d: D.DCon, svrId: U16, cid: U64, svr: U16, grp: U16, t: seq<byte>)
    requires d.isReg && cid != 0 && |t| >= 16
    ensures var line := ActiveLine(cid, svr, grp, Get(d.sessions, cid));
            Takes(d, svrId, cid, line, t)
  {
    var body := Le(cid, 8) + (Le(svr, 2) + Le(grp, 2));
    HearsNothing(d, cid);
    CidFirst(cid, Le(svr, 2) + Le(grp, 2));
    SvrSecond(cid, svr, grp);
    GrpThird(cid, svr, grp);
    var a := CtrlHandled(d, svrId, CMD_RSP_SET_ACTIVE_SVR, body, t);
    assert D.HandleMsg(d, svrId, a) == D.HandleRspSetActiveSvr(d, a);
  }

  lemma CacheHeard(d: D.DCon, svrId: U16, cid: U64, on: bool, t: seq<byte>)
    requires d.isReg && cid != 0 && |t| >= 16
    ensures var line := CacheLine(cid, on, Get(d.sessions, cid));
            Takes(d, svrId, cid, line, t)
  {
    HearsNothing(d, cid);
    CidFirst(cid, [BoolByte(on)]);
    var a := CtrlHandled(d, svrId, CMD_RSP_CACHE_MSG, Le(cid, 8) + [BoolByte(on)], t);
    assert D.HandleMsg(d, svrId, a) == D.HandleRspCacheMsg(d, a);
  }

  /** Where the parts of an announcement lie. */
  lemma FourParts(c0: seq<byte>, c1: seq<byte>, name: seq<byte>, addr: seq<byte>)
    requires |c0| == 8 && |c1| == 8 && |name| == 21 && |addr| == 16
    ensures var b := c0 + (c1 + (name + addr));
            && |b| == 53 && b[0..8] == c0 && b[8..16] == c1 && b[16..] == name + addr
            && b[41..45] == addr[4..8] && b[39] == addr[2] && b[40] == addr[3]
  {
  }

  /** The session read from an announcement is the one it describes. */
  lemma CreateReads(accId: nat, cid: U64, uin: U64, name: seq<byte>, addr: seq<byte>)
    requires |name| == 21 && |addr| == 16
    ensures D.CreatedSession(accId, Le(cid, 8) + (Le(uin, 8) + (name + addr))) == NewSession(accId, cid, uin, name, addr)
  {
    Widths();
    FourParts(Le(cid, 8), Le(uin, 8), name, addr);
    LeValOfLe(cid, 8);
    LeValOfLe(uin, 8);
  }

  lemma OpenHeard(d: D.DCon, svrId: U16, cid: U64, uin: U64, name: seq<byte>, addr: seq<byte>, t: seq<byte>)
    requires d.isReg && cid != 0 && |name| == 21 && |addr| == 16 && |t| >= 16
    ensures var line := OpenLine(d.accId, cid, uin, name, addr, Get(d.sessions, cid));
            Takes(d, svrId, cid, line, t)
  {
    HearsNothing(d, cid);
    CreateReads(d.accId, cid, uin, name, addr);
    var a := CtrlHandled(d, svrId, CMD_NTF_CREATE_SESSION, Le(cid, 8) + (Le(uin, 8) + (name + addr)), t);
    assert D.HandleMsg(d, svrId, a) == D.HandleCreateSession(d, a);
  }

  lemma {:induction false} CStrOf(name: seq<byte>, rest: seq<byte>)
    requires rest != [] && rest[0] == 0
    ensures D.CStr(name + rest) == D.CStr(name)
  {
    if name == [] {
      AppendNil(rest);
    } else {
      ConsAppend(name, rest);
      CStrOf(name[1..], rest);
    }
  }

  /** The name announced is the name the session has, up to its first zero byte. */
  lemma AnnouncedName(accId: nat, cid: U64, uin: U64, name: seq<byte>, addr: seq<byte>)
    requires |name| <= MAX_NAME_LEN && |addr| == 16
    ensures NewSession(accId, cid, uin, name + Zeros(21 - |name|), addr).accName == D.CStr(name)
  {
    Assoc(name, Zeros(21 - |name|), addr);
    CStrOf(name, Zeros(21 - |name|) + addr);
  }

  // ---- scripts ----------------------------------------------------------------------------

  /** Callbacks about one client of one access server. */
  predicate Concerns(call: D.Call, accId: nat, cid: U64) {
    match call
    case VerifyAsked(a, c, _, _) => a == accId && c == cid
    case _ => DriverRuns.About(call).Some? && DriverRuns.About(call).value.accId == accId
              && DriverRuns.About(call).value.cid == cid
  }

  predicate Own(o: Slot, accId: nat, cid: U64) {
    o.Some? ==> o.value.accId == accId && o.value.cid == cid
  }

  /** Every registered connection whose table holds o for the client takes the line as it says. */
  ghost predicate Means(accId: nat, cid: U64, o: Slot, line: Line) {
    && |line.pack| < 0x1_0000 && Own(line.after, accId, cid)
    && (line.call.Some? ==> Concerns(line.call.value, accId, cid))
    && forall d: D.DCon, svrId: U16, t: seq<byte> ::
         d.isReg && d.accId == accId && Get(d.sessions, cid) == o && |t| >= 16 ==> Takes(d, svrId, cid, line, t)
  }

  lemma ForwardMeans(accId: nat, k: CharKind, cid: U64, p: seq<byte>, o: Slot)
    requires 4 <= |p| < 4096 && CharToU32(k, p[0]) != 0 && Own(o, accId, cid)
    ensures Means(accId, cid, o, ForwardLine(k, cid, p, o))
  {
    var line := ForwardLine(k, cid, p, o);
    forall d: D.DCon, svrId: U16, t: seq<byte> | d.isReg && d.accId == accId && Get(d.sessions, cid) == o && |t| >= 16
      ensures Takes(d, svrId, cid, line, t)
    {
      ForwardHeard(k, d, svrId, cid, p, t);
    }
  }

  lemma AskMeans(accId: nat, k: CharKind, cid: U64, p: seq<byte>, o: Slot)
    requires 4 <= |p| < 4096 && CharToU32(k, p[0]) != 0 && Own(o, accId, cid)
    ensures Means(accId, cid, o, AskLine(accId, k, cid, p, o))
  {
    var line := AskLine(accId, k, cid, p, o);
    forall d: D.DCon, svrId: U16, t: seq<byte> | d.isReg && d.accId == accId && Get(d.sessions, cid) == o && |t| >= 16
      ensures Takes(d, svrId, cid, line, t)
    {
      AskHeard(k, d, svrId, cid, p, t);
    }
  }

  lemma OpenMeans(accId: nat, cid: U64, uin: U64, name: seq<byte>, addr: seq<byte>, o: Slot)
    requires cid != 0 && |name| == 21 && |addr| == 16 && Own(o, accId, cid)
    ensures Means(accId, cid, o, OpenLine(accId, cid, uin, name, addr, o))
  {
    var line := OpenLine(accId, cid, uin, name, addr, o);
    forall d: D.DCon, svrId: U16, t: seq<byte> | d.isReg && d.accId == accId && Get(d.sessions, cid) == o && |t| >= 16
      ensures Takes(d, svrId, cid, line, t)
    {
      OpenHeard(d, svrId, cid, uin, name, addr, t);
    }
  }

  lemma CloseMeans(accId: nat, cid: U64, o: Slot)
    requires cid != 0 && Own(o, accId, cid)
    ensures Means(accId, cid, o, CloseLine(cid, o))
  {
    var line := CloseLine(cid, o);
    forall d: D.DCon, svrId: U16, t: seq<byte> | d.isReg && d.accId == accId && Get(d.sessions, cid) == o && |t| >= 16
      ensures Takes(d, svrId, cid, line, t)
    {
      CloseHeard(d, svrId, cid, t);
    }
  }

  lemma UinMeans(accId: nat, cid: U64, uin: U64, o: Slot)
    requires cid != 0 && Own(o, accId, cid)
    ensures Means(accId, cid, o, UinLine(cid, uin, o))
  {
    var line := UinLine(cid, uin, o);
    forall d: D.DCon, svrId: U16, t: seq<byte> | d.isReg && d.accId == accId && Get(d.sessions, cid) == o && |t| >= 16
      ensures Takes(d, svrId, cid, line, t)
    {
      UinHeard(d, svrId, cid, uin, t);
    }
  }

  lemma ActiveMeans(accId: nat, cid: U64, svr: U16, grp: U16, o: Slot)
    requires cid != 0 && Own(o, accId, cid)
    ensures Means(accId, cid, o, ActiveLine(cid, svr, grp, o))
  {
    var line := ActiveLine(cid, svr, grp, o);
    forall d: D.DCon, svrId: U16, t: seq<byte> | d.isReg && d.accId == accId && Get(d.sessions, cid) == o && |t| >= 16
      ensures Takes(d, svrId, cid, line, t)
    {
      ActiveHeard(d, svrId, cid, svr, grp, t);
    }
  }

  lemma CacheMeans(accId: nat, cid: U64, on: bool, o: Slot)
    requires cid != 0 && Own(o, accId, cid)
    ensures Means(accId, cid, o, CacheLine(cid, on, o))
  {
    var line := CacheLine(cid, on, o);
    forall d: D.DCon, svrId: U16, t: seq<byte> | d.isReg && d.accId == accId && Get(d.sessions, cid) == o && |t| >= 16
      ensures Takes(d, svrId, cid, line, t)
    {
      CacheHeard(d, svrId, cid, on, t);
    }
  }

  type Script = seq<Line>

  /** What the table holds for the client after a script. */
  function EndOf(o: Slot, script: Script): Slot {
    if script == [] then o else script[|script| - 1].after
  }

  function LinePacks(script: Script): seq<seq<byte>>
    decreases |script|
  {
    if script == [] then [] else LinePacks(script[..|script| - 1]) + [script[|script| - 1].pack]
  }

  /** What the user hears of a script. */
  function LineCalls(script: Script): seq<D.Call>
    decreases |script|
  {
    if script == [] then []
    else LineCalls(script[..|script| - 1]) + CallOf(script[|script| - 1])
  }

  function CallOf(line: Line): seq<D.Call> {
    if line.call.Some? then [line.call.value] else []
  }

  ghost predicate Valid(accId: nat, cid: U64, o: Slot, script: Script)
    decreases |script|
  {
    script != [] ==>
      && Valid(accId, cid, o, script[..|script| - 1])
      && Means(accId, cid, EndOf(o, script[..|script| - 1]), script[|script| - 1])
  }

  lemma ValidOne(accId: nat, cid: U64, o: Slot, line: Line)
    requires Means(accId, cid, o, line)
    ensures Valid(accId, cid, o, [line]) && EndOf(o, [line]) == line.after
    ensures LinePacks([line]) == [line.pack] && LineCalls([line]) == CallOf(line)
  {
    var none: Script := [];
    assert [line][..0] == none;
    AppendNil(CallOf(line));
  }

  lemma AppendSnoc<T>(a: seq<T>, b: seq<T>)
    requires b != []
    ensures (a + b)[..|a + b| - 1] == a + b[..|b| - 1] && (a + b)[|a + b| - 1] == b[|b| - 1]
  {
  }

  lemma EndAppend(o: Slot, a: Script, b: Script)
    ensures EndOf(o, a + b) == EndOf(EndOf(o, a), b)
  {
    if b == [] {
      AppendNil(a);
    }
  }

  lemma {:induction false} ValidAppend(accId: nat, cid: U64, o: Slot, a: Script, b: Script)
    requires Valid(accId, cid, o, a) && Valid(accId, cid, EndOf(o, a), b)
    ensures Valid(accId, cid, o, a + b)
    decreases |b|
  {
    if b == [] {
      AppendNil(a);
    } else {
      var n := |b| - 1;
      ValidAppend(accId, cid, o, a, b[..n]);
      EndAppend(o, a, b[..n]);
      AppendSnoc(a, b);
    }
  }

  lemma {:induction false} PacksAppend(a: Script, b: Script)
    ensures LinePacks(a + b) == LinePacks(a) + LinePacks(b)
    decreases |b|
  {
    if b == [] {
      AppendNil(a);
      AppendNil(LinePacks(a));
    } else {
      var n := |b| - 1;
      PacksAppend(a, b[..n]);
      AppendSnoc(a, b);
      Assoc(LinePacks(a), LinePacks(b[..n]), [b[n].pack]);
    }
  }

  lemma {:induction false} CallsAppend(a: Script, b: Script)
    ensures LineCalls(a + b) == LineCalls(a) + LineCalls(b)
    decreases |b|
  {
    if b == [] {
      AppendNil(a);
      AppendNil(LineCalls(a));
    } else {
      var n := |b| - 1;
      CallsAppend(a, b[..n]);
      AppendSnoc(a, b);
      Assoc(LineCalls(a), LineCalls(b[..n]), CallOf(b[n]));
    }
  }

  // ---- packs arriving back to back ------------------------------------------------------------

  /** A registered connection of the driver. */
  predicate Open(m: D.Mgr, i: nat) {
    i < |m.cons| && m.cons[i].connected && m.cons[i].isReg
  }

  /** The manager with another entry for the client and more callbacks, else unchanged. */
  function Told(m: D.Mgr, i: nat, cid: U64, o: Slot, calls: seq<D.Call>): D.Mgr
    requires i < |m.cons|
  {
    var d := m.cons[i];
    m.(cons := m.cons[i := d.(sessions := Put(d.sessions, cid, o))], calls := m.calls + calls)
  }

  lemma ToldNothing(m: D.Mgr, i: nat, cid: U64)
    requires i < |m.cons|
    ensures Told(m, i, cid, Get(m.cons[i].sessions, cid), []) == m
  {
    PutGet(m.cons[i].sessions, cid);
    AppendNil(m.calls);
    assert m.cons[i := m.cons[i]] == m.cons;
  }

  lemma ToldMore(m: D.Mgr, i: nat, cid: U64, o: Slot, a: seq<D.Call>, p: Slot, b: seq<D.Call>)
    requires i < |m.cons|
    ensures Told(Told(m, i, cid, o, a), i, cid, p, b) == Told(m, i, cid, p, a + b)
  {
    PutPut(m.cons[i].sessions, cid, o, p);
    Assoc(m.calls, a, b);
    var d := m.cons[i];
    var d1 := d.(sessions := Put(d.sessions, cid, o));
    var d2 := d.(sessions := Put(d.sessions, cid, p));
    assert m.cons[i := d1][i := d2] == m.cons[i := d2];
  }

  lemma LineArrives(m: D.Mgr, i: nat, cid: U64, line: Line, t: seq<byte>)
    requires Open(m, i) && |t| >= 16 && Means(m.cons[i].accId, cid, Get(m.cons[i].sessions, cid), line)
    ensures D.Received(line.pack + t, |line.pack|)
    ensures D.Step(m, D.Recv(i, line.pack + t, |line.pack|)) == Told(m, i, cid, line.after, CallOf(line))
  {
    AppendNil(m.calls);
    assert Takes(m.cons[i], m.svrId, cid, line, t);
  }

  lemma SizedSnoc(packs: seq<seq<byte>>, pack: seq<byte>)
    requires Sized(packs) && |pack| < 0x1_0000
    ensures Sized(packs + [pack])
  {
  }

  /** All packs of a script, arriving one after the other. */
  lemma {:induction false} ScriptArrives(m: D.Mgr, i: nat, cid: U64, o: Slot, script: Script, t: seq<byte>)
    requires Open(m, i) && |t| >= 16 && o == Get(m.cons[i].sessions, cid)
    requires Valid(m.cons[i].accId, cid, o, script)
    ensures Sized(LinePacks(script))
    ensures D.Run(m, Arrivals(i, LinePacks(script), t)) == Told(m, i, cid, EndOf(o, script), LineCalls(script))
    decreases |script|
  {
    if script == [] {
      ToldNothing(m, i, cid);
    } else {
      var before, line := script[..|script| - 1], script[|script| - 1];
      var n := Told(m, i, cid, EndOf(o, before), LineCalls(before));
      ScriptArrives(m, i, cid, o, before, t);
      SizedSnoc(LinePacks(before), line.pack);
      SnocParts(LinePacks(before), line.pack);
      ArrivalsSnoc(i, LinePacks(script), t, m);
      GetPut(m.cons[i].sessions, cid, EndOf(o, before), cid);
      LineArrives(n, i, cid, line, t);
      ToldMore(m, i, cid, EndOf(o, before), LineCalls(before), line.after, CallOf(line));
    }
  }

  // ---- packs arriving among other events --------------------------------------------------------

  /** The callbacks about one client of one access server. */
  function Concerning(calls: seq<D.Call>, accId: nat, cid: U64): seq<D.Call>
    decreases |calls|
  {
    if calls == [] then []
    else
      var last := calls[|calls| - 1];
      Concerning(calls[..|calls| - 1], accId, cid) + (if Concerns(last, accId, cid) then [last] else [])
  }

  lemma ConcerningSnoc(calls: seq<D.Call>, call: D.Call, accId: nat, cid: U64)
    ensures Concerning(calls + [call], accId, cid) ==
            Concerning(calls, accId, cid) + (if Concerns(call, accId, cid) then [call] else [])
  {
    SnocParts(calls, call);
  }

  /** An event that leaves connection i registered and says nothing about the client. */
  predicate Foreign(m: D.Mgr, e: D.Event, i: nat, cid: U64) {
    var n := D.Step(m, e);
    Open(m, i) ==>
      && Open(n, i) && n.cons[i].accId == m.cons[i].accId
      && Get(n.cons[i].sessions, cid) == Get(m.cons[i].sessions, cid)
      && Concerning(n.calls, m.cons[i].accId, cid) == Concerning(m.calls, m.cons[i].accId, cid)
  }

  /** The event is the arrival of a pack on connection i. */
  predicate Carries(e: D.Event, i: nat, pack: seq<byte>) {
    e.Recv? && e.i == i && e.len as int == |pack|
    && |pack| + 16 <= |e.mem| && e.mem[..|pack|] == pack
  }

  /** The packs arrive on connection i in order, other events in between being foreign. */
  predicate Woven(m: D.Mgr, es: seq<D.Event>, i: nat, cid: U64, packs: seq<seq<byte>>)
    decreases |es|
  {
    if es == [] then packs == []
    else
      var before, e := es[..|es| - 1], es[|es| - 1];
      || (packs != [] && Carries(e, i, packs[|packs| - 1]) && Woven(m, before, i, cid, packs[..|packs| - 1]))
      || (Foreign(D.Run(m, before), e, i, cid) && Woven(m, before, i, cid, packs))
  }

  /** What is known of the driver after part of a script. */
  predicate SoFar(m: D.Mgr, n: D.Mgr, i: nat, cid: U64, o: Slot, calls: seq<D.Call>)
    requires i < |m.cons|
  {
    && Open(n, i) && n.cons[i].accId == m.cons[i].accId && Get(n.cons[i].sessions, cid) == o
    && Concerning(n.calls, m.cons[i].accId, cid) == Concerning(m.calls, m.cons[i].accId, cid) + calls
  }

  lemma CarriedArrives(m: D.Mgr, n: D.Mgr, e: D.Event, i: nat, cid: U64, o: Slot, calls: seq<D.Call>, line: Line)
    requires i < |m.cons| && SoFar(m, n, i, cid, o, calls) && Means(m.cons[i].accId, cid, o, line)
    requires Carries(e, i, line.pack)
    ensures SoFar(m, D.Step(n, e), i, cid, line.after, calls + CallOf(line))
  {
    var t := e.mem[|line.pack|..];
    Cut(e.mem, |line.pack|);
    LineArrives(n, i, cid, line, t);
    GetPut(n.cons[i].sessions, cid, line.after, cid);
    AppendNil(n.calls);
    AppendNil(calls);
    if line.call.Some? {
      ConcerningSnoc(n.calls, line.call.value, m.cons[i].accId, cid);
      Assoc(Concerning(m.calls, m.cons[i].accId, cid), calls, CallOf(line));
    }
  }

  lemma LastPack(script: Script, packs: seq<seq<byte>>)
    requires packs == LinePacks(script) && packs != []
    ensures script != [] && packs[|packs| - 1] == script[|script| - 1].pack
    ensures packs[..|packs| - 1] == LinePacks(script[..|script| - 1])
  {
    SnocParts(LinePacks(script[..|script| - 1]), script[|script| - 1].pack);
  }

  /** All packs of a script among other events of the driver: other clients' packs, other
      connections, settings. The user hears of this client exactly what the script says. */
  lemma {:induction false} ScriptWoven(m: D.Mgr, es: seq<D.Event>, i: nat, cid: U64, o: Slot, script: Script)
    requires Open(m, i) && o == Get(m.cons[i].sessions, cid) && Valid(m.cons[i].accId, cid, o, script)
    requires Woven(m, es, i, cid, LinePacks(script))
    ensures SoFar(m, D.Run(m, es), i, cid, EndOf(o, script), LineCalls(script))
    decreases |es|
  {
    var packs := LinePacks(script);
    if es == [] {
      AppendNil(Concerning(m.calls, m.cons[i].accId, cid));
    } else {
      var before, e := es[..|es| - 1], es[|es| - 1];
      var n := D.Run(m, before);
      if packs != [] && Carries(e, i, packs[|packs| - 1]) && Woven(m, before, i, cid, packs[..|packs| - 1]) {
        LastPack(script, packs);
        var some := script[..|script| - 1];
        ScriptWoven(m, before, i, cid, o, some);
        CarriedArrives(m, n, e, i, cid, EndOf(o, some), LineCalls(some), script[|script| - 1]);
      } else {
        ScriptWoven(m, before, i, cid, o, script);
      }
    }
  }

  // ---- events that are foreign --------------------------------------------------------------

  /** Another client's pack on the same connection is foreign. */
  lemma NeighbourForeign(m: D.Mgr, i: nat, cid: U64, other: U64, line: Line, t: seq<byte>)
    requires Open(m, i) && other != cid && |t| >= 16
    requires Means(m.cons[i].accId, other, Get(m.cons[i].sessions, other), line)
    ensures Foreign(m, D.Recv(i, line.pack + t, |line.pack|), i, cid)
  {
    LineArrives(m, i, other, line, t);
    GetPut(m.cons[i].sessions, other, line.after, cid);
    AppendNil(m.calls);
    if line.call.Some? {
      ConcerningSnoc(m.calls, line.call.value, m.cons[i].accId, cid);
      AppendNil(Concerning(m.calls, m.cons[i].accId, cid));
    }
  }

  /** What happens on other connections is foreign, unless it is fatal; so are settings, and
      connections being added. */
  predicate Elsewhere(m: D.Mgr, e: D.Event, i: nat) {
    match e
    case SetingReq(_) => true
    case AddReq(_, _) => true
    case Up(j) => j != i
    case Down(j) => j != i
    case Recv(j, mem, len) =>
      j != i && (j < |m.cons| && D.Received(mem, len) ==> !D.OnRecv(m.cons[j], m.svrId, mem, len).news.RegBad?)
    case _ => false
  }

  lemma SaidElsewhere(calls: seq<D.Call>, call: D.Call, accId: nat, cid: U64)
    requires !Concerns(call, accId, cid)
    ensures Concerning(calls + [call], accId, cid) == Concerning(calls, accId, cid)
  {
    ConcerningSnoc(calls, call, accId, cid);
    AppendNil(Concerning(calls, accId, cid));
  }

  lemma ReactedElsewhere(m: D.Mgr, j: nat, r: D.Reaction, i: nat, cid: U64)
    requires Open(m, i) && j < |m.cons| && j != i && !r.news.RegBad? && (r.news.RegOk? ==> r.call.None?)
    requires r.call.Some? ==> !Concerns(r.call.value, m.cons[i].accId, cid)
    ensures var n := D.Reacted(m, j, r);
            && n.cons == m.cons[j := r.con]
            && Concerning(n.calls, m.cons[i].accId, cid) == Concerning(m.calls, m.cons[i].accId, cid)
  {
    if r.call.Some? {
      SaidElsewhere(m.calls, r.call.value, m.cons[i].accId, cid);
    }
    SaidElsewhere(m.calls, D.RegResult(m.svrId), m.cons[i].accId, cid);
  }

  lemma RecvForeign(m: D.Mgr, j: nat, mem: seq<byte>, len: U16, i: nat, cid: U64)
    requires DriverRuns.Inv(m) && Open(m, i) && j < |m.cons| && j != i && m.cons[j].connected && D.Received(mem, len)
    requires !D.OnRecv(m.cons[j], m.svrId, mem, len).news.RegBad?
    ensures Foreign(m, D.Recv(j, mem, len), i, cid)
  {
    var r := D.OnRecv(m.cons[j], m.svrId, mem, len);
    assert DriverRuns.ConOk(m, m.cons[i], i) && DriverRuns.ConOk(m, m.cons[j], j);
    DriverRuns.OnRecvLawful(m.cons[j], m.svrId, mem, len);
    if r.call.Some? {
      LocalElsewhere(r.call.value, j, i, cid);
    }
    ReactedElsewhere(m, j, r, i, cid);
    assert D.Step(m, D.Recv(j, mem, len)) == D.Reacted(m, j, r);
  }

  lemma LocalElsewhere(call: D.Call, j: nat, accId: nat, cid: U64)
    requires DriverRuns.Local(call, j) && j != accId
    ensures !Concerns(call, accId, cid)
  {
    match call {
      case VerifyAsked(_, _, _, _) =>
      case _ =>
    }
  }

  lemma ElsewhereForeign(m: D.Mgr, e: D.Event, i: nat, cid: U64)
    requires DriverRuns.Inv(m) && Elsewhere(m, e, i)
    ensures Foreign(m, e, i, cid)
  {
    if Open(m, i) && D.Possible(m, e) {
      match e {
        case Recv(j, mem, len) => RecvForeign(m, j, mem, len, i, cid);
        case Down(j) => SaidElsewhere(m.calls, D.AccDiscon(m.cons[j].addr), m.cons[i].accId, cid);
        case _ =>
      }
    }
  }
}
