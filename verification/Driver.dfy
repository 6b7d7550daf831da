/** The driver a business server links in (acc_driver/src/connect.{h,cpp}): its connections to
    the access servers and their manager, as values and one function per operation. The
    classes in DriverObjects.dfy are proved against these. */
module Driver {
  import opened Bytes
  import opened Proto

  datatype Addr = Addr(ip: string, port: U16)

  datatype Session = Session(cid: U64, accId: nat, ip: seq<byte>, port: U16, uin: U64, accName: seq<byte>)

  /** Calls into the user's facade, oldest first in a log. */
  datatype Call =
    | RegResult(svrId: U16)
    | VerifyAsked(accId: nat, cid: U64, cmd: U32, text: seq<byte>)
    | ClientConnect(s: Session)
    | ClientText(s: Session, cmd: U32, text: seq<byte>)
    | ActiveSvr(s: Session, grp: U16, svr: U16)
    | CacheRsp(s: Session, on: bool)
    | UinSet(s: Session)
    | ClientDiscon(s: Session)
    | AccDiscon(addr: Addr)

  /** One connection; sent holds the packs sent since it was last established. */
  datatype DCon = DCon(accId: nat, addr: Addr, connected: bool, isReg: bool,
                       sessions: map<U64, Session>, sent: seq<seq<byte>>)

  datatype Mgr = Mgr(cons: seq<DCon>, svrId: U16, isVerify: bool, fatal: bool, reg: bool,
                     seting: Option<AccSeting>, calls: seq<Call>)

  const EMPTY := Mgr([], 0, false, false, false, None, [])

  function NewCon(accId: nat, addr: Addr): DCon {
    DCon(accId, addr, false, false, map[], [])
  }

  // ---- fixed-size messages ------------------------------------------------------------

  const SIZE_RSP_REG: nat := 4
  const SIZE_DISCON: nat := 8
  const SIZE_CREATE: nat := 53
  const SIZE_ACTIVE: nat := 12
  const SIZE_CACHE: nat := 9
  const SIZE_UIN: nat := 16

  /** The bytes of a fixed-size message; the length must match exactly. */
  function Ctrl(a: AsMsg, size: nat): (r: Option<seq<byte>>)
    requires Readable(a.msg, a.len)
    ensures r.Some? ==> |r.value| == size
  {
    if a.len == size then Some(Span(a.msg, size)) else None
  }

  function U64At(s: seq<byte>, i: nat): U64
    requires i + 8 <= |s|
  {
    Widths();
    LeVal(s[i..i + 8])
  }

  function U32At(s: seq<byte>, i: nat): U32
    requires i + 4 <= |s|
  {
    Widths();
    LeVal(s[i..i + 4])
  }

  function U16At(s: seq<byte>, i: nat): U16
    requires i + 2 <= |s|
  {
    Widths();
    LeVal(s[i..i + 2])
  }

  /** A C string: everything in front of the first zero byte. */
  function CStr(s: seq<byte>): (r: seq<byte>)
    ensures |r| <= |s| && r == s[..|r|] && 0 !in r
    ensures |r| < |s| ==> s[|r|] == 0
  {
    if s == [] || s[0] == 0 then [] else [s[0]] + CStr(s[1..])
  }

  /** The text that can be read behind a message pointer. */
  function Visible(p: Ptr, n: nat): seq<byte> {
    if p.Null? then [] else if n <= |p.mem| then p.mem[..n] else p.mem
  }

  // ---- handlers of one connection -----------------------------------------------------

  datatype RegNews = NoNews | RegOk | RegBad

  /** What a message does: the connection after it, the callback made, news of the registration. */
  datatype Reaction = Reaction(con: DCon, call: Option<Call>, news: RegNews)

  function Nothing(c: DCon): Reaction {
    Reaction(c, None, NoNews)
  }

  function Tell(c: DCon, call: Call): Reaction {
    Reaction(c, Some(call), NoNews)
  }

  function HandleRspReg(c: DCon, svrId: U16, a: AsMsg): Reaction
    requires Readable(a.msg, a.len)
  {
    if c.isReg then Nothing(c)
    else match Ctrl(a, SIZE_RSP_REG)
      case None => Nothing(c)
      case Some(b) =>
        var id := U32At(b, 0);
        if id == 0 then Reaction(c, None, RegBad)
        else if id != svrId then Nothing(c)
        else Reaction(c.(isReg := true), None, RegOk)
  }

  /** The session a create message describes: cid, uin, name in 21 bytes, socket address. */
  function CreatedSession(accId: nat, b: seq<byte>): Session
    requires |b| == SIZE_CREATE
  {
    Session(U64At(b, 0), accId, b[41..45], (256 * b[39] as int + b[40] as int) as U16, U64At(b, 8), CStr(b[16..]))
  }

  function HandleCreateSession(c: DCon, a: AsMsg): Reaction
    requires Readable(a.msg, a.len)
  {
    match Ctrl(a, SIZE_CREATE)
    case None => Nothing(c)
    case Some(b) =>
      var s := CreatedSession(c.accId, b);
      if s.cid == 0 || s.cid in c.sessions then Nothing(c)
      else Tell(c.(sessions := c.sessions[s.cid := s]), ClientConnect(s))
  }

  function HandleMsgForward(c: DCon, a: AsMsg): Reaction {
    match ParseForward(a.msg, a.len)
    case Ok(f) =>
      if f.cid !in c.sessions then Nothing(c)
      else Tell(c, ClientText(c.sessions[f.cid], f.cmd, Visible(f.msg, f.len)))
    case _ => Nothing(c)
  }

  function HandleVerifyReq(c: DCon, a: AsMsg): Reaction {
    match ParseForward(a.msg, a.len)
    case Ok(f) => Tell(c, VerifyAsked(c.accId, f.cid, f.cmd, Visible(f.msg, f.len)))
    case _ => Nothing(c)
  }

  function HandleNtfDiscon(c: DCon, a: AsMsg): Reaction
    requires Readable(a.msg, a.len)
  {
    match Ctrl(a, SIZE_DISCON)
    case None => Nothing(c)
    case Some(b) =>
      var cid := U64At(b, 0);
      if cid == 0 || cid !in c.sessions then Nothing(c)
      else Tell(c.(sessions := c.sessions - {cid}), ClientDiscon(c.sessions[cid]))
  }

  function HandleRspSetActiveSvr(c: DCon, a: AsMsg): Reaction
    requires Readable(a.msg, a.len)
  {
    match Ctrl(a, SIZE_ACTIVE)
    case None => Nothing(c)
    case Some(b) =>
      var cid := U64At(b, 0);
      if cid == 0 || cid !in c.sessions then Nothing(c)
      else Tell(c, ActiveSvr(c.sessions[cid], U16At(b, 10), U16At(b, 8)))
  }

  function HandleRspCacheMsg(c: DCon, a: AsMsg): Reaction
    requires Readable(a.msg, a.len)
  {
    match Ctrl(a, SIZE_CACHE)
    case None => Nothing(c)
    case Some(b) =>
      var cid := U64At(b, 0);
      if cid == 0 || cid !in c.sessions then Nothing(c)
      else Tell(c, CacheRsp(c.sessions[cid], b[8] != 0))
  }

  function HandleBroadcastUin(c: DCon, a: AsMsg): Reaction
    requires Readable(a.msg, a.len)
  {
    match Ctrl(a, SIZE_UIN)
    case None => Nothing(c)
    case Some(b) =>
      var cid := U64At(b, 0);
      if cid == 0 || cid !in c.sessions then Nothing(c)
      else
        var s := c.sessions[cid].(uin := U64At(b, 8));
        Tell(c.(sessions := c.sessions[cid := s]), UinSet(s))
  }

  /** Received bytes are readable, and the buffer they sit in is larger than any header. */
  predicate Received(mem: seq<byte>, len: U16) {
    len <= |mem| && 16 <= |mem|
  }

  /** Which handler a message goes to; only the registration answer is heard before it. */
  function HandleMsg(c: DCon, svrId: U16, a: AsMsg): Reaction
    requires Readable(a.msg, a.len)
  {
    if a.cmd != CMD_RSP_REG && !c.isReg then Nothing(c)
    else if a.cmd == CMD_RSP_REG then HandleRspReg(c, svrId, a)
    else if a.cmd == CMD_NTF_CREATE_SESSION then HandleCreateSession(c, a)
    else if a.cmd == CMD_NTF_VERIFY_REQ then HandleVerifyReq(c, a)
    else if a.cmd == CMD_NTF_FORWARD then HandleMsgForward(c, a)
    else if a.cmd == CMD_NTF_DISCON then HandleNtfDiscon(c, a)
    else if a.cmd == CMD_RSP_SET_ACTIVE_SVR then HandleRspSetActiveSvr(c, a)
    else if a.cmd == CMD_RSP_CACHE_MSG then HandleRspCacheMsg(c, a)
    else if a.cmd == CMD_RSP_BROADCAST_UIN then HandleBroadcastUin(c, a)
    else Nothing(c)
  }

  function OnRecv(c: DCon, svrId: U16, mem: seq<byte>, len: U16): Reaction
    requires Received(mem, len)
  {
    match ParseAs(At(mem), len)
    case Ok(a) => HandleMsg(c, svrId, a)
    case _ => Nothing(c)
  }

  function RegPack(svrId: U16, isVerify: bool): seq<byte> {
    AsWire(CMD_REQ_REG, Le(svrId, 4) + [BoolByte(isVerify)])
  }

  function SetingPack(s: AccSeting): seq<byte> {
    AsWire(CMD_REQ_ACC_SETING, SetingWire(s))
  }

  function Greeting(svrId: U16, isVerify: bool, seting: Option<AccSeting>): seq<seq<byte>> {
    if svrId == 0 then []
    else [RegPack(svrId, isVerify)] + (if seting.Some? then [SetingPack(seting.value)] else [])
  }

  function Connected(m: Mgr, c: DCon): DCon {
    c.(connected := true, sent := Greeting(m.svrId, m.isVerify, m.seting))
  }

  function Disconnected(c: DCon): DCon {
    c.(connected := false, isReg := false, sessions := map[])
  }

  // ---- the manager --------------------------------------------------------------------

  function SetRegResult(m: Mgr, ok: bool): Mgr {
    if !ok then m.(calls := m.calls + [RegResult(0)])
    else if m.reg || m.svrId == 0 then m
    else m.(reg := true, calls := m.calls + [RegResult(m.svrId)])
  }

  function SetFatal(m: Mgr): Mgr {
    m.(fatal := true, cons := [])
  }

  function Reacted(m: Mgr, i: nat, r: Reaction): Mgr
    requires i < |m.cons|
  {
    var calls := if r.call.Some? then m.calls + [r.call.value] else m.calls;
    var n := m.(cons := m.cons[i := r.con], calls := calls);
    match r.news
    case NoNews => n
    case RegOk => SetRegResult(n, true)
    case RegBad => SetFatal(SetRegResult(n, false))
  }

  function LeadingTrue(oks: seq<bool>): (n: nat)
    ensures n <= |oks|
    ensures forall i :: 0 <= i < n ==> oks[i]
    ensures n < |oks| ==> !oks[n]
  {
    if oks == [] || !oks[0] then 0 else 1 + LeadingTrue(oks[1..])
  }

  lemma LeadingTrueIs(oks: seq<bool>, n: nat)
    requires n <= |oks| && forall i :: 0 <= i < n ==> oks[i]
    requires n < |oks| ==> !oks[n]
    ensures LeadingTrue(oks) == n
  {
  }

  predicate Distinct(addrs: seq<Addr>) {
    forall i, j :: 0 <= i < j < |addrs| ==> addrs[i] != addrs[j]
  }

  function NewCons(addrs: seq<Addr>): (cs: seq<DCon>)
    ensures |cs| == |addrs|
  {
    seq(|addrs|, i requires 0 <= i < |addrs| => NewCon(i, addrs[i]))
  }

  lemma NewConsNext(addrs: seq<Addr>, i: nat)
    requires i < |addrs|
    ensures NewCons(addrs[..i + 1]) == NewCons(addrs[..i]) + [NewCon(i, addrs[i])]
  {
  }

  predicate InitAllowed(m: Mgr, addrs: seq<Addr>) {
    !m.fatal && addrs != [] && m.cons == [] && Distinct(addrs)
  }

  /** oks: whether each connect attempt succeeds. Connections made before a failure stay. */
  function Init(m: Mgr, addrs: seq<Addr>, svrId: U16, isVerify: bool, oks: seq<bool>): (r: (Mgr, bool))
    requires |oks| == |addrs|
  {
    if !InitAllowed(m, addrs) then (m, false)
    else
      var n := LeadingTrue(oks);
      (m.(svrId := svrId, isVerify := isVerify, cons := NewCons(addrs[..n])), n == |addrs|)
  }

  predicate AddAllowed(m: Mgr, addr: Addr) {
    !m.fatal && m.svrId != 0 && forall i :: 0 <= i < |m.cons| ==> m.cons[i].addr != addr
  }

  function AddAcc(m: Mgr, addr: Addr, ok: bool): (r: (Mgr, bool)) {
    if !AddAllowed(m, addr) || !ok then (m, false)
    else (m.(cons := m.cons + [NewCon(|m.cons|, addr)]), true)
  }

  function Resent(s: AccSeting, c: DCon): DCon {
    if c.connected then c.(sent := c.sent + [SetingPack(s)]) else c
  }

  function SetAccSeting(m: Mgr, s: AccSeting): Mgr {
    m.(seting := Some(s), cons := seq(|m.cons|, i requires 0 <= i < |m.cons| => Resent(s, m.cons[i])))
  }

  function FindSession(m: Mgr, cid: U64, accId: nat): Option<Session> {
    if accId < |m.cons| && cid in m.cons[accId].sessions then Some(m.cons[accId].sessions[cid]) else None
  }

  // ---- runs ---------------------------------------------------------------------------

  datatype Event =
    | InitReq(addrs: seq<Addr>, svrId: U16, isVerify: bool, oks: seq<bool>)
    | AddReq(addr: Addr, ok: bool)
    | SetingReq(seting: AccSeting)
    | FatalReq
    | Up(i: nat)
    | Down(i: nat)
    | Recv(i: nat, mem: seq<byte>, len: U16)

  /** Events the library can raise: connect attempts have one result each, connections exist. */
  predicate Possible(m: Mgr, e: Event) {
    match e
    case InitReq(addrs, _, _, oks) => |oks| == |addrs|
    case Up(i) => i < |m.cons| && !m.cons[i].connected
    case Down(i) => i < |m.cons|
    case Recv(i, mem, len) => i < |m.cons| && m.cons[i].connected && Received(mem, len)
    case _ => true
  }

  function Step(m: Mgr, e: Event): Mgr {
    if !Possible(m, e) then m
    else match e
      case InitReq(addrs, svrId, isVerify, oks) => Init(m, addrs, svrId, isVerify, oks).0
      case AddReq(addr, ok) => AddAcc(m, addr, ok).0
      case SetingReq(s) => SetAccSeting(m, s)
      case FatalReq => SetFatal(m)
      case Up(i) => m.(cons := m.cons[i := Connected(m, m.cons[i])])
      case Down(i) =>
        m.(cons := m.cons[i := Disconnected(m.cons[i])], calls := m.calls + [AccDiscon(m.cons[i].addr)])
      case Recv(i, mem, len) => Reacted(m, i, OnRecv(m.cons[i], m.svrId, mem, len))
  }

  function Run(m: Mgr, es: seq<Event>): Mgr
    decreases |es|
  {
    if es == [] then m else Step(Run(m, es[..|es| - 1]), es[|es| - 1])
  }
}
