/** Whole-run properties of the driver: session tables and the callbacks about them, the
    registration result, the indices used as ids, and the settings sent to every server. */
module DriverRuns {
  import opened Bytes
  import opened Proto
  import opened Driver

  // ---- what the callbacks tell --------------------------------------------------------

  type Table = map<U64, Session>

  predicate Holds(t: Table, s: Session) {
    s.cid in t && t[s.cid] == s
  }

  /** The session table of one connection as its user can follow it from the callbacks alone;
      None once a callback is about a session that is not open, or opens one that is. */
  function Follow(o: Option<Table>, accId: nat, addr: Addr, call: Call): Option<Table> {
    match o
    case None => None
    case Some(t) =>
      match call
      case RegResult(_) => o
      case VerifyAsked(_, _, _, _) => o
      case AccDiscon(a) => if a == addr then Some(map[]) else o
      case ClientConnect(s) =>
        if s.accId != accId then o else if s.cid == 0 || s.cid in t then None else Some(t[s.cid := s])
      case ClientText(s, _, _) => if s.accId != accId || Holds(t, s) then o else None
      case ActiveSvr(s, _, _) => if s.accId != accId || Holds(t, s) then o else None
      case CacheRsp(s, _) => if s.accId != accId || Holds(t, s) then o else None
      case UinSet(s) =>
        if s.accId != accId then o
        else if s.cid in t && s == t[s.cid].(uin := s.uin) then Some(t[s.cid := s]) else None
      case ClientDiscon(s) =>
        if s.accId != accId then o else if Holds(t, s) then Some(t - {s.cid}) else None
  }

  function Replay(calls: seq<Call>, accId: nat, addr: Addr): Option<Table>
    decreases |calls|
  {
    if calls == [] then Some(map[])
    else Follow(Replay(calls[..|calls| - 1], accId, addr), accId, addr, calls[|calls| - 1])
  }

  lemma ReplaySnoc(calls: seq<Call>, call: Call, accId: nat, addr: Addr)
    ensures Replay(calls + [call], accId, addr) == Follow(Replay(calls, accId, addr), accId, addr, call)
  {
    SnocParts(calls, call);
  }

  /** The registration results reported. */
  function Results(calls: seq<Call>): seq<U16>
    decreases |calls|
  {
    if calls == [] then []
    else
      var last := calls[|calls| - 1];
      Results(calls[..|calls| - 1]) + (if last.RegResult? then [last.svrId] else [])
  }

  lemma ResultsSnoc(calls: seq<Call>, call: Call)
    ensures Results(calls + [call]) == Results(calls) + (if call.RegResult? then [call.svrId] else [])
  {
    SnocParts(calls, call);
  }

  /** The settings sent last on a connection. */
  function LastSeting(sent: seq<seq<byte>>): Option<seq<byte>>
    decreases |sent|
  {
    if sent == [] then None
    else
      var p := sent[|sent| - 1];
      if |p| >= 2 && p[..2] == Le(CMD_REQ_ACC_SETING, 2) then Some(p[2..])
      else LastSeting(sent[..|sent| - 1])
  }

  lemma LastSetingSnoc(sent: seq<seq<byte>>, s: AccSeting)
    ensures LastSeting(sent + [SetingPack(s)]) == Some(SetingWire(s))
  {
    SnocParts(sent, SetingPack(s));
    var h, b := Le(CMD_REQ_ACC_SETING, 2), SetingWire(s);
    assert (h + b)[..2] == h && (h + b)[2..] == b;
  }

  // ---- one reaction -------------------------------------------------------------------

  predicate SessionsOk(t: Table, accId: nat) {
    forall cid: U64 :: cid in t ==> cid != 0 && t[cid].cid == cid && t[cid].accId == accId
  }

  predicate Local(call: Call, accId: nat) {
    match call
    case RegResult(_) => false
    case AccDiscon(_) => false
    case VerifyAsked(a, _, _, _) => a == accId
    case ClientConnect(s) => s.accId == accId
    case ClientText(s, _, _) => s.accId == accId
    case ActiveSvr(s, _, _) => s.accId == accId
    case CacheRsp(s, _) => s.accId == accId
    case UinSet(s) => s.accId == accId
    case ClientDiscon(s) => s.accId == accId
  }

  lemma FollowOther(o: Option<Table>, accId: nat, addr: Addr, call: Call, other: nat)
    requires Local(call, other) && other != accId
    ensures Follow(o, accId, addr, call) == o
  {
    match call {
      case ClientConnect(s) =>
      case ClientText(s, _, _) =>
      case ActiveSvr(s, _, _) =>
      case CacheRsp(s, _) =>
      case UinSet(s) =>
      case ClientDiscon(s) =>
      case _ =>
    }
  }

  /** What every message may do to the connection it arrives on. */
  predicate Lawful(c: DCon, svrId: U16, r: Reaction) {
    && r.con.accId == c.accId && r.con.addr == c.addr
    && r.con.connected == c.connected && r.con.sent == c.sent
    && SessionsOk(r.con.sessions, c.accId)
    && (r.news.NoNews? ==> r.con.isReg == c.isReg)
    && (!r.news.NoNews? ==> !c.isReg && r.call.None?)
    && (r.news.RegOk? ==> r.con.isReg && svrId != 0)
    && (r.call.None? ==> r.con.sessions == c.sessions)
    && (r.call.Some? ==>
        && c.isReg && Local(r.call.value, c.accId)
        && Follow(Some(c.sessions), c.accId, c.addr, r.call.value) == Some(r.con.sessions))
  }

  lemma NothingLawful(c: DCon, svrId: U16)
    requires SessionsOk(c.sessions, c.accId)
    ensures Lawful(c, svrId, Nothing(c))
  {
  }

  lemma OpensLawful(c: DCon, svrId: U16, s: Session)
    requires SessionsOk(c.sessions, c.accId) && c.isReg
    requires s.cid != 0 && s.cid !in c.sessions && s.accId == c.accId
    ensures Lawful(c, svrId, Tell(c.(sessions := c.sessions[s.cid := s]), ClientConnect(s)))
  {
  }

  lemma ClosesLawful(c: DCon, svrId: U16, cid: U64)
    requires SessionsOk(c.sessions, c.accId) && c.isReg && cid in c.sessions
    ensures Lawful(c, svrId, Tell(c.(sessions := c.sessions - {cid}), ClientDiscon(c.sessions[cid])))
  {
  }

  lemma UinLawful(c: DCon, svrId: U16, cid: U64, uin: U64)
    requires SessionsOk(c.sessions, c.accId) && c.isReg && cid in c.sessions
    ensures var s := c.sessions[cid].(uin := uin);
            Lawful(c, svrId, Tell(c.(sessions := c.sessions[cid := s]), UinSet(s)))
  {
  }

  lemma SpeaksLawful(c: DCon, svrId: U16, cid: U64, call: Call)
    requires SessionsOk(c.sessions, c.accId) && c.isReg && cid in c.sessions
    requires match call
             case ClientText(s, _, _) => s == c.sessions[cid]
             case ActiveSvr(s, _, _) => s == c.sessions[cid]
             case CacheRsp(s, _) => s == c.sessions[cid]
             case _ => false
    ensures Lawful(c, svrId, Tell(c, call))
  {
  }

  lemma RspRegLawful(c: DCon, svrId: U16, a: AsMsg)
    requires SessionsOk(c.sessions, c.accId) && Readable(a.msg, a.len)
    ensures Lawful(c, svrId, HandleRspReg(c, svrId, a))
  {
  }

  lemma CreateLawful(c: DCon, svrId: U16, a: AsMsg)
    requires SessionsOk(c.sessions, c.accId) && c.isReg && Readable(a.msg, a.len)
    ensures Lawful(c, svrId, HandleCreateSession(c, a))
  {
    NothingLawful(c, svrId);
    if Ctrl(a, SIZE_CREATE).Some? {
      var s := CreatedSession(c.accId, Ctrl(a, SIZE_CREATE).value);
      if s.cid != 0 && s.cid !in c.sessions {
        OpensLawful(c, svrId, s);
      }
    }
  }

  lemma ForwardLawful(c: DCon, svrId: U16, a: AsMsg)
    requires SessionsOk(c.sessions, c.accId) && c.isReg
    ensures Lawful(c, svrId, HandleMsgForward(c, a)) && Lawful(c, svrId, HandleVerifyReq(c, a))
  {
    NothingLawful(c, svrId);
    var p := ParseForward(a.msg, a.len);
    if p.Ok? && p.value.cid in c.sessions {
      SpeaksLawful(c, svrId, p.value.cid, HandleMsgForward(c, a).call.value);
    }
  }

  lemma DisconLawful(c: DCon, svrId: U16, a: AsMsg)
    requires SessionsOk(c.sessions, c.accId) && c.isReg && Readable(a.msg, a.len)
    ensures Lawful(c, svrId, HandleNtfDiscon(c, a))
  {
    NothingLawful(c, svrId);
    if Ctrl(a, SIZE_DISCON).Some? {
      var cid := U64At(Ctrl(a, SIZE_DISCON).value, 0);
      if cid in c.sessions {
        ClosesLawful(c, svrId, cid);
      }
    }
  }

  lemma SetActiveLawful(c: DCon, svrId: U16, a: AsMsg)
    requires SessionsOk(c.sessions, c.accId) && c.isReg && Readable(a.msg, a.len)
    ensures Lawful(c, svrId, HandleRspSetActiveSvr(c, a))
  {
    NothingLawful(c, svrId);
    if Ctrl(a, SIZE_ACTIVE).Some? {
      var cid := U64At(Ctrl(a, SIZE_ACTIVE).value, 0);
      if cid in c.sessions {
        SpeaksLawful(c, svrId, cid, HandleRspSetActiveSvr(c, a).call.value);
      }
    }
  }

  lemma CacheLawful(c: DCon, svrId: U16, a: AsMsg)
    requires SessionsOk(c.sessions, c.accId) && c.isReg && Readable(a.msg, a.len)
    ensures Lawful(c, svrId, HandleRspCacheMsg(c, a))
  {
    NothingLawful(c, svrId);
    if Ctrl(a, SIZE_CACHE).Some? {
      var cid := U64At(Ctrl(a, SIZE_CACHE).value, 0);
      if cid in c.sessions {
        SpeaksLawful(c, svrId, cid, HandleRspCacheMsg(c, a).call.value);
      }
    }
  }

  lemma BroadcastUinLawful(c: DCon, svrId: U16, a: AsMsg)
    requires SessionsOk(c.sessions, c.accId) && c.isReg && Readable(a.msg, a.len)
    ensures Lawful(c, svrId, HandleBroadcastUin(c, a))
  {
    NothingLawful(c, svrId);
    if Ctrl(a, SIZE_UIN).Some? {
      var b := Ctrl(a, SIZE_UIN).value;
      if U64At(b, 0) in c.sessions {
        UinLawful(c, svrId, U64At(b, 0), U64At(b, 8));
      }
    }
  }

  lemma HandleMsgLawful(c: DCon, svrId: U16, a: AsMsg)
    requires SessionsOk(c.sessions, c.accId) && Readable(a.msg, a.len)
    ensures Lawful(c, svrId, HandleMsg(c, svrId, a))
  {
    if a.cmd == CMD_RSP_REG {
      RspRegLawful(c, svrId, a);
    } else if !c.isReg {
      NothingLawful(c, svrId);
    } else if a.cmd == CMD_NTF_CREATE_SESSION {
      CreateLawful(c, svrId, a);
    } else if a.cmd == CMD_NTF_VERIFY_REQ || a.cmd == CMD_NTF_FORWARD {
      ForwardLawful(c, svrId, a);
    } else if a.cmd == CMD_NTF_DISCON {
      DisconLawful(c, svrId, a);
    } else if a.cmd == CMD_RSP_SET_ACTIVE_SVR {
      SetActiveLawful(c, svrId, a);
    } else if a.cmd == CMD_RSP_CACHE_MSG {
      CacheLawful(c, svrId, a);
    } else if a.cmd == CMD_RSP_BROADCAST_UIN {
      BroadcastUinLawful(c, svrId, a);
    } else {
      NothingLawful(c, svrId);
    }
  }

  lemma OnRecvLawful(c: DCon, svrId: U16, mem: seq<byte>, len: U16)
    requires SessionsOk(c.sessions, c.accId) && Received(mem, len)
    ensures Lawful(c, svrId, OnRecv(c, svrId, mem, len))
  {
    NothingLawful(c, svrId);
    match ParseAs(At(mem), len) {
      case Ok(a) => HandleMsgLawful(c, svrId, a);
      case _ =>
    }
  }

  // ---- the invariant ------------------------------------------------------------------

  predicate ConOk(m: Mgr, c: DCon, i: nat) {
    && c.accId == i
    && (c.isReg ==> c.connected && m.reg && m.svrId != 0)
    && (!c.isReg ==> c.sessions == map[])
    && SessionsOk(c.sessions, i)
    && Informed(m, c)
  }

  /** The registration was sent first and the stored settings last, but for a connection
      without server id, which is not greeted. */
  predicate Informed(m: Mgr, c: DCon) {
    c.connected ==>
      && (m.svrId != 0 ==> c.sent != [] && c.sent[0] == RegPack(m.svrId, m.isVerify))
      && (m.svrId != 0 && m.seting.Some? ==> LastSeting(c.sent) == Some(SetingWire(m.seting.value)))
      && (m.svrId == 0 && c.sent != [] ==>
          m.seting.Some? && LastSeting(c.sent) == Some(SetingWire(m.seting.value)))
  }

  predicate Followed(m: Mgr, c: DCon, i: nat) {
    Replay(m.calls, i, c.addr) == Some(c.sessions)
  }

  /** Ids not given out yet never occurred in a callback. */
  ghost predicate FutureClean(m: Mgr) {
    forall i: nat, addr: Addr :: i >= |m.cons| ==> Replay(m.calls, i, addr) == Some(map[])
  }

  predicate RegTrace(m: Mgr) {
    var first := if m.reg then [m.svrId] else [];
    && (m.reg ==> m.svrId != 0)
    && (Results(m.calls) == first || (m.fatal && Results(m.calls) == first + [0]))
  }

  ghost predicate Inv(m: Mgr) {
    && (m.fatal ==> m.cons == [])
    && (m.cons == [] && !m.fatal ==> !m.reg)
    && (forall i, j :: 0 <= i < j < |m.cons| ==> m.cons[i].addr != m.cons[j].addr)
    && (forall i :: 0 <= i < |m.cons| ==> ConOk(m, m.cons[i], i))
    && (forall i :: 0 <= i < |m.cons| ==> Followed(m, m.cons[i], i))
    && (!m.fatal ==> FutureClean(m))
    && RegTrace(m)
  }

  // ---- every event keeps it -----------------------------------------------------------

  /** A step without callbacks that leaves addresses and sessions alone. */
  lemma QuietInv(m: Mgr, n: Mgr)
    requires Inv(m) && !m.fatal && !n.fatal
    requires n.calls == m.calls && n.svrId == m.svrId && n.reg == m.reg && |n.cons| == |m.cons|
    requires forall i :: 0 <= i < |n.cons| ==>
               n.cons[i].addr == m.cons[i].addr && n.cons[i].sessions == m.cons[i].sessions && ConOk(n, n.cons[i], i)
    ensures Inv(n)
  {
    forall i | 0 <= i < |n.cons| ensures Followed(n, n.cons[i], i) {
      assert Followed(m, m.cons[i], i);
    }
    forall i, j | 0 <= i < j < |n.cons| ensures n.cons[i].addr != n.cons[j].addr {
      assert n.cons[i].addr == m.cons[i].addr && n.cons[j].addr == m.cons[j].addr;
    }
  }

  lemma SpokenFollowed(m: Mgr, n: Mgr, i: nat, c: DCon, call: Call)
    requires Inv(m) && i < |m.cons| && n == m.(cons := m.cons[i := c], calls := m.calls + [call])
    requires c.addr == m.cons[i].addr && Local(call, i)
    requires Follow(Some(m.cons[i].sessions), i, c.addr, call) == Some(c.sessions)
    ensures forall j :: 0 <= j < |n.cons| ==> Followed(n, n.cons[j], j)
    ensures FutureClean(n)
  {
    forall j | 0 <= j < |n.cons| ensures Followed(n, n.cons[j], j) {
      assert Followed(m, m.cons[j], j);
      ReplaySnoc(m.calls, call, j, m.cons[j].addr);
      if j != i {
        FollowOther(Replay(m.calls, j, m.cons[j].addr), j, m.cons[j].addr, call, i);
      }
    }
    forall j: nat, addr: Addr | j >= |n.cons| ensures Replay(n.calls, j, addr) == Some(map[]) {
      ReplaySnoc(m.calls, call, j, addr);
      FollowOther(Replay(m.calls, j, addr), j, addr, call, i);
    }
  }

  lemma SpokenInv(m: Mgr, i: nat, r: Reaction)
    requires Inv(m) && i < |m.cons| && Lawful(m.cons[i], m.svrId, r) && r.call.Some?
    ensures Inv(Reacted(m, i, r))
  {
    var c, n := m.cons[i], Reacted(m, i, r);
    assert ConOk(m, c, i);
    SpokenFollowed(m, n, i, r.con, r.call.value);
    ResultsSnoc(m.calls, r.call.value);
    forall j | 0 <= j < |n.cons| ensures ConOk(n, n.cons[j], j) {
      assert ConOk(m, m.cons[j], j);
    }
    forall j, k | 0 <= j < k < |n.cons| ensures n.cons[j].addr != n.cons[k].addr {
      assert n.cons[j].addr == m.cons[j].addr && n.cons[k].addr == m.cons[k].addr;
    }
  }

  lemma ResultFollowed(m: Mgr, id: U16, i: nat, addr: Addr)
    ensures Replay(m.calls + [RegResult(id)], i, addr) == Replay(m.calls, i, addr)
  {
    ReplaySnoc(m.calls, RegResult(id), i, addr);
  }

  lemma FirstRegInv(m: Mgr, i: nat, c: DCon)
    requires Inv(m) && i < |m.cons| && !m.reg && m.svrId != 0
    requires c.addr == m.cons[i].addr && c.sessions == m.cons[i].sessions
    requires ConOk(m.(reg := true), c, i)
    ensures Inv(SetRegResult(m.(cons := m.cons[i := c]), true))
  {
    var n := SetRegResult(m.(cons := m.cons[i := c]), true);
    ResultsSnoc(m.calls, RegResult(m.svrId));
    forall j | 0 <= j < |n.cons| ensures ConOk(n, n.cons[j], j) && Followed(n, n.cons[j], j) {
      assert ConOk(m, m.cons[j], j) && Followed(m, m.cons[j], j);
      ResultFollowed(m, m.svrId, j, n.cons[j].addr);
    }
    forall j: nat, addr: Addr | j >= |n.cons| ensures Replay(n.calls, j, addr) == Some(map[]) {
      ResultFollowed(m, m.svrId, j, addr);
    }
    forall j, k | 0 <= j < k < |n.cons| ensures n.cons[j].addr != n.cons[k].addr {
      assert n.cons[j].addr == m.cons[j].addr && n.cons[k].addr == m.cons[k].addr;
    }
  }

  lemma ReactedInv(m: Mgr, i: nat, r: Reaction)
    requires Inv(m) && i < |m.cons| && m.cons[i].connected && Lawful(m.cons[i], m.svrId, r)
    ensures Inv(Reacted(m, i, r))
  {
    var c := m.cons[i];
    assert ConOk(m, c, i);
    match r.news {
      case NoNews =>
        if r.call.Some? {
          SpokenInv(m, i, r);
        } else {
          ReplacedInv(m, i, r.con);
        }
      case RegOk =>
        if m.reg {
          ReplacedInv(m, i, r.con);
          assert Reacted(m, i, r) == m.(cons := m.cons[i := r.con]);
        } else {
          assert Reacted(m, i, r) == SetRegResult(m.(cons := m.cons[i := r.con]), true);
          FirstRegInv(m, i, r.con);
        }
      case RegBad =>
        ResultsSnoc(m.calls, RegResult(0));
    }
  }

  lemma ReplacedInv(m: Mgr, i: nat, c: DCon)
    requires Inv(m) && i < |m.cons| && ConOk(m, c, i)
    requires c.addr == m.cons[i].addr && c.sessions == m.cons[i].sessions
    ensures Inv(m.(cons := m.cons[i := c]))
  {
    var n := m.(cons := m.cons[i := c]);
    forall j | 0 <= j < |n.cons|
      ensures n.cons[j].addr == m.cons[j].addr && n.cons[j].sessions == m.cons[j].sessions && ConOk(n, n.cons[j], j)
    {
      assert ConOk(m, m.cons[j], j);
    }
    QuietInv(m, n);
  }

  lemma UpInv(m: Mgr, i: nat)
    requires Inv(m) && i < |m.cons| && !m.cons[i].connected
    ensures Inv(m.(cons := m.cons[i := Connected(m, m.cons[i])]))
  {
    var c := m.cons[i];
    assert ConOk(m, c, i);
    if m.svrId != 0 && m.seting.Some? {
      LastSetingSnoc([RegPack(m.svrId, m.isVerify)], m.seting.value);
    }
    ReplacedInv(m, i, Connected(m, c));
  }

  /** What the callbacks tell of a connection when connection i is lost. */
  lemma DownFollowed(m: Mgr, i: nat, j: nat)
    requires Inv(m) && i < |m.cons| && j < |m.cons|
    ensures var call, c := AccDiscon(m.cons[i].addr), m.cons[j];
            Replay(m.calls + [call], j, c.addr) == Some(if j == i then map[] else c.sessions)
  {
    var call, c := AccDiscon(m.cons[i].addr), m.cons[j];
    assert Followed(m, c, j);
    ReplaySnoc(m.calls, call, j, c.addr);
    if j == i {
      assert Follow(Some(c.sessions), j, c.addr, call) == Some(map[]);
    } else {
      assert m.cons[if i < j then i else j].addr != m.cons[if i < j then j else i].addr;
      assert Follow(Some(c.sessions), j, c.addr, call) == Some(c.sessions);
    }
  }

  lemma DownFuture(m: Mgr, call: Call)
    requires FutureClean(m) && call.AccDiscon?
    ensures FutureClean(m.(calls := m.calls + [call]))
  {
    forall j: nat, addr: Addr | j >= |m.cons| ensures Replay(m.calls + [call], j, addr) == Some(map[]) {
      ReplaySnoc(m.calls, call, j, addr);
    }
  }

  lemma DownInv(m: Mgr, i: nat)
    requires Inv(m) && i < |m.cons|
    ensures Inv(m.(cons := m.cons[i := Disconnected(m.cons[i])], calls := m.calls + [AccDiscon(m.cons[i].addr)]))
  {
    var call := AccDiscon(m.cons[i].addr);
    var n := m.(cons := m.cons[i := Disconnected(m.cons[i])], calls := m.calls + [call]);
    ResultsSnoc(m.calls, call);
    DownFuture(m, call);
    forall j | 0 <= j < |n.cons| ensures ConOk(n, n.cons[j], j) && Followed(n, n.cons[j], j) {
      assert ConOk(m, m.cons[j], j);
      DownFollowed(m, i, j);
    }
    forall j, k | 0 <= j < k < |n.cons| ensures n.cons[j].addr != n.cons[k].addr {
      assert n.cons[j].addr == m.cons[j].addr && n.cons[k].addr == m.cons[k].addr;
    }
  }

  lemma SetingInv(m: Mgr, s: AccSeting)
    requires Inv(m)
    ensures Inv(SetAccSeting(m, s))
  {
    var n := SetAccSeting(m, s);
    if !m.fatal {
      forall i | 0 <= i < |n.cons|
        ensures n.cons[i].addr == m.cons[i].addr && n.cons[i].sessions == m.cons[i].sessions && ConOk(n, n.cons[i], i)
      {
        assert ConOk(m, m.cons[i], i);
        LastSetingSnoc(m.cons[i].sent, s);
      }
      QuietInv(m, n);
    }
  }

  lemma InitInv(m: Mgr, addrs: seq<Addr>, svrId: U16, isVerify: bool, oks: seq<bool>)
    requires Inv(m) && |oks| == |addrs|
    ensures Inv(Init(m, addrs, svrId, isVerify, oks).0)
  {
    if InitAllowed(m, addrs) {
      var n := Init(m, addrs, svrId, isVerify, oks).0;
      forall i | 0 <= i < |n.cons| ensures ConOk(n, n.cons[i], i) && Followed(n, n.cons[i], i) {
        assert Replay(m.calls, i, n.cons[i].addr) == Some(map[]);
      }
    }
  }

  lemma AddInv(m: Mgr, addr: Addr, ok: bool)
    requires Inv(m)
    ensures Inv(AddAcc(m, addr, ok).0)
  {
    if AddAllowed(m, addr) && ok {
      var n := AddAcc(m, addr, ok).0;
      forall i | 0 <= i < |n.cons| ensures ConOk(n, n.cons[i], i) && Followed(n, n.cons[i], i) {
        if i < |m.cons| {
          assert ConOk(m, m.cons[i], i) && Followed(m, m.cons[i], i);
        } else {
          assert Replay(m.calls, i, addr) == Some(map[]);
        }
      }
    }
  }

  lemma StepInv(m: Mgr, e: Event)
    requires Inv(m)
    ensures Inv(Step(m, e))
  {
    if Possible(m, e) {
      match e {
        case InitReq(addrs, svrId, isVerify, oks) => InitInv(m, addrs, svrId, isVerify, oks);
        case AddReq(addr, ok) => AddInv(m, addr, ok);
        case SetingReq(s) => SetingInv(m, s);
        case FatalReq =>
        case Up(i) => UpInv(m, i);
        case Down(i) => DownInv(m, i);
        case Recv(i, mem, len) =>
          assert ConOk(m, m.cons[i], i);
          OnRecvLawful(m.cons[i], m.svrId, mem, len);
          ReactedInv(m, i, OnRecv(m.cons[i], m.svrId, mem, len));
      }
    }
  }

  lemma {:induction false} RunInv(m: Mgr, es: seq<Event>)
    requires Inv(m)
    ensures Inv(Run(m, es))
    decreases |es|
  {
    if es != [] {
      RunInv(m, es[..|es| - 1]);
      StepInv(Run(m, es[..|es| - 1]), es[|es| - 1]);
    }
  }

  // ---- main results -------------------------------------------------------------------

  /** In every run each connection's session table is the one its user can follow from the
      callbacks; it is empty while the connection is not registered. */
  lemma TableInEveryRun(es: seq<Event>, m: Mgr)
    requires m == Run(EMPTY, es)
    ensures forall i :: 0 <= i < |m.cons| ==>
              && Replay(m.calls, i, m.cons[i].addr) == Some(m.cons[i].sessions)
              && (!m.cons[i].isReg ==> m.cons[i].sessions == map[])
              && (m.cons[i].isReg ==> m.cons[i].connected)
  {
    RunInv(EMPTY, es);
    forall i | 0 <= i < |m.cons| ensures ConOk(m, m.cons[i], i) && Followed(m, m.cons[i], i) {
    }
  }

  /** Positions are ids: connection i has id i, its sessions carry their key and that id, and
      looking a session up by its id finds it and nothing else. */
  lemma IdsInEveryRun(es: seq<Event>, m: Mgr)
    requires m == Run(EMPTY, es)
    ensures forall i :: 0 <= i < |m.cons| ==> m.cons[i].accId == i
    ensures forall i, cid: U64 :: 0 <= i < |m.cons| && cid in m.cons[i].sessions ==>
              var s := m.cons[i].sessions[cid];
              s.cid == cid != 0 && s.accId == i && FindSession(m, s.cid, s.accId) == Some(s)
    ensures forall cid: U64, i: nat :: FindSession(m, cid, i).Some? ==>
              FindSession(m, cid, i).value.cid == cid && FindSession(m, cid, i).value.accId == i
  {
    RunInv(EMPTY, es);
    forall i | 0 <= i < |m.cons| ensures ConOk(m, m.cons[i], i) {
    }
  }

  /** The registration results of a whole run are [], [id], [0] or [id, 0]. */
  lemma RegResultsInEveryRun(es: seq<Event>, m: Mgr)
    requires m == Run(EMPTY, es)
    ensures || Results(m.calls) == []
            || (m.svrId != 0 && Results(m.calls) == [m.svrId])
            || (m.fatal && Results(m.calls) == [0])
            || (m.fatal && m.svrId != 0 && Results(m.calls) == [m.svrId, 0])
  {
    RunInv(EMPTY, es);
  }

  lemma FatalStep(m: Mgr, e: Event)
    requires m.fatal && m.cons == []
    ensures var n := Step(m, e); n.fatal && n.cons == [] && n.calls == m.calls
  {
  }

  lemma {:induction false} FatalRun(m: Mgr, es: seq<Event>)
    requires m.fatal && m.cons == []
    ensures var n := Run(m, es); n.fatal && n.cons == [] && n.calls == m.calls
    decreases |es|
  {
    if es != [] {
      FatalRun(m, es[..|es| - 1]);
      FatalStep(Run(m, es[..|es| - 1]), es[|es| - 1]);
    }
  }

  /** After a fatal error nothing comes back: no connections, no Init, no AddAcc, no callbacks. */
  lemma FatalForGood(m: Mgr, es: seq<Event>, n: Mgr)
    requires m.fatal && m.cons == [] && n == Run(m, es)
    ensures n.fatal && n.cons == [] && n.calls == m.calls
    ensures forall addrs, svrId, isVerify, oks :: |oks| == |addrs| ==> !Init(n, addrs, svrId, isVerify, oks).1
    ensures forall addr, ok :: !AddAcc(n, addr, ok).1
  {
    FatalRun(m, es);
  }

  /** Settings were given after the last time that connection i was established. */
  predicate GivenSince(es: seq<Event>, i: nat)
    decreases |es|
  {
    es != [] &&
    var before, e := es[..|es| - 1], es[|es| - 1];
    if e.SetingReq? then true
    else if e == Up(i) && Possible(Run(EMPTY, before), e) then false
    else GivenSince(before, i)
  }

  /** A step that neither gives settings nor establishes connection i. */
  lemma StepSends(m: Mgr, e: Event, i: nat)
    requires Inv(m) && !e.SetingReq? && !(e == Up(i) && Possible(m, e))
    requires i < |Step(m, e).cons| && Step(m, e).cons[i].connected
    ensures i < |m.cons| && m.cons[i].connected && Step(m, e).cons[i].sent == m.cons[i].sent
    ensures Step(m, e).svrId == m.svrId
  {
    match e {
      case Recv(j, mem, len) =>
        if Possible(m, e) {
          assert ConOk(m, m.cons[j], j);
          OnRecvLawful(m.cons[j], m.svrId, mem, len);
        }
      case InitReq(addrs, svrId, isVerify, oks) =>
      case _ =>
    }
  }

  lemma {:induction false} SentMeansGiven(es: seq<Event>, i: nat)
    requires var m := Run(EMPTY, es); i < |m.cons| && m.cons[i].connected && m.svrId == 0
    ensures Run(EMPTY, es).cons[i].sent != [] <==> GivenSince(es, i)
    decreases |es|
  {
    var before, e := es[..|es| - 1], es[|es| - 1];
    var m := Run(EMPTY, before);
    RunInv(EMPTY, before);
    if !e.SetingReq? && !(e == Up(i) && Possible(m, e)) {
      StepSends(m, e, i);
      SentMeansGiven(before, i);
    }
  }

  /** Whatever the order of settings, connects, disconnects and added servers: a connected
      server was last sent the stored settings, if and only if the server id is set or settings
      were given since it connected: without an id the greeting is skipped. */
  lemma SettingsConverge(es: seq<Event>, m: Mgr)
    requires m == Run(EMPTY, es)
    ensures forall i :: 0 <= i < |m.cons| && m.cons[i].connected && m.seting.Some? ==>
              (LastSeting(m.cons[i].sent) == Some(SetingWire(m.seting.value))
               <==> m.svrId != 0 || GivenSince(es, i))
  {
    RunInv(EMPTY, es);
    forall i | 0 <= i < |m.cons| && m.cons[i].connected && m.seting.Some?
      ensures LastSeting(m.cons[i].sent) == Some(SetingWire(m.seting.value)) <==> m.svrId != 0 || GivenSince(es, i)
    {
      assert ConOk(m, m.cons[i], i);
      if m.svrId == 0 {
        SentMeansGiven(es, i);
      }
    }
  }

  lemma RunTail(m: Mgr, a: Event, b: Event, c: Event)
    ensures Run(m, [a, b, c]) == Step(Step(Step(m, a), b), c)
  {
    assert [a, b, c][..2] == [a, b] && [a, b][..1] == [a] && [a][..0] == [];
    assert Run(m, [a, b]) == Step(Run(m, [a]), b) && Run(m, [a]) == Step(Run(m, []), a);
  }

  /** A run that shows it: without a server id, settings made before the connection is
      established are not sent. */
  lemma UngreetedGetsNothing(addr: Addr, s: AccSeting, m: Mgr)
    requires m == Run(EMPTY, [InitReq([addr], 0, false, [true]), SetingReq(s), Up(0)])
    ensures |m.cons| == 1 && m.cons[0].connected && m.seting == Some(s) && LastSeting(m.cons[0].sent) == None
  {
    RunTail(EMPTY, InitReq([addr], 0, false, [true]), SetingReq(s), Up(0));
    LeadingTrueIs([true], 1);
    assert [addr][..1] == [addr];
  }

  /** In every run each connected server was sent, first of all, the registration of this
      server under its present id, if it has one. */
  lemma RegistersFirst(es: seq<Event>, m: Mgr, i: nat)
    requires m == Run(EMPTY, es) && i < |m.cons| && m.cons[i].connected && m.svrId != 0
    ensures m.cons[i].sent != [] && m.cons[i].sent[0] == RegPack(m.svrId, m.isVerify)
  {
    RunInv(EMPTY, es);
    assert ConOk(m, m.cons[i], i);
  }

  // ---- callbacks of one session -------------------------------------------------------

  /** The session a callback is about. */
  function About(call: Call): Option<Session> {
    match call
    case ClientConnect(s) => Some(s)
    case ClientText(s, _, _) => Some(s)
    case ActiveSvr(s, _, _) => Some(s)
    case CacheRsp(s, _) => Some(s)
    case UinSet(s) => Some(s)
    case ClientDiscon(s) => Some(s)
    case _ => None
  }

  /** A connect callback not yet followed by a disconnect of the client or of its server. */
  predicate OpenIn(calls: seq<Call>, accId: nat, addr: Addr, cid: U64)
    decreases |calls|
  {
    calls != [] &&
    var last := calls[|calls| - 1];
    if last == AccDiscon(addr) then false
    else if About(last).Some? && About(last).value.accId == accId && About(last).value.cid == cid && last.ClientConnect? then true
    else if About(last).Some? && About(last).value.accId == accId && About(last).value.cid == cid && last.ClientDiscon? then false
    else OpenIn(calls[..|calls| - 1], accId, addr, cid)
  }

  lemma {:induction false} OpenMeans(calls: seq<Call>, accId: nat, addr: Addr, cid: U64)
    requires Replay(calls, accId, addr).Some?
    ensures cid in Replay(calls, accId, addr).value <==> OpenIn(calls, accId, addr, cid)
    decreases |calls|
  {
    if calls != [] {
      OpenMeans(calls[..|calls| - 1], accId, addr, cid);
      match calls[|calls| - 1] {
        case ClientConnect(s) =>
        case ClientDiscon(s) =>
        case UinSet(s) =>
        case AccDiscon(a) =>
        case _ =>
      }
    }
  }

  /** In every run looking up a session finds one exactly if a callback opened it and none closed it
      since, neither its own nor that of its server. */
  lemma FindsOpenSessions(es: seq<Event>, m: Mgr, i: nat, cid: U64)
    requires m == Run(EMPTY, es)
    ensures FindSession(m, cid, i).Some? <==> i < |m.cons| && OpenIn(m.calls, i, m.cons[i].addr, cid)
  {
    TableInEveryRun(es, m);
    if i < |m.cons| {
      OpenMeans(m.calls, i, m.cons[i].addr, cid);
    }
  }

  /** A callback can be followed only if it opens a session that is not open or is about one that is. */
  lemma FollowFits(t: Table, accId: nat, addr: Addr, call: Call)
    requires About(call).Some? && About(call).value.accId == accId
    requires Follow(Some(t), accId, addr, call).Some?
    ensures call.ClientConnect? <==> About(call).value.cid !in t
  {
    match call {
      case ClientConnect(s) =>
      case ClientText(s, _, _) =>
      case ActiveSvr(s, _, _) =>
      case CacheRsp(s, _) =>
      case UinSet(s) =>
      case ClientDiscon(s) =>
    }
  }

  /** Callback n was made in state w, by a registered connection, and it opens its session
      exactly if the callbacks before it left that session closed. */
  predicate MadeBy(w: Mgr, calls: seq<Call>, n: nat) {
    n < |calls| && About(calls[n]).Some? && w.calls == calls[..n] &&
    var s := About(calls[n]).value;
    && s.accId < |w.cons| && w.cons[s.accId].isReg
    && (calls[n].ClientConnect? <==> !OpenIn(calls[..n], s.accId, w.cons[s.accId].addr, s.cid))
  }

  lemma CallMade(m: Mgr, i: nat, call: Call, t: Table)
    requires Inv(m) && i < |m.cons| && m.cons[i].isReg && Local(call, i) && About(call).Some?
    requires Follow(Some(m.cons[i].sessions), i, m.cons[i].addr, call) == Some(t)
    ensures MadeBy(m, m.calls + [call], |m.calls|)
  {
    var c, s := m.cons[i], About(call).value;
    SnocParts(m.calls, call);
    assert Followed(m, c, i) && s.accId == i;
    FollowFits(c.sessions, i, c.addr, call);
    OpenMeans(m.calls, i, c.addr, s.cid);
  }

  lemma RecvMade(m: Mgr, i: nat, r: Reaction, n: nat)
    requires Inv(m) && i < |m.cons| && Lawful(m.cons[i], m.svrId, r)
    requires |m.calls| <= n < |Reacted(m, i, r).calls| && About(Reacted(m, i, r).calls[n]).Some?
    ensures MadeBy(m, Reacted(m, i, r).calls, n)
  {
    assert ConOk(m, m.cons[i], i);
    if r.call.Some? {
      CallMade(m, i, r.call.value, r.con.sessions);
    }
  }

  lemma StepMade(m: Mgr, e: Event, n: nat)
    requires Inv(m) && |m.calls| <= n < |Step(m, e).calls| && About(Step(m, e).calls[n]).Some?
    ensures MadeBy(m, Step(m, e).calls, n)
  {
    match e {
      case Recv(i, mem, len) =>
        assert ConOk(m, m.cons[i], i);
        OnRecvLawful(m.cons[i], m.svrId, mem, len);
        RecvMade(m, i, OnRecv(m.cons[i], m.svrId, mem, len), n);
      case Down(i) =>
      case _ =>
    }
  }

  lemma StepKeepsCalls(m: Mgr, e: Event)
    ensures m.calls <= Step(m, e).calls
  {
  }

  lemma MadeStill(w: Mgr, calls: seq<Call>, more: seq<Call>, n: nat)
    requires MadeBy(w, calls, n) && calls <= more
    ensures MadeBy(w, more, n)
  {
    assert more[..n] == calls[..n] && more[n] == calls[n];
  }

  /** Callback n of a run was made at event k. */
  predicate MadeAt(es: seq<Event>, k: nat, n: nat) {
    k < |es| && MadeBy(Run(EMPTY, es[..k]), Run(EMPTY, es).calls, n)
  }

  /** A run has such a callback. */
  predicate Has(es: seq<Event>, n: nat) {
    var calls := Run(EMPTY, es).calls;
    n < |calls| && About(calls[n]).Some?
  }

  /** One more event leaves what was made as it was made. */
  lemma MadeBefore(es: seq<Event>, k: nat, n: nat)
    requires es != [] && MadeAt(es[..|es| - 1], k, n)
    ensures MadeAt(es, k, n)
  {
    var m := Run(EMPTY, es[..|es| - 1]);
    assert es[..|es| - 1][..k] == es[..k];
    StepKeepsCalls(m, es[|es| - 1]);
    MadeStill(Run(EMPTY, es[..k]), m.calls, Step(m, es[|es| - 1]).calls, n);
  }

  lemma HadBefore(es: seq<Event>, n: nat)
    requires es != [] && Has(es, n) && n < |Run(EMPTY, es[..|es| - 1]).calls|
    ensures Has(es[..|es| - 1], n)
  {
    StepKeepsCalls(Run(EMPTY, es[..|es| - 1]), es[|es| - 1]);
  }

  lemma LastMade(es: seq<Event>, n: nat)
    requires es != [] && Has(es, n) && n >= |Run(EMPTY, es[..|es| - 1]).calls|
    ensures MadeAt(es, |es| - 1, n)
  {
    RunInv(EMPTY, es[..|es| - 1]);
    StepMade(Run(EMPTY, es[..|es| - 1]), es[|es| - 1], n);
  }

  lemma {:induction false} MadeInRun(es: seq<Event>, n: nat) returns (k: nat)
    requires Has(es, n)
    ensures MadeAt(es, k, n)
    decreases |es|
  {
    if n < |Run(EMPTY, es[..|es| - 1]).calls| {
      HadBefore(es, n);
      k := MadeInRun(es[..|es| - 1], n);
      MadeBefore(es, k, n);
    } else {
      LastMade(es, n);
      k := |es| - 1;
    }
  }

  /** In every run, those that end in a fatal error included, and for every callback about a
      session: it was made by a connection then registered, and it is a connect callback exactly
      if the callbacks before it left the session closed. So connect and disconnect callbacks
      of a session alternate, and every other callback about it falls between the two. */
  lemma CallbacksInEveryRun(es: seq<Event>, m: Mgr, n: nat)
    requires m == Run(EMPTY, es) && n < |m.calls| && About(m.calls[n]).Some?
    ensures exists k :: 0 <= k < |es| && MadeBy(Run(EMPTY, es[..k]), m.calls, n)
  {
    var k := MadeInRun(es, n);
  }
}
