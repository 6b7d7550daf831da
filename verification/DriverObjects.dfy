/** The driver's objects (acc_driver/src/connect.{h,cpp}), updated in place. Every method is
    proved to do what the function of the same name in Driver says to the manager as a whole. */
module DriverObjects {
  import opened Bytes
  import opened Proto
  import opened ProtoCodec
  import D = Driver

  /** The user's callbacks, recorded. */
  class Facade {
    var calls: seq<D.Call>

    constructor ()
      ensures calls == []
    {
      calls := [];
    }

    method Record(call: D.Call)
      modifies this
      ensures calls == old(calls) + [call]
    {
      calls := calls + [call];
    }
  }

  function Recorded(calls: seq<D.Call>, r: D.Reaction): seq<D.Call> {
    if r.call.Some? then calls + [r.call.value] else calls
  }

  /** A connection to one access server. */
  class ADClientCon {
    const accId: nat
    const addr: D.Addr
    const facade: Facade
    const mgr: ConMgr
    var isReg: bool
    var sessions: map<U64, D.Session>
    var connected: bool
    var sent: seq<seq<byte>>

    ghost function Model(): D.DCon
      reads this
    {
      D.DCon(accId, addr, connected, isReg, sessions, sent)
    }

    /** The manager holds this connection at the position of its id. */
    ghost predicate Managed()
      reads this, mgr, mgr.cons
    {
      mgr.Valid() && mgr.facade == facade && accId < |mgr.cons| && mgr.cons[accId] == this
    }

    constructor (facade: Facade, mgr: ConMgr, accId: nat, addr: D.Addr)
      ensures this.facade == facade && this.mgr == mgr && this.accId == accId && this.addr == addr
      ensures Model() == D.NewCon(accId, addr)
    {
      this.facade, this.mgr, this.accId, this.addr := facade, mgr, accId, addr;
      isReg, sessions, connected, sent := false, map[], false, [];
    }

    method Send(pack: seq<byte>)
      modifies `sent
      ensures sent == old(sent) + [pack]
    {
      sent := sent + [pack];
    }

    method SendSeting(s: AccSeting)
      modifies `sent
      ensures sent == old(sent) + [D.SetingPack(s)]
    {
      var body := new TcpPack();
      var pack := new TcpPack();
      SerializeAccSeting(s, body);
      AppendNil(SetingWire(s));
      var ok := SerializeAsBody(CMD_REQ_ACC_SETING, body.s, pack);
      Send(pack.s);
    }

    /** What is sent first on a new connection: the registration, then the settings if any. */
    method Greet()
      modifies `sent
      ensures sent == old(sent) + D.Greeting(mgr.svrId, mgr.isVerify, mgr.seting)
    {
      if mgr.svrId == 0 {
        AppendNil(sent);
        return;
      }
      ghost var was := sent;
      Send(D.RegPack(mgr.svrId, mgr.isVerify));
      if mgr.seting.Some? {
        SendSeting(mgr.seting.value);
        Assoc(was, [D.RegPack(mgr.svrId, mgr.isVerify)], [D.SetingPack(mgr.seting.value)]);
      } else {
        AppendNil([D.RegPack(mgr.svrId, mgr.isVerify)]);
      }
    }

    method OnConnected()
      requires Managed() && !connected
      modifies this
      ensures Managed() && mgr.Model() == D.Step(old(mgr.Model()), D.Up(accId))
    {
      ghost var m := mgr.Model();
      connected, sent := true, [];
      Greet();
      AppendNil(D.Greeting(mgr.svrId, mgr.isVerify, mgr.seting));
      mgr.OneChanged(m.cons, accId);
    }

    method OnDisconnected()
      requires Managed()
      modifies this, facade
      ensures Managed() && mgr.Model() == D.Step(old(mgr.Model()), D.Down(accId))
    {
      ghost var m := mgr.Model();
      connected, isReg, sessions := false, false, map[];
      facade.Record(D.AccDiscon(addr));
      mgr.OneChanged(m.cons, accId);
    }

    method FindSession(cid: U64) returns (r: Option<D.Session>)
      ensures r == if cid in sessions then Some(sessions[cid]) else None
    {
      if cid !in sessions {
        return None;
      }
      r := Some(sessions[cid]);
    }

    method HandleCreateSession(a: AsMsg)
      requires Readable(a.msg, a.len)
      modifies this, facade
      ensures var r := D.HandleCreateSession(old(Model()), a);
              Model() == r.con && facade.calls == Recorded(old(facade.calls), r)
    {
      if a.len as nat != D.SIZE_CREATE {
        return;
      }
      var s := D.CreatedSession(accId, Span(a.msg, D.SIZE_CREATE));
      if s.cid == 0 || s.cid in sessions {
        return;
      }
      sessions := sessions[s.cid := s];
      facade.Record(D.ClientConnect(s));
    }

    method HandleMsgForward(a: AsMsg)
      modifies this, facade
      ensures var r := D.HandleMsgForward(old(Model()), a);
              Model() == r.con && facade.calls == Recorded(old(facade.calls), r)
    {
      var f := ParseForwardMsg(a.msg, a.len);
      if !f.Ok? || f.value.cid !in sessions {
        return;
      }
      facade.Record(D.ClientText(sessions[f.value.cid], f.value.cmd, D.Visible(f.value.msg, f.value.len)));
    }

    method HandleVerifyReq(a: AsMsg)
      modifies this, facade
      ensures var r := D.HandleVerifyReq(old(Model()), a);
              Model() == r.con && facade.calls == Recorded(old(facade.calls), r)
    {
      var f := ParseForwardMsg(a.msg, a.len);
      if !f.Ok? {
        return;
      }
      facade.Record(D.VerifyAsked(accId, f.value.cid, f.value.cmd, D.Visible(f.value.msg, f.value.len)));
    }

    method HandleMsgNtfDiscon(a: AsMsg)
      requires Readable(a.msg, a.len)
      modifies this, facade
      ensures var r := D.HandleNtfDiscon(old(Model()), a);
              Model() == r.con && facade.calls == Recorded(old(facade.calls), r)
    {
      if a.len as nat != D.SIZE_DISCON {
        return;
      }
      var cid := D.U64At(Span(a.msg, D.SIZE_DISCON), 0);
      if cid == 0 || cid !in sessions {
        return;
      }
      facade.Record(D.ClientDiscon(sessions[cid]));
      sessions := sessions - {cid};
    }

    method HandleMsgRspSetActiveSvr(a: AsMsg)
      requires Readable(a.msg, a.len)
      modifies this, facade
      ensures var r := D.HandleRspSetActiveSvr(old(Model()), a);
              Model() == r.con && facade.calls == Recorded(old(facade.calls), r)
    {
      if a.len as nat != D.SIZE_ACTIVE {
        return;
      }
      var b := Span(a.msg, D.SIZE_ACTIVE);
      var cid := D.U64At(b, 0);
      if cid == 0 || cid !in sessions {
        return;
      }
      facade.Record(D.ActiveSvr(sessions[cid], D.U16At(b, 10), D.U16At(b, 8)));
    }

    method HandleMsgRspCacheMsg(a: AsMsg)
      requires Readable(a.msg, a.len)
      modifies this, facade
      ensures var r := D.HandleRspCacheMsg(old(Model()), a);
              Model() == r.con && facade.calls == Recorded(old(facade.calls), r)
    {
      if a.len as nat != D.SIZE_CACHE {
        return;
      }
      var b := Span(a.msg, D.SIZE_CACHE);
      var cid := D.U64At(b, 0);
      if cid == 0 || cid !in sessions {
        return;
      }
      facade.Record(D.CacheRsp(sessions[cid], b[8] != 0));
    }

    method HandleMsgBroadcastUin(a: AsMsg)
      requires Readable(a.msg, a.len)
      modifies this, facade
      ensures var r := D.HandleBroadcastUin(old(Model()), a);
              Model() == r.con && facade.calls == Recorded(old(facade.calls), r)
    {
      if a.len as nat != D.SIZE_UIN {
        return;
      }
      var b := Span(a.msg, D.SIZE_UIN);
      var cid := D.U64At(b, 0);
      if cid == 0 || cid !in sessions {
        return;
      }
      var s := sessions[cid].(uin := D.U64At(b, 8));
      sessions := sessions[cid := s];
      facade.Record(D.UinSet(s));
    }

    /** Any message but the registration answer. */
    method HandleOther(a: AsMsg)
      requires Readable(a.msg, a.len) && isReg && a.cmd != CMD_RSP_REG
      modifies this, facade
      ensures var r := D.HandleMsg(old(Model()), mgr.svrId, a);
              r.news.NoNews? && Model() == r.con && facade.calls == Recorded(old(facade.calls), r)
    {
      if a.cmd == CMD_NTF_CREATE_SESSION {
        HandleCreateSession(a);
      } else if a.cmd == CMD_NTF_VERIFY_REQ {
        HandleVerifyReq(a);
      } else if a.cmd == CMD_NTF_FORWARD {
        HandleMsgForward(a);
      } else if a.cmd == CMD_NTF_DISCON {
        HandleMsgNtfDiscon(a);
      } else if a.cmd == CMD_RSP_SET_ACTIVE_SVR {
        HandleMsgRspSetActiveSvr(a);
      } else if a.cmd == CMD_RSP_CACHE_MSG {
        HandleMsgRspCacheMsg(a);
      } else if a.cmd == CMD_RSP_BROADCAST_UIN {
        HandleMsgBroadcastUin(a);
      }
    }

    /** A refusal ends every connection of the manager, this one included. */
    method HandleRspReg(a: AsMsg)
      requires Managed() && Readable(a.msg, a.len)
      modifies this, facade, mgr
      ensures mgr.Valid()
      ensures mgr.Model() == D.Reacted(old(mgr.Model()), accId, D.HandleRspReg(old(Model()), old(mgr.svrId), a))
    {
      ghost var m := mgr.Model();
      assert m.cons[accId := m.cons[accId]] == m.cons;
      if isReg || a.len as nat != D.SIZE_RSP_REG {
        return;
      }
      var id := D.U32At(Span(a.msg, D.SIZE_RSP_REG), 0);
      if id == 0 {
        mgr.SetRegResult(false);
        mgr.SetFatal();
        return;
      }
      if id != mgr.svrId {
        return;
      }
      isReg := true;
      mgr.OneChanged(m.cons, accId);
      mgr.SetRegResult(true);
    }

    method OnRecv(mem: seq<byte>, len: U16)
      requires Managed() && connected && D.Received(mem, len)
      modifies this, facade, mgr
      ensures mgr.Valid()
      ensures mgr.Model() == D.Step(old(mgr.Model()), D.Recv(accId, mem, len))
    {
      ghost var m := mgr.Model();
      assert m.cons[accId := m.cons[accId]] == m.cons;
      var a := ParseAsMsg(At(mem), len);
      if !a.Ok? || (a.value.cmd != CMD_RSP_REG && !isReg) {
        return;
      }
      if a.value.cmd == CMD_RSP_REG {
        HandleRspReg(a.value);
      } else {
        HandleOther(a.value);
        mgr.OneChanged(m.cons, accId);
      }
    }
  }

  class ConMgr {
    const facade: Facade
    var cons: seq<ADClientCon>
    var svrId: U16
    var isVerify: bool
    var isFatal: bool
    var isReg: bool
    var seting: Option<AccSeting>

    ghost predicate Valid()
      reads this, cons
    {
      forall i :: 0 <= i < |cons| ==> cons[i].mgr == this && cons[i].facade == facade && cons[i].accId == i
    }

    ghost function Models(): (ms: seq<D.DCon>)
      reads this, cons
      ensures |ms| == |cons|
      ensures forall i :: 0 <= i < |cons| ==> ms[i] == cons[i].Model()
    {
      seq(|cons|, i requires 0 <= i < |cons| reads this, cons => cons[i].Model())
    }

    ghost function Model(): D.Mgr
      reads this, facade, cons
    {
      D.Mgr(Models(), svrId, isVerify, isFatal, isReg, seting, facade.calls)
    }

    constructor (facade: Facade)
      requires facade.calls == []
      ensures this.facade == facade && Valid() && Model() == D.EMPTY
    {
      this.facade := facade;
      cons, svrId, isVerify, isFatal, isReg, seting := [], 0, false, false, false, None;
    }

    /** When one connection changed and the others did not. */
    lemma OneChanged(was: seq<D.DCon>, i: nat)
      requires i < |cons| && |was| == |cons|
      requires forall j :: 0 <= j < |cons| && j != i ==> cons[j].Model() == was[j]
      ensures Models() == was[i := cons[i].Model()]
    {
    }

    method SetRegResult(isSuccess: bool)
      requires Valid()
      modifies this, facade
      ensures Valid() && cons == old(cons) && Model() == D.SetRegResult(old(Model()), isSuccess)
    {
      if !isSuccess {
        facade.Record(D.RegResult(0));
        return;
      }
      if !isReg {
        if svrId == 0 {
          return;
        }
        isReg := true;
        facade.Record(D.RegResult(svrId));
      }
    }

    /** All connections are freed. */
    method SetFatal()
      modifies this
      ensures Valid() && facade.calls == old(facade.calls) && Model() == D.SetFatal(old(Model()))
    {
      isFatal := true;
      cons := [];
    }

    method NoRepetition(addrs: seq<D.Addr>) returns (r: bool)
      ensures r <==> D.Distinct(addrs)
    {
      var s: set<D.Addr> := {};
      var i := 0;
      while i < |addrs|
        invariant 0 <= i <= |addrs|
        invariant forall a :: a in s <==> a in addrs[..i]
        invariant D.Distinct(addrs[..i])
      {
        if addrs[i] in s {
          var j :| 0 <= j < i && addrs[..i][j] == addrs[i];
          assert addrs[j] == addrs[i];
          return false;
        }
        s := s + {addrs[i]};
        assert addrs[..i + 1] == addrs[..i] + [addrs[i]];
        i := i + 1;
      }
      assert addrs[..i] == addrs;
      return true;
    }

    /** Puts a new connection at the end. */
    method Append(p: ADClientCon)
      requires Valid() && p.mgr == this && p.facade == facade && p.accId == |cons|
      modifies `cons
      ensures Valid() && cons == old(cons) + [p] && Models() == old(Models()) + [p.Model()]
    {
      cons := cons + [p];
    }

    /** oks: whether each connect attempt succeeds. */
    method Init(addrs: seq<D.Addr>, svrId: U16, isVerify: bool, oks: seq<bool>) returns (r: bool)
      requires Valid() && |oks| == |addrs|
      modifies this
      ensures Valid() && (Model(), r) == D.Init(old(Model()), addrs, svrId, isVerify, oks)
    {
      if isFatal || addrs == [] || cons != [] {
        return false;
      }
      var distinct := NoRepetition(addrs);
      if !distinct {
        return false;
      }
      ghost var m := Model();
      this.svrId, this.isVerify := svrId, isVerify;
      var i := 0;
      while i < |addrs|
        invariant 0 <= i <= |addrs| && |cons| == i && Valid()
        invariant forall j :: 0 <= j < i ==> oks[j] && fresh(cons[j])
        invariant Models() == D.NewCons(addrs[..i])
        invariant facade.calls == m.calls && this.svrId == svrId && this.isVerify == isVerify
        invariant isFatal == m.fatal && isReg == m.reg && seting == m.seting
      {
        var p := new ADClientCon(facade, this, i, addrs[i]);
        if !oks[i] {
          D.LeadingTrueIs(oks, i);
          return false;
        }
        D.NewConsNext(addrs, i);
        Append(p);
        i := i + 1;
      }
      D.LeadingTrueIs(oks, i);
      return true;
    }

    method AddAcc(addr: D.Addr, connects: bool) returns (r: bool)
      requires Valid()
      modifies this
      ensures Valid() && (Model(), r) == D.AddAcc(old(Model()), addr, connects)
    {
      if isFatal || svrId == 0 {
        return false;
      }
      ghost var ms := Models();
      var i := 0;
      while i < |cons|
        invariant 0 <= i <= |cons|
        invariant forall j :: 0 <= j < i ==> ms[j].addr != addr
      {
        if cons[i].addr == addr {
          assert ms[i].addr == addr;
          return false;
        }
        i := i + 1;
      }
      var p := new ADClientCon(facade, this, |cons|, addr);
      if !connects {
        return false;
      }
      Append(p);
      return true;
    }

    /** Sends settings to one connection, if it is up. */
    method Resend(i: nat, s: AccSeting)
      requires Valid() && i < |cons|
      modifies cons[i]
      ensures Valid() && Models() == old(Models())[i := D.Resent(s, old(Models()[i]))]
    {
      ghost var ms := Models();
      if cons[i].connected {
        cons[i].SendSeting(s);
      }
      OneChanged(ms, i);
    }

    method SetAccSeting(s: AccSeting)
      requires Valid()
      modifies this, cons
      ensures Valid() && Model() == D.SetAccSeting(old(Model()), s)
    {
      ghost var m := Model();
      seting := Some(s);
      var i := 0;
      while i < |cons|
        invariant 0 <= i <= |cons| && cons == old(cons) && Valid()
        invariant Model() == m.(seting := Some(s), cons := Models())
        invariant forall j :: 0 <= j < |cons| ==> Models()[j] == if j < i then D.Resent(s, m.cons[j]) else m.cons[j]
      {
        Resend(i, s);
        i := i + 1;
      }
      assert Models() == D.SetAccSeting(m, s).cons;
    }

    method FindSession(cid: U64, accId: nat) returns (r: Option<D.Session>)
      requires Valid()
      ensures r == D.FindSession(Model(), cid, accId)
    {
      if accId >= |cons| {
        return None;
      }
      r := cons[accId].FindSession(cid);
    }
  }
}
