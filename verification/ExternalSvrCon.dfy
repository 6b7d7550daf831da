/** The client connection object (acc_svr/external_con.{h,cpp}), updated in place. Every method
    is proved to do what the function of the same name in ExternalCon says, and the public ones
    keep the invariant that the run theorems of ExternalRuns are about. */
module ClientConnection {
  import opened Bytes
  import opened Proto
  import opened Framing
  import opened ExternalRuns
  import E = ExternalCon

  /** rev does what RevPacket does. */
  ghost predicate Handles(rev: E.Handler, env: E.Env) {
    forall c, p {:trigger E.RevPacket(env, c, p)} :: rev(c, p) == E.RevPacket(env, c, p)
  }

  type Loop = (E.Con, seq<byte>) -> (E.Con, nat)

  /** loop comes to what the receive loop comes to. */
  ghost predicate Pumps(loop: Loop, rev: E.Handler) {
    forall c, s {:trigger E.Pump(rev, c, s)} :: loop(c, s) == E.Pump(rev, c, s)
  }

  /** With total bytes of s consumed and the connection in state d, the loop still comes to whole. */
  predicate Heading(loop: Loop, s: seq<byte>, d: E.Con, total: nat, whole: (E.Con, nat)) {
    total <= |s| &&
    var r := loop(d, s[total..]);
    whole.0 == r.0 && whole.1 == total + r.1
  }

  lemma HeadingStarts(loop: Loop, s: seq<byte>, d: E.Con)
    ensures Heading(loop, s, d, 0, loop(d, s))
  {
    assert s[0..] == s;
  }

  /** The loop comes to the same from state d as from state e when n more bytes are consumed. */
  predicate Follows(loop: Loop, d: E.Con, e: E.Con, s: seq<byte>, n: nat) {
    n <= |s| && loop(d, s).0 == loop(e, s[n..]).0 && loop(d, s).1 == n + loop(e, s[n..]).1
  }

  lemma HeadingStays(loop: Loop, s: seq<byte>, d: E.Con, total: nat, e: E.Con, n: nat, whole: (E.Con, nat))
    requires Heading(loop, s, d, total, whole) && Follows(loop, d, e, s[total..], n)
    ensures Heading(loop, s, e, total + n, whole)
  {
    assert s[total..][n..] == s[total + n..];
  }

  class ExternalSvrCon {
    const k: CharKind
    const cid: U64
    var state: E.Phase
    var grpId2SvrId: seq<U16>
    var firstTm: bool
    var verifyTm: bool
    var heartTm: bool
    var limitTm: bool
    var uin: U64
    var isCache: bool
    var cacheMsg: seq<seq<byte>>
    var seeded: bool
    var connected: bool
    var log: seq<E.Entry>

    ghost function Model(): E.Con
      reads this
    {
      E.Con(k, cid, state, grpId2SvrId, firstTm, verifyTm, heartTm, limitTm, uin, isCache, cacheMsg,
            seeded, connected, log)
    }

    ghost predicate Valid()
      reads this
    {
      Inv(Model())
    }

    constructor (k: CharKind, cid: U64)
      ensures Model() == E.Fresh(k, cid)
      ensures Valid()
    {
      this.k, this.cid := k, cid;
      state, grpId2SvrId, uin := E.Init, [], 0;
      firstTm, verifyTm, heartTm, limitTm := false, false, false, false;
      isCache, cacheMsg, seeded, connected, log := false, [], false, true, [];
    }

    method DisConnect()
      requires Valid()
      modifies `connected
      ensures Valid() && Model() == E.Disc(old(Model()))
    {
      connected := false;
    }

    /** Command and text, the text length passed as uint16. */
    method SendMsg(why: E.Reason, cmd: U32, msg: seq<byte>, len: U16)
      requires len <= |msg|
      modifies `log
      ensures Model() == E.Log(old(Model()), E.ToClient(why, E.ClientPack(cmd, msg[..len])))
    {
      var s := Le(cmd, 4);
      s := s + msg[..len];
      log := log + [E.ToClient(why, s)];
    }

    /** Tells one server or all registered ones. */
    method Tell(e: E.Entry)
      requires Valid() && Spoken(e)
      modifies `log
      ensures Valid() && Model() == E.Log(old(Model()), e)
    {
      SpokenInv(Model(), e);
      log := log + [e];
    }

    method OnConnected(env: E.Env)
      requires Model() == E.Fresh(k, cid)
      modifies this
      ensures Valid() && Model() == E.OnConnected(env, old(Model()))
    {
      ExternalRuns.StartInv(k, cid, env);
      var cli := env.seting.cli;
      if env.conSize > cli.maxNum {
        SendMsg(E.Limit, cli.rspCmd, cli.rspMsg, |cli.rspMsg| % 0x1_0000);
        limitTm := true;
        return;
      }
      if env.seting.noMsgSec != 0 {
        firstTm := true;
      }
    }

    method SetVerify(isSuccess: bool)
      requires Valid()
      modifies this
      ensures Valid() && Model() == E.SetVerify(old(Model()), isSuccess)
    {
      SetVerifyInv(Model(), isSuccess);
      if state != E.WaitVerify {
        return;
      }
      log := log + [E.Verdict(isSuccess)];
      if isSuccess {
        state := E.Verifyed;
      } else {
        state := E.Init;
      }
      verifyTm := false;
    }

    method IsVerify() returns (r: bool)
      ensures r <==> Model().phase.Verifyed?
    {
      r := state == E.Verifyed;
    }

    method SetActiveSvrId(grpId: U16, svrId: U16)
      requires Valid()
      modifies this
      ensures Valid() && Model() == E.SetActiveSvrId(old(Model()), grpId, svrId)
    {
      ghost var c := Model();
      Activate(grpId, svrId);
      SetActiveInv(c, grpId, svrId);
    }

    method Activate(grpId: U16, svrId: U16)
      modifies `log, `grpId2SvrId
      ensures Model() == E.SetActiveSvrId(old(Model()), grpId, svrId)
    {
      log := log + [E.RouteSet(grpId, svrId)];
      if grpId == 0 || svrId == 0 || grpId >= 100 {
        return;
      }
      if |grpId2SvrId| < grpId as int + 1 {
        grpId2SvrId := E.Resized(grpId2SvrId, grpId + 1);
      }
      grpId2SvrId := grpId2SvrId[grpId := svrId];
    }

    method SetUin(uin: U64)
      requires Valid()
      modifies `uin
      ensures Valid() && Model() == old(Model()).(uin := uin)
    {
      this.uin := uin;
    }

    method ToForward(p: seq<byte>) returns (m: Option<Forward>)
      ensures m == E.ToForward(k, cid, p)
    {
      if |p| < 4 {
        return None;
      }
      m := Some(Forward(cid, CharToU32(k, p[0]), |p| % 0x1_0000, At(p)));
    }

    /** Sends the request and waits for the verdict. */
    method AskVerifySvr(svr: U16, pack: seq<byte>)
      modifies `log, `verifyTm, `state
      ensures Model() == E.Log(old(Model()), E.VerifyReq(svr, pack)).(verifyTm := true, phase := E.WaitVerify)
    {
      log := log + [E.VerifyReq(svr, pack)];
      verifyTm := true;
      state := E.WaitVerify;
    }

    method Forward2VerifySvr(env: E.Env, p: seq<byte>)
      requires state.Init?
      modifies this
      ensures Model() == E.Asked(old(Model()), E.AskFate(env, k, cid, p))
    {
      firstTm := false;
      var f := ToForward(p);
      if f.None? || !ForwardOk(f.value) {
        return;
      }
      if env.verifySvr.None? {
        connected := false;
        return;
      }
      AskVerifySvr(env.verifySvr.value, AsWire(CMD_NTF_VERIFY_REQ, ForwardWire(f.value)));
    }

    /** The server a command is routed to, 0 if there is none. */
    method ChooseSvr(env: E.Env, cmd: U16) returns (svrId: U16)
      ensures svrId == E.ChooseSvr(env, grpId2SvrId, cmd)
    {
      svrId := 0;
      if cmd !in env.cmd2Grp {
        svrId := env.seting.defaultGrp;
      } else {
        var grpId := env.cmd2Grp[cmd];
        if |grpId2SvrId| >= grpId as int + 1 {
          svrId := grpId2SvrId[grpId];
        }
        if svrId == 0 {
          svrId := grpId;
        }
      }
    }

    method Forward2Svr(env: E.Env, p: seq<byte>)
      modifies this
      ensures Model() == E.Forward2Svr(env, old(Model()), p)
    {
      var f := ToForward(p);
      if f.None? {
        return;
      }
      var hbi := env.seting.hbi;
      if hbi.reqCmd != 0 && hbi.reqCmd == f.value.cmd {
        heartTm := true;
        SendMsg(E.Echo, hbi.rspCmd, [], 0);
        return;
      }
      var svrId := ChooseSvr(env, f.value.cmd % 0x1_0000);
      if svrId == 0 {
        connected := false;
        return;
      }
      if svrId !in env.svrs || !env.svrs[svrId] || !ForwardOk(f.value) {
        return;
      }
      log := log + [E.Forwarded(svrId, AsWire(CMD_NTF_FORWARD, ForwardWire(f.value)))];
    }

    method RevPacket(env: E.Env, p: seq<byte>)
      modifies this
      ensures Model() == E.RevPacket(env, old(Model()), p)
    {
      log := log + [E.Dispatched(p)];
      match state {
        case Init =>
          Forward2VerifySvr(env, p);
        case WaitVerify =>
        case Verifyed =>
          if isCache {
            cacheMsg := cacheMsg + [p];
          }
          Forward2Svr(env, p);
      }
    }

    /** Forwards the buffered packets, one after the other. */
    method Replay(env: E.Env)
      modifies this
      ensures Model() == E.CarriedAll(old(Model()), E.Fates(env, old(Model()), old(cacheMsg)))
    {
      ghost var c, fs := Model(), E.Fates(env, Model(), cacheMsg);
      var i := 0;
      while i < |cacheMsg|
        invariant 0 <= i <= |cacheMsg| && cacheMsg == c.cache
        invariant Model() == E.CarriedAll(c, fs[..i])
      {
        CarriedAllKept(c, fs[..i]);
        CarriedAllNext(c, fs, i);
        Forward2Svr(env, cacheMsg[i]);
        CarriedAllKept(c, fs[..i + 1]);
        i := i + 1;
      }
      assert fs[..i] == fs;
    }

    /** The pause begins or ends. */
    method MarkCache(on: bool)
      modifies `log, `isCache
      ensures Model() == E.Log(old(Model()), E.CacheSet(on)).(caching := on)
    {
      log := log + [E.CacheSet(on)];
      isCache := on;
    }

    method SetCache(env: E.Env, on: bool)
      requires Valid()
      modifies this
      ensures Valid() && Model() == E.SetCache(env, old(Model()), on)
    {
      ghost var c := Model();
      if !on {
        Replay(env);
        cacheMsg := [];
      }
      MarkCache(on);
      SetCacheInv(env, c, on);
    }

    method HandleSeed(s: seq<byte>, len: nat) returns (ok: bool, left: int)
      requires s != [] && len == |s| && !seeded
      modifies this
      ensures var seed := E.HandleSeed(k, s);
              && ok == (seed.NewSeed? || seed.OldSeed?)
              && (ok ==> left == E.Counted(k, false, s))
              && Model() == (if ok then old(Model()).(seeded := true)
                             else if seed.ZeroSeed? then E.Disc(old(Model())) else old(Model()))
    {
      left := len;
      if CharVal(k, s[0]) == 0xEF {
        seeded := true;
        return true, left;
      }
      if left >= 4 {
        left := left - 4;
        if s[..4] == [0, 0, 0, 0] {
          connected := false;
          return false, left;
        }
        seeded := true;
        return true, left;
      }
      return false, left;
    }

    method CheckEncrypted(packetId: int) returns (r: bool)
      modifies `connected
      ensures r <==> state != E.Verifyed && !FirstId(packetId)
      ensures Model() == if r then E.Disc(old(Model())) else old(Model())
    {
      if state != E.Verifyed && !FirstId(packetId) {
        connected := false;
        return true;
      }
      return false;
    }

    /** The framing loop of ParsePacket, which returns in its first round. */
    method FirstPacket(s: seq<byte>, len: nat) returns (n: nat)
      requires len <= |s|
      modifies `connected
      ensures (Model(), n) == E.Judged(old(Model()), Head(k, state != E.Verifyed, s, len))
    {
      if len == 0 {
        return 0;
      }
      var encrypted := CheckEncrypted(CharVal(k, s[0]));
      if encrypted || len < 3 {
        return 0;
      }
      var packetLength := HeaderLength(k, s);
      if packetLength < 3 {
        connected := false;
        return 0;
      }
      if len < packetLength {
        return 0;
      }
      return packetLength;
    }

    /** The number of bytes of the first packet, 0 if it is not complete or never will be. */
    method ParsePacket(s: seq<byte>) returns (n: nat)
      modifies this
      ensures (Model(), n) == E.ParsePacket(old(Model()), s)
    {
      if s == [] {
        return 0;
      }
      var len: int := |s|;
      if !seeded {
        var ok;
        ok, len := HandleSeed(s, len);
        if !ok {
          return 0;
        }
      }
      assert Model() == old(Model()).(seeded := true);
      n := FirstPacket(s, len);
    }

    /** One round of the receive loop; rest is what of the buffer is not consumed yet. */
    method NextPacket(env: E.Env, rest: seq<byte>, ghost rev: E.Handler, ghost loop: Loop) returns (n: nat)
      requires Handles(rev, env) && Pumps(loop, rev)
      modifies this
      ensures n <= |rest|
      ensures if n == 0 then loop(old(Model()), rest) == (Model(), 0) else Follows(loop, old(Model()), Model(), rest, n)
    {
      ghost var d := Model();
      n := ParsePacket(rest);
      assert loop(d, rest) == E.Pump(rev, d, rest);
      if n != 0 {
        PumpPacket(rev, d, rest);
        RevPacket(env, rest[..n]);
        assert loop(Model(), rest[n..]) == E.Pump(rev, Model(), rest[n..]);
      }
    }

    method Drain(env: E.Env, s: seq<byte>, ghost rev: E.Handler, ghost loop: Loop) returns (total: nat)
      requires Handles(rev, env) && Pumps(loop, rev)
      modifies this
      ensures (Model(), total) == loop(old(Model()), s)
    {
      ghost var d := Model();
      ghost var whole := loop(d, s);
      total := 0;
      HeadingStarts(loop, s, d);
      while true
        invariant total <= |s| && d == Model()
        invariant Heading(loop, s, d, total, whole)
        decreases |s| - total
      {
        var n := NextPacket(env, s[total..], rev, loop);
        ghost var e := Model();
        if n == 0 {
          return;
        }
        HeadingStays(loop, s, d, total, e, n, whole);
        d := e;
        total := total + n;
      }
    }

    /** Splits the buffer into packets and hands them over; returns the bytes consumed. */
    method OnRawRecv(env: E.Env, s: seq<byte>) returns (total: nat)
      requires Valid()
      modifies this
      ensures Valid() && (Model(), total) == E.OnRawRecv(env, old(Model()), s)
    {
      ghost var c, rev := Model(), E.RevPacketIn(env);
      total := Drain(env, s, rev, (d, t) => E.Pump(rev, d, t));
      OnRawRecvInv(env, c, s);
    }

    method OnWaitFirstMsgTimeOut()
      requires Valid() && firstTm
      modifies this
      ensures Valid() && Model() == E.Fired(old(Model()), E.FirstTimer)
    {
      firstTm, connected := false, false;
    }

    /** Its assertion is the first statement: a verdict is still awaited. */
    method OnVerifyTimeOut()
      requires Valid() && verifyTm
      modifies this
      ensures Valid() && Model() == E.Fired(old(Model()), E.VerifyTimer)
    {
      assert state == E.WaitVerify;
      verifyTm, connected := false, false;
    }

    method OnHeartbeatTimeOut()
      requires Valid() && heartTm
      modifies this
      ensures Valid() && Model() == E.Fired(old(Model()), E.HeartTimer)
    {
      heartTm, connected := false, false;
    }
  }

  // ---- messages of the servers, after the client was found ------------------------------

  method HandleVerifyRet(env: E.Env, con: ExternalSvrCon, req: VerifyRet, addr: seq<byte>)
    requires con.Valid() && E.Finds(con.Model(), req, addr)
    modifies con
    ensures con.Valid() && con.Model() == E.HandleVerifyRet(env, old(con.Model()), req, addr)
  {
    var rsp := req.rsp;
    var text := Span(rsp.msg, rsp.len);
    assert text[..rsp.len] == text;
    SpokenInv(con.Model(), E.ToClient(E.Answer, E.ClientPack(rsp.cmd, text)));
    con.SendMsg(E.Answer, rsp.cmd, text, rsp.len);
    if !req.success {
      return;
    }
    var verified := con.IsVerify();
    if verified {
      return;
    }
    con.SetVerify(req.success);
    if |req.accName| >= MAX_NAME_LEN + 1 {
      return;
    }
    con.Tell(E.Announced(E.Registered(env), E.CreatePack(req.cid, req.uin, req.accName, addr)));
  }

  method HandleForward(con: ExternalSvrCon, cmd: U32, msg: seq<byte>, len: U16)
    requires con.Valid() && len <= |msg|
    modifies con
    ensures con.Valid() && con.Model() == E.HandleForward(old(con.Model()), cmd, msg[..len])
  {
    var verified := con.IsVerify();
    if !verified {
      return;
    }
    SpokenInv(con.Model(), E.ToClient(E.Relay, E.ClientPack(cmd, msg[..len])));
    con.SendMsg(E.Relay, cmd, msg, len);
  }

  method HandleSetActiveSvr(con: ExternalSvrCon, from: U16, grp: U16, svr: U16)
    requires con.Valid()
    modifies con
    ensures con.Valid() && con.Model() == E.HandleSetActiveSvr(old(con.Model()), from, grp, svr)
  {
    var verified := con.IsVerify();
    if !verified {
      return;
    }
    con.SetActiveSvrId(grp, svr);
    con.Tell(E.Replied(from, E.ActivePack(con.cid, svr, grp)));
  }

  method HandleCacheMsg(env: E.Env, con: ExternalSvrCon, from: U16, on: bool)
    requires con.Valid()
    modifies con
    ensures con.Valid() && con.Model() == E.HandleCacheMsg(env, old(con.Model()), from, on)
  {
    var verified := con.IsVerify();
    if !verified {
      return;
    }
    con.Tell(E.Replied(from, E.CacheRspPack(con.cid, on)));
    con.SetCache(env, on);
  }

  method HandleBroadcastUin(env: E.Env, con: ExternalSvrCon, from: U16, uin: U64)
    requires con.Valid()
    modifies con
    ensures con.Valid() && con.Model() == E.HandleBroadcastUin(env, old(con.Model()), from, uin)
  {
    con.SetUin(uin);
    con.Tell(E.UinTold(E.Registered(env) - {from}, E.UinPack(con.cid, uin)));
  }

  method RevertSession(con: ExternalSvrCon, to: U16, junk: seq<byte>, addr: seq<byte>)
    requires con.Valid() && |junk| == 21 && |addr| == 16
    modifies con
    ensures con.Valid() && con.Model() == E.RevertSession(old(con.Model()), to, junk, addr)
  {
    var verified := con.IsVerify();
    if verified {
      con.Tell(E.Recovered(to, E.CreateBytes(con.cid, con.uin, junk, addr)));
    }
  }

  /** The destructor. */
  method Destroy(env: E.Env, con: ExternalSvrCon)
    requires con.Valid()
    modifies con
    ensures con.Valid() && con.Model() == E.Destroyed(env, old(con.Model()))
  {
    var verified := con.IsVerify();
    if verified {
      con.Tell(E.Left(E.Registered(env), E.DisconPack(con.cid)));
    }
  }
}
