/** From the bytes of a client to the callbacks of a business server, through the framing, the
    routing, the wire codec and the driver. */
module EndToEnd {
  import opened Bytes
  import opened Proto
  import opened Framing
  import opened ExternalCon
  import opened ExternalRuns
  import opened Chunking
  import opened ClientStream
  import opened ClientTrace
  import D = Driver
  import DriverRuns

  // ---- what a verified client's packets turn into ---------------------------------------

  /** Which packs are looked at: those that forward packets, or everything a server is sent. */
  datatype Scope = Forwards | Everything

  function PackFor(e: Entry, me: U16, w: Scope): seq<seq<byte>> {
    match e
    case Forwarded(svr, pack) => if svr == me then [pack] else []
    case VerifyReq(svr, pack) => if w.Everything? && svr == me then [pack] else []
    case Replied(to, pack) => if w.Everything? && to == me then [pack] else []
    case Recovered(to, pack) => if w.Everything? && to == me then [pack] else []
    case UinTold(to, pack) => if w.Everything? && me in to then [pack] else []
    case Announced(to, pack) => if w.Everything? && me in to then [pack] else []
    case Left(to, pack) => if w.Everything? && me in to then [pack] else []
    case _ => []
  }

  /** The packs sent to one server, in order. */
  function PacksTo(log: seq<Entry>, me: U16, w: Scope): seq<seq<byte>>
    decreases |log|
  {
    if log == [] then [] else PacksTo(log[..|log| - 1], me, w) + PackFor(log[|log| - 1], me, w)
  }

  lemma PacksSnoc(log: seq<Entry>, e: Entry, me: U16, w: Scope)
    ensures PacksTo(log + [e], me, w) == PacksTo(log, me, w) + PackFor(e, me, w)
  {
    SnocParts(log, e);
  }

  /** The packs that carrying out some fates sends to one server. */
  function PackOf(f: Fate, me: U16): seq<seq<byte>> {
    if f.Sent? && f.svr == me then [f.pack] else []
  }

  function PacksOf(fs: seq<Fate>, me: U16): seq<seq<byte>>
    decreases |fs|
  {
    if fs == [] then [] else PacksOf(fs[..|fs| - 1], me) + PackOf(fs[|fs| - 1], me)
  }

  lemma EntryPacks(log: seq<Entry>, f: Fate, me: U16, w: Scope)
    ensures PacksTo(log + EntryOf(f), me, w) == PacksTo(log, me, w) + PackOf(f, me)
  {
    if f.Sent? {
      assert EntryOf(f) == [Forwarded(f.svr, f.pack)];
      PacksSnoc(log, Forwarded(f.svr, f.pack), me, w);
    } else {
      AppendNil(PacksTo(log, me, w));
      if f.Beat? {
        assert EntryOf(f) == [ToClient(Echo, f.pack)];
        PacksSnoc(log, ToClient(Echo, f.pack), me, w);
      } else {
        AppendNil(log);
      }
    }
  }

  lemma CarriedPacks(c: Con, f: Fate, me: U16, w: Scope)
    ensures PacksTo(Carried(c, f).log, me, w) == PacksTo(c.log, me, w) + PackOf(f, me)
  {
    CarriedLog(c, f);
    EntryPacks(c.log, f, me, w);
  }

  lemma {:induction false} CarriedAllPacks(c: Con, fs: seq<Fate>, me: U16, w: Scope)
    ensures PacksTo(CarriedAll(c, fs).log, me, w) == PacksTo(c.log, me, w) + PacksOf(fs, me)
    decreases |fs|
  {
    if fs == [] {
      AppendNil(PacksTo(c.log, me, w));
    } else {
      var n := |fs| - 1;
      CarriedAllPacks(c, fs[..n], me, w);
      CarriedPacks(CarriedAll(c, fs[..n]), fs[n], me, w);
      Assoc(PacksTo(c.log, me, w), PacksOf(fs[..n], me), PackOf(fs[n], me));
    }
  }

  /** Handing packets over leaves a verified connection as far as routing and caching look at it. */
  predicate VerifiedAs(c: Con, d: Con) {
    d.phase.Verifyed? && d.k == c.k && d.cid == c.cid && d.routes == c.routes && d.caching == c.caching
  }

  /** What handing over one more packet does to a verified connection. */
  lemma RevVerified(env: Env, c: Con, p: seq<byte>, me: U16, w: Scope)
    requires c.phase.Verifyed?
    ensures var d := RevPacket(env, c, p);
            && VerifiedAs(c, d)
            && d.cache == (if c.caching then c.cache + [p] else c.cache)
            && PacksTo(d.log, me, w) == PacksTo(c.log, me, w) + PackOf(ClientFate(env, c.k, c.cid, c.routes, p), me)
  {
    var f := ClientFate(env, c.k, c.cid, c.routes, p);
    PacksSnoc(c.log, Dispatched(p), me, w);
    AppendNil(PacksTo(c.log, me, w));
    CarriedKept(Noted(c, p), f);
    CarriedPacks(Noted(c, p), f, me, w);
  }

  lemma RevOne(h: Handling, c: Con, p: seq<byte>)
    ensures RevAll(h, c, [p]) == h.rev(c, p)
  {
    var ps := [p];
    assert RevAll(h, h.rev(c, p), ps[1..]) == h.rev(c, p);
  }

  lemma RevAllSnoc(h: Handling, c: Con, ps: seq<seq<byte>>)
    requires ps != []
    ensures RevAll(h, c, ps) == h.rev(RevAll(h, c, ps[..|ps| - 1]), ps[|ps| - 1])
  {
    var n := |ps| - 1;
    assert ps == ps[..n] + [ps[n]];
    RevAllAppend(h, c, ps[..n], [ps[n]]);
    RevOne(h, RevAll(h, c, ps[..n]), ps[n]);
  }

  lemma LastAppended<T>(a: seq<T>, b: seq<T>)
    requires b != []
    ensures (a + b[..|b| - 1]) + [b[|b| - 1]] == a + b
  {
  }

  lemma {:induction false} RevAllState(env: Env, c: Con, ps: seq<seq<byte>>)
    requires c.phase.Verifyed?
    ensures VerifiedAs(c, RevAll(Client(env), c, ps))
    ensures RevAll(Client(env), c, ps).cache == if c.caching then c.cache + ps else c.cache
    decreases |ps|
  {
    if ps == [] {
      AppendNil(c.cache);
    } else {
      var n := |ps| - 1;
      RevAllState(env, c, ps[..n]);
      RevAllSnoc(Client(env), c, ps);
      RevVerified(env, RevAll(Client(env), c, ps[..n]), ps[n], 0, Forwards);
      LastAppended(c.cache, ps);
    }
  }

  lemma FatesSnoc(env: Env, c: Con, ps: seq<seq<byte>>)
    requires ps != []
    ensures var n := |ps| - 1;
            && Fates(env, c, ps)[..n] == Fates(env, c, ps[..n])
            && Fates(env, c, ps)[n] == ClientFate(env, c.k, c.cid, c.routes, ps[n])
  {
  }

  lemma {:induction false} RevAllPacks(env: Env, c: Con, ps: seq<seq<byte>>, me: U16, w: Scope)
    requires c.phase.Verifyed?
    ensures PacksTo(RevAll(Client(env), c, ps).log, me, w) == PacksTo(c.log, me, w) + PacksOf(Fates(env, c, ps), me)
    decreases |ps|
  {
    if ps == [] {
      AppendNil(PacksTo(c.log, me, w));
    } else {
      var n := |ps| - 1;
      RevAllState(env, c, ps[..n]);
      RevAllPacks(env, c, ps[..n], me, w);
      RevAllSnoc(Client(env), c, ps);
      RevVerified(env, RevAll(Client(env), c, ps[..n]), ps[n], me, w);
      FatesSnoc(env, c, ps);
      Assoc(PacksTo(c.log, me, w), PacksOf(Fates(env, c, ps[..n]), me), PackOf(Fates(env, c, ps)[n], me));
    }
  }

  // ---- what the driver makes of them ----------------------------------------------------

  /** Lengths that fit a 16-bit field. */
  predicate Sized(ps: seq<seq<byte>>) {
    forall i :: 0 <= i < |ps| ==> |ps[i]| < 0x1_0000
  }

  /** Packs arriving on connection i, t being whatever the receive buffer holds behind them. */
  function Arrivals(i: nat, packs: seq<seq<byte>>, t: seq<byte>): (es: seq<D.Event>)
    requires Sized(packs)
    ensures |es| == |packs|
  {
    seq(|packs|, j requires 0 <= j < |packs| => D.Recv(i, packs[j] + t, |packs[j]|))
  }

  /** A client with an open session on a registered connection of the driver. */
  predicate Serves(m: D.Mgr, i: nat, cid: U64) {
    i < |m.cons| && m.cons[i].connected && m.cons[i].isReg && cid in m.cons[i].sessions
  }

  /** A forwarded packet is handed to the user unchanged exactly when it has at most 4081
      bytes: the 14 bytes of the inner header count against the outer limit of 4096. */
  lemma ForwardReachesUser(d: D.DCon, svrId: U16, cid: U64, cmd: U32, p: seq<byte>, t: seq<byte>)
    requires d.isReg && cid in d.sessions && cmd != 0 && 4 <= |p| < 4096
    ensures var f := Forward(cid, cmd, |p|, At(p));
            var pack := AsWire(CMD_NTF_FORWARD, ForwardWire(f));
            && D.Received(pack + t, |pack|)
            && D.OnRecv(d, svrId, pack + t, |pack|) ==
               if |p| <= 4081 then D.Tell(d, D.ClientText(d.sessions[cid], cmd, p)) else D.Nothing(d)
  {
    var f := Forward(cid, cmd, |p|, At(p));
    AsRoundTrip(CMD_NTF_FORWARD, ForwardWire(f), t);
    if |p| <= 4081 {
      ForwardRoundTrip(f, t);
      assert p[..|p|] == p;
    }
  }

  /** A packet that is forwarded to server `me`: 4 to 4095 bytes, a command that is neither 0
      nor the heartbeat, and a route to `me`, which is registered. */
  predicate ForwardedTo(env: Env, c: Con, me: U16, p: seq<byte>) {
    4 <= |p| <= 4095 &&
    var cmd := CharToU32(c.k, p[0]);
    && cmd != 0 && (env.seting.hbi.reqCmd == 0 || cmd != env.seting.hbi.reqCmd)
    && ChooseSvr(env, c.routes, cmd % 0x1_0000) == me && me != 0
    && me in env.svrs && env.svrs[me]
  }

  /** One that ends up with its user: it may not have more than 4081 bytes. */
  predicate Deliverable(env: Env, c: Con, me: U16, p: seq<byte>) {
    ForwardedTo(env, c, me, p) && |p| <= 4081
  }

  function TextOf(env: Env, c: Con, me: U16, s: D.Session, p: seq<byte>): seq<D.Call> {
    if Deliverable(env, c, me, p) then [D.ClientText(s, CharToU32(c.k, p[0]), p)] else []
  }

  function Texts(env: Env, c: Con, me: U16, s: D.Session, ps: seq<seq<byte>>): seq<D.Call>
    decreases |ps|
  {
    if ps == [] then [] else Texts(env, c, me, s, ps[..|ps| - 1]) + TextOf(env, c, me, s, ps[|ps| - 1])
  }

  /** What is sent for a packet, and for which packets. */
  lemma SentPack(env: Env, c: Con, me: U16, p: seq<byte>)
    requires |p| < 0x1_0000
    ensures PackOf(ClientFate(env, c.k, c.cid, c.routes, p), me) ==
            if ForwardedTo(env, c, me, p) then [WrapPack(CMD_NTF_FORWARD, c.cid, CharToU32(c.k, p[0]), p)] else []
    ensures Sized(PackOf(ClientFate(env, c.k, c.cid, c.routes, p), me))
  {
  }

  /** A message on a registered connection that at most speaks to the user. */
  lemma ArrivalStep(m: D.Mgr, i: nat, mem: seq<byte>, len: U16, calls: seq<D.Call>)
    requires i < |m.cons| && m.cons[i].connected && D.Received(mem, len)
    requires var r := D.OnRecv(m.cons[i], m.svrId, mem, len);
             && r.con == m.cons[i] && r.news.NoNews? && calls == (if r.call.Some? then [r.call.value] else [])
    ensures D.Step(m, D.Recv(i, mem, len)) == m.(calls := m.calls + calls)
  {
    assert m.cons[i := m.cons[i]] == m.cons;
    AppendNil(m.calls);
  }

  lemma PackReachesUser(env: Env, c: Con, m: D.Mgr, i: nat, me: U16, p: seq<byte>, t: seq<byte>)
    requires Serves(m, i, c.cid) && |p| < 0x1_0000
    requires PackOf(ClientFate(env, c.k, c.cid, c.routes, p), me) != []
    ensures var pack := PackOf(ClientFate(env, c.k, c.cid, c.routes, p), me)[0];
            && |pack| < 0x1_0000
            && D.Step(m, D.Recv(i, pack + t, |pack|)) ==
               m.(calls := m.calls + TextOf(env, c, me, m.cons[i].sessions[c.cid], p))
  {
    var cmd := CharToU32(c.k, p[0]);
    var pack := WrapPack(CMD_NTF_FORWARD, c.cid, cmd, p);
    SentPack(env, c, me, p);
    ForwardReachesUser(m.cons[i], m.svrId, c.cid, cmd, p, t);
    ArrivalStep(m, i, pack + t, |pack|, TextOf(env, c, me, m.cons[i].sessions[c.cid], p));
  }

  /** Every pack sent to a server is short enough to arrive. */
  lemma {:induction false} PacksFit(env: Env, c: Con, me: U16, ps: seq<seq<byte>>)
    requires Sized(ps)
    ensures Sized(PacksOf(Fates(env, c, ps), me))
    decreases |ps|
  {
    if ps != [] {
      var n := |ps| - 1;
      PacksFit(env, c, me, ps[..n]);
      FatesSnoc(env, c, ps);
      SentPack(env, c, me, ps[n]);
    }
  }

  lemma ArrivalsSnoc(i: nat, packs: seq<seq<byte>>, t: seq<byte>, m: D.Mgr)
    requires packs != [] && Sized(packs)
    ensures var n := |packs| - 1;
            D.Run(m, Arrivals(i, packs, t)) ==
            D.Step(D.Run(m, Arrivals(i, packs[..n], t)), D.Recv(i, packs[n] + t, |packs[n]|))
  {
    var n := |packs| - 1;
    assert Arrivals(i, packs, t)[..n] == Arrivals(i, packs[..n], t);
  }

  lemma NextReachesUser(env: Env, c: Con, m: D.Mgr, i: nat, me: U16, some: seq<seq<byte>>, calls: seq<D.Call>, p: seq<byte>, t: seq<byte>)
    requires Serves(m, i, c.cid) && Sized(some) && |p| < 0x1_0000
    requires D.Run(m, Arrivals(i, some, t)) == m.(calls := calls)
    ensures var last := PackOf(ClientFate(env, c.k, c.cid, c.routes, p), me);
            && Sized(some + last)
            && D.Run(m, Arrivals(i, some + last, t)) ==
               m.(calls := calls + TextOf(env, c, me, m.cons[i].sessions[c.cid], p))
  {
    var last := PackOf(ClientFate(env, c.k, c.cid, c.routes, p), me);
    SentPack(env, c, me, p);
    if last == [] {
      AppendNil(some);
      AppendNil(calls);
    } else {
      SnocParts(some, last[0]);
      ArrivalsSnoc(i, some + last, t, m);
      PackReachesUser(env, c, m.(calls := calls), i, me, p, t);
    }
  }

  /** All the packs of a list of packets, arriving in order. */
  lemma {:induction false} PacksReachUser(env: Env, c: Con, m: D.Mgr, i: nat, me: U16, ps: seq<seq<byte>>, t: seq<byte>)
    requires Serves(m, i, c.cid) && Sized(ps)
    ensures Sized(PacksOf(Fates(env, c, ps), me))
    ensures D.Run(m, Arrivals(i, PacksOf(Fates(env, c, ps), me), t)) ==
            m.(calls := m.calls + Texts(env, c, me, m.cons[i].sessions[c.cid], ps))
    decreases |ps|
  {
    if ps == [] {
      AppendNil(m.calls);
    } else {
      var n := |ps| - 1;
      var s := m.cons[i].sessions[c.cid];
      var texts := Texts(env, c, me, s, ps[..n]);
      FatesSnoc(env, c, ps);
      PacksFit(env, c, me, ps[..n]);
      PacksReachUser(env, c, m, i, me, ps[..n], t);
      NextReachesUser(env, c, m, i, me, PacksOf(Fates(env, c, ps[..n]), me), m.calls + texts, ps[n], t);
      Assoc(m.calls, texts, TextOf(env, c, me, s, ps[n]));
    }
  }

  // ---- main results -------------------------------------------------------------------

  lemma {:induction false} FramesAreSized(k: CharKind, strict: bool, ps: seq<seq<byte>>)
    requires ArePackets(k, strict, ps)
    ensures Sized(ps)
  {
    ArePacketsIff(k, strict, ps);
    forall i | 0 <= i < |ps| ensures |ps[i]| < 0x1_0000 {
      assert IsPacket(k, strict, ps[i]);
    }
  }

  /** The packets a verified client's bytes are framed into. */
  function ClientPackets(c: Con, s: seq<byte>): seq<seq<byte>> {
    Frame(c.k, false, s).pkts
  }

  /** What a verified client's bytes make the access server send to server `me`. */
  lemma StreamSends(env: Env, c: Con, s: seq<byte>, me: U16, w: Scope)
    requires c.seeded && c.phase.Verifyed?
    ensures PacksTo(OnRawRecv(env, c, s).0.log, me, w) ==
            PacksTo(c.log, me, w) + PacksOf(Fates(env, c, ClientPackets(c, s)), me)
  {
    ClientUniform(env);
    PumpIsFrame(Client(env), c, s);
    RevAllPacks(env, c, ClientPackets(c, s), me, w);
  }

  /** End-to-end transparency. One receive event of a verified client: what it sends to server
      `me` makes that server's driver call its user with exactly the deliverable packets, each
      with the client's session, its first byte as command and all its bytes, in order. */
  lemma StreamReachesUser(env: Env, c: Con, s: seq<byte>, me: U16, w: Scope, m: D.Mgr, i: nat, t: seq<byte>)
    requires c.seeded && c.phase.Verifyed? && Serves(m, i, c.cid)
    ensures var ps := ClientPackets(c, s);
            var packs := PacksOf(Fates(env, c, ps), me);
            && PacksTo(OnRawRecv(env, c, s).0.log, me, w) == PacksTo(c.log, me, w) + packs
            && Sized(packs)
            && D.Run(m, Arrivals(i, packs, t)) ==
               m.(calls := m.calls + Texts(env, c, me, m.cons[i].sessions[c.cid], ps))
  {
    StreamSends(env, c, s, me, w);
    FrameSplits(c.k, false, s);
    FramesAreSized(c.k, false, ClientPackets(c, s));
    PacksReachUser(env, c, m, i, me, ClientPackets(c, s), t);
  }

  /** No packet that is forwarded to server `me`. */
  predicate NothingFor(env: Env, c: Con, me: U16, ps: seq<seq<byte>>) {
    forall j :: 0 <= j < |ps| ==> !ForwardedTo(env, c, me, ps[j])
  }

  predicate Spared(fs: seq<Fate>, me: U16) {
    forall j :: 0 <= j < |fs| ==> PackOf(fs[j], me) == []
  }

  lemma SparedSnoc(fs: seq<Fate>, f: Fate, me: U16)
    ensures Spared(fs + [f], me) <==> Spared(fs, me) && PackOf(f, me) == []
  {
    var gs := fs + [f];
    if Spared(gs, me) {
      assert gs[|fs|] == f;
      assert forall j :: 0 <= j < |fs| ==> gs[j] == fs[j];
    }
  }

  lemma {:induction false} NoPacks(fs: seq<Fate>, me: U16)
    ensures PacksOf(fs, me) == [] <==> Spared(fs, me)
    decreases |fs|
  {
    if fs != [] {
      var n := |fs| - 1;
      NoPacks(fs[..n], me);
      BothEmpty(PacksOf(fs[..n], me), PackOf(fs[n], me));
      SparedSnoc(fs[..n], fs[n], me);
      assert fs[..n] + [fs[n]] == fs;
    }
  }

  lemma NothingForMeans(env: Env, c: Con, me: U16, ps: seq<seq<byte>>)
    requires Sized(ps)
    ensures NothingFor(env, c, me, ps) <==> PacksOf(Fates(env, c, ps), me) == []
  {
    var fs := Fates(env, c, ps);
    NoPacks(fs, me);
    forall j | 0 <= j < |ps| ensures PackOf(fs[j], me) == [] <==> !ForwardedTo(env, c, me, ps[j]) {
      SentPack(env, c, me, ps[j]);
    }
  }

  lemma FlushedPacks(env: Env, c: Con, me: U16, w: Scope)
    ensures PacksTo(SetCache(env, c, false).log, me, w) == PacksTo(c.log, me, w) + PacksOf(Fates(env, c, c.cache), me)
  {
    var fs := Fates(env, c, c.cache);
    var d := CarriedAll(c, fs);
    CarriedAllPacks(c, fs, me, w);
    PacksSnoc(d.log, CacheSet(false), me, w);
    AppendNil(PacksTo(d.log, me, w));
  }

  /** A heartbeat stays with the access server: no server is sent anything, the client is
      answered with the configured command alone, and its timer runs anew. */
  lemma HeartBeatStays(env: Env, c: Con, p: seq<byte>, me: U16, w: Scope)
    requires c.phase.Verifyed? && |p| >= 4 && CharToU32(c.k, p[0]) == env.seting.hbi.reqCmd != 0
    ensures var d := RevPacket(env, c, p);
            && PacksTo(d.log, me, w) == PacksTo(c.log, me, w) && d.heartTm && d.connected == c.connected
            && |d.log| == |c.log| + 2 && d.log[|c.log| + 1].ToClient?
            && var pack := d.log[|c.log| + 1].pack;
            |pack| == 4 && LeVal(pack) == env.seting.hbi.rspCmd
  {
    RevVerified(env, c, p, me, w);
    AppendNil(PacksTo(c.log, me, w));
    Widths();
    LeValOfLe(env.seting.hbi.rspCmd, 4);
    AppendNil(Le(env.seting.hbi.rspCmd, 4));
  }

  // ---- settings -------------------------------------------------------------------------

  /** In every run of a driver with a server id: what each connected access server was last
      sent as settings is read there as exactly the settings stored in the driver, if and only
      if the text for refused clients has at most 4067 bytes. */
  lemma SettingsReachServers(es: seq<D.Event>, m: D.Mgr, i: nat, t: seq<byte>)
    requires m == D.Run(D.EMPTY, es) && i < |m.cons| && m.cons[i].connected && m.svrId != 0
    requires m.seting.Some? && 2 + |SetingWire(m.seting.value)| < 0x1_0000
    ensures var last := DriverRuns.LastSeting(m.cons[i].sent);
            && last.Some?
            && 2 + |last.value| < 0x1_0000
            && var outer := ParseAs(At(AsWire(CMD_REQ_ACC_SETING, last.value) + t), 2 + |last.value|);
            && (outer.Ok? <==> |m.seting.value.cli.rspMsg| <= 4067)
            && (outer.Ok? ==> ParseSeting(outer.value.msg, outer.value.len) == Ok(m.seting.value))
  {
    DriverRuns.SettingsConverge(es, m);
    SetingDelivered(m.seting.value, t);
  }

  // ---- the bytes of a pack ----------------------------------------------------------------

  lemma WrapParts(a: seq<byte>, b: seq<byte>, c: seq<byte>, d: seq<byte>, p: seq<byte>)
    requires |a| == 2 && |b| == 8 && |c| == 4 && |d| == 2
    ensures var s := a + (b + (c + (d + p)));
            |s| == 16 + |p| && s[..2] == a && s[2..10] == b && s[10..14] == c && s[14..16] == d && s[16..] == p
  {
  }

  /** Any packet that is sent to a server is read there, byte by byte, as the client's id, the
      packet's first byte as command (sign-extended where char is signed), its length, and all of it. */
  lemma PackSays(env: Env, c: Con, p: seq<byte>, pack: seq<byte>)
    requires |p| < 0x1_0000 && PacketFate(env, c, p).Sent? && pack == PacketFate(env, c, p).pack
    ensures |pack| == 16 + |p| && 4 <= |p| < 4096
    ensures LeVal(pack[..2]) == if c.phase.Init? then CMD_NTF_VERIFY_REQ else CMD_NTF_FORWARD
    ensures LeVal(pack[2..10]) == c.cid && LeVal(pack[14..16]) == |p| && pack[16..] == p
    ensures LeVal(pack[10..14]) == if c.k.SignedChar? && p[0] >= 0x80 then 0xFFFF_FF00 + p[0] as int else p[0] as int
  {
    var outer := if c.phase.Init? then CMD_NTF_VERIFY_REQ else CMD_NTF_FORWARD;
    var cmd := CharToU32(c.k, p[0]);
    assert p[..|p|] == p;
    assert pack == Le(outer, 2) + (Le(c.cid, 8) + (Le(cmd, 4) + (Le(|p|, 2) + p)));
    WrapParts(Le(outer, 2), Le(c.cid, 8), Le(cmd, 4), Le(|p|, 2), p);
    Widths();
    LeValOfLe(outer, 2);
    LeValOfLe(c.cid, 8);
    LeValOfLe(cmd, 4);
    LeValOfLe(|p|, 2);
  }

  // ---- the other messages ---------------------------------------------------------------

  lemma AskFateMeans(env: Env, c: Con, p: seq<byte>)
    requires c.phase.Init? && env.verifySvr.Some? && |p| < 0x1_0000
    ensures var f := PacketFate(env, c, p);
            && (f.Sent? <==> 4 <= |p| < 4096 && CharToU32(c.k, p[0]) != 0)
            && (f.Sent? ==>
                && f.svr == env.verifySvr.value
                && f.pack == AsWire(CMD_NTF_VERIFY_REQ, ForwardWire(Forward(c.cid, CharToU32(c.k, p[0]), |p|, At(p)))))
  {
  }

  /** The first packet of a client, sent to a verify server, is put to its user with the
      client's id, its first byte as command and all its bytes, up to the same length; it
      needs no session. */
  lemma FirstPacketAsked(env: Env, c: Con, p: seq<byte>, d: D.DCon, svrId: U16, t: seq<byte>)
    requires c.phase.Init? && env.verifySvr.Some? && d.isReg && |p| < 0x1_0000
    requires 4 <= |p| < 4096 && CharToU32(c.k, p[0]) != 0
    ensures var f := PacketFate(env, c, p);
            && f.Sent? && f.svr == env.verifySvr.value
            && |f.pack| < 0x1_0000 && D.Received(f.pack + t, |f.pack|)
            && D.OnRecv(d, svrId, f.pack + t, |f.pack|) ==
               if |p| <= 4081 then D.Tell(d, D.VerifyAsked(d.accId, c.cid, CharToU32(c.k, p[0]), p))
               else D.Nothing(d)
  {
    AskFateMeans(env, c, p);
    AskReachesUser(d, svrId, c.cid, CharToU32(c.k, p[0]), p, t);
  }

  lemma AskReachesUser(d: D.DCon, svrId: U16, cid: U64, cmd: U32, p: seq<byte>, t: seq<byte>)
    requires d.isReg && cmd != 0 && 4 <= |p| < 4096
    ensures var f := Forward(cid, cmd, |p|, At(p));
            var pack := AsWire(CMD_NTF_VERIFY_REQ, ForwardWire(f));
            && D.Received(pack + t, |pack|)
            && D.OnRecv(d, svrId, pack + t, |pack|) ==
               if |p| <= 4081 then D.Tell(d, D.VerifyAsked(d.accId, cid, cmd, p)) else D.Nothing(d)
  {
    var f := Forward(cid, cmd, |p|, At(p));
    AsRoundTrip(CMD_NTF_VERIFY_REQ, ForwardWire(f), t);
    if |p| <= 4081 {
      ForwardRoundTrip(f, t);
      assert p[..|p|] == p;
    }
  }

  /** A fixed-size message is read as the bytes it was sent as, and only as a message of
      exactly their number. */
  lemma CtrlArrives(cmd: U16, body: seq<byte>, t: seq<byte>) returns (a: AsMsg)
    requires |body| < 4096
    ensures a.cmd == cmd && a.len == |body| && Readable(a.msg, a.len)
    ensures forall size: nat :: D.Ctrl(a, size) == if size == |body| then Some(body) else None
    ensures ParseAs(At(AsWire(cmd, body) + t), 2 + |body|) == Ok(a)
  {
    AsRoundTrip(cmd, body, t);
    a := AsMsg(cmd, |body|, if |body| == 0 then Null else At(body + t));
    assert (body + t)[..|body|] == body;
  }

  /** A registration answer registers the connection exactly when it repeats the server's id
      and the connection is not registered yet; zero means refused. */
  lemma RegAnswerRegisters(d: D.DCon, svrId: U16, id: U32, t: seq<byte>)
    requires |t| >= 16
    ensures D.OnRecv(d, svrId, AsWire(CMD_RSP_REG, Le(id, 4)) + t, 6) ==
            if d.isReg then D.Nothing(d)
            else if id == 0 then D.Reaction(d, None, D.RegBad)
            else if id == svrId then D.Reaction(d.(isReg := true), None, D.RegOk)
            else D.Nothing(d)
  {
    Widths();
    var a := CtrlArrives(CMD_RSP_REG, Le(id, 4), t);
    assert Le(id, 4)[0..4] == Le(id, 4);
    LeValOfLe(id, 4);
    assert D.HandleMsg(d, svrId, a) == D.HandleRspReg(d, svrId, a);
  }
}
