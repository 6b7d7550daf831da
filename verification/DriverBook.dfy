/** A driver's manager kept account of from the events alone: its connections, its id, whether it
    ended, the settings, and what its user was told about registration and lost servers. */
module DriverBook {
  import opened Bytes
  import opened Proto
  import opened Driver
  import opened DriverRuns

  // ---- one call at a time ---------------------------------------------------------------------

  /** A connection as it is made: not established, not registered, without sessions. */
  predicate IsNew(c: DCon, i: nat, addr: Addr) {
    c.accId == i && c.addr == addr && !c.connected && !c.isReg && c.sessions == map[] && c.sent == []
  }

  /** AddAcc succeeds if and only if the manager did not end, has an id, no connection has the
      address and the attempt succeeds. Then one connection is added behind the others, and nothing
      else changes; otherwise nothing does. */
  lemma AddAccExact(m: Mgr, addr: Addr, ok: bool, n: Mgr, r: bool)
    requires (n, r) == AddAcc(m, addr, ok)
    ensures r <==> !m.fatal && m.svrId != 0 && ok && !exists c :: c in m.cons && c.addr == addr
    ensures r ==> |n.cons| == |m.cons| + 1 && n.cons[..|m.cons|] == m.cons && IsNew(n.cons[|m.cons|], |m.cons|, addr)
    ensures n == m.(cons := n.cons) && (!r ==> n == m)
  {
    if AddAllowed(m, addr) && ok {
      SnocParts(m.cons, NewCon(|m.cons|, addr));
    }
  }

  /** Init may be called on a manager that did not end and has no connection, with one address at
      least and none twice. It connects to one after the other up to the first failure, keeps those
      connections and the id, and succeeds if and only if none failed; otherwise nothing changes. */
  lemma InitExact(m: Mgr, addrs: seq<Addr>, svrId: U16, isVerify: bool, oks: seq<bool>, n: Mgr, r: bool)
    requires |oks| == |addrs| && (n, r) == Init(m, addrs, svrId, isVerify, oks)
    ensures var allowed := !m.fatal && m.cons == [] && addrs != []
                           && forall i, j :: 0 <= i < j < |addrs| ==> addrs[i] != addrs[j];
            && (r <==> allowed && forall i :: 0 <= i < |oks| ==> oks[i])
            && (!allowed ==> n == m)
            && (allowed ==>
                && n == m.(svrId := svrId, isVerify := isVerify, cons := n.cons)
                && |n.cons| <= |addrs| && (forall i :: 0 <= i < |n.cons| ==> oks[i] && IsNew(n.cons[i], i, addrs[i]))
                && (|n.cons| < |addrs| ==> !oks[|n.cons|]))
  {
  }

  // ---- the book -------------------------------------------------------------------------------

  datatype Peer = Peer(addr: Addr, up: bool, reg: bool)

  datatype Book = Book(peers: seq<Peer>, svrId: U16, isVerify: bool, fatal: bool,
                       seting: Option<AccSeting>, told: seq<Call>)

  /** The answer to a registration, if the bytes received are one: the id, 0 if it was refused. */
  function Answer(mem: seq<byte>, len: U16): Option<nat> {
    if len == 6 && |mem| >= 16 && LeVal(mem[..2]) == CMD_RSP_REG then Some(LeVal(mem[2..6])) else None
  }

  /** A connected server that is not registered yet answers the registration: a refusal ends
      everything, the manager's own id registers it, and the first time the user is told. */
  function Answered(b: Book, i: nat, id: nat): Book
    requires i < |b.peers|
  {
    if id == 0 then b.(fatal := true, peers := [], told := b.told + [RegResult(0)])
    else if id != b.svrId then b
    else b.(peers := b.peers[i := b.peers[i].(reg := true)],
            told := if Results(b.told) == [] then b.told + [RegResult(b.svrId)] else b.told)
  }

  function Next(b: Book, e: Event): Book {
    match e
    case InitReq(addrs, svrId, isVerify, oks) =>
      if |oks| == |addrs| && !b.fatal && b.peers == [] && addrs != []
         && (forall i, j :: 0 <= i < j < |addrs| ==> addrs[i] != addrs[j]) then
        b.(svrId := svrId, isVerify := isVerify,
           peers := seq(LeadingTrue(oks), i requires 0 <= i < LeadingTrue(oks) => Peer(addrs[i], false, false)))
      else b
    case AddReq(addr, ok) =>
      if ok && !b.fatal && b.svrId != 0 && forall i :: 0 <= i < |b.peers| ==> b.peers[i].addr != addr then
        b.(peers := b.peers + [Peer(addr, false, false)])
      else b
    case SetingReq(s) => b.(seting := Some(s))
    case FatalReq => b.(fatal := true, peers := [])
    case Up(i) =>
      if i < |b.peers| && !b.peers[i].up then b.(peers := b.peers[i := b.peers[i].(up := true)]) else b
    case Down(i) =>
      if i < |b.peers| then
        b.(peers := b.peers[i := Peer(b.peers[i].addr, false, false)], told := b.told + [AccDiscon(b.peers[i].addr)])
      else b
    case Recv(i, mem, len) =>
      if i < |b.peers| && b.peers[i].up && !b.peers[i].reg && Answer(mem, len).Some? then
        Answered(b, i, Answer(mem, len).value)
      else b
  }

  function BookOf(es: seq<Event>): Book
    decreases |es|
  {
    if es == [] then Book([], 0, false, false, None, []) else Next(BookOf(es[..|es| - 1]), es[|es| - 1])
  }

  // ---- a manager as the book says ----------------------------------------------------------------

  /** Callbacks about no client: results of the registration, servers lost. */
  function Public(calls: seq<Call>): seq<Call>
    decreases |calls|
  {
    if calls == [] then []
    else
      var last := calls[|calls| - 1];
      Public(calls[..|calls| - 1]) + (if last.RegResult? || last.AccDiscon? then [last] else [])
  }

  lemma PublicSnoc(calls: seq<Call>, call: Call)
    ensures Public(calls + [call]) == Public(calls) + (if call.RegResult? || call.AccDiscon? then [call] else [])
  {
    SnocParts(calls, call);
  }

  lemma {:induction false} PublicResults(calls: seq<Call>)
    ensures Results(Public(calls)) == Results(calls)
    decreases |calls|
  {
    if calls != [] {
      var before, last := calls[..|calls| - 1], calls[|calls| - 1];
      PublicResults(before);
      if last.RegResult? || last.AccDiscon? {
        ResultsSnoc(Public(before), last);
      } else {
        AppendNil(Public(before));
        AppendNil(Results(before));
      }
    }
  }

  function PeerOf(c: DCon): Peer {
    Peer(c.addr, c.connected, c.isReg)
  }

  function Peers(cons: seq<DCon>): (ps: seq<Peer>)
    ensures |ps| == |cons| && forall i :: 0 <= i < |cons| ==> ps[i] == PeerOf(cons[i])
  {
    seq(|cons|, i requires 0 <= i < |cons| => PeerOf(cons[i]))
  }

  function View(m: Mgr): Book {
    Book(Peers(m.cons), m.svrId, m.isVerify, m.fatal, m.seting, Public(m.calls))
  }

  lemma OnePeer(cons: seq<DCon>, i: nat, c: DCon)
    requires i < |cons|
    ensures Peers(cons[i := c]) == Peers(cons)[i := PeerOf(c)]
  {
  }

  lemma SamePeer(cons: seq<DCon>, i: nat, c: DCon)
    requires i < |cons| && PeerOf(c) == PeerOf(cons[i])
    ensures Peers(cons[i := c]) == Peers(cons)
  {
  }

  /** What a message means for the registration. */
  lemma NewsMeans(c: DCon, svrId: U16, mem: seq<byte>, len: U16)
    requires Received(mem, len)
    ensures var r, a := OnRecv(c, svrId, mem, len), Answer(mem, len);
            r.news == if c.isReg || a.None? then NoNews
                      else if a.value == 0 then RegBad else if a.value == svrId then RegOk else NoNews
  {
    if len >= 2 {
      var body := mem[2..];
      Widths();
      assert mem == mem[..2] + body;
      if len == 6 {
        assert body[..4] == mem[2..6];
        assert body[..4][0..4] == body[..4];
      }
    }
  }

  lemma RefusedView(m: Mgr, i: nat, c: DCon)
    requires i < |m.cons|
    ensures var n := m.(cons := m.cons[i := c]);
            View(SetFatal(SetRegResult(n, false))) == Answered(View(m), i, 0)
  {
    PublicSnoc(m.calls, RegResult(0));
  }

  lemma RegisteredView(m: Mgr, i: nat)
    requires Inv(m) && i < |m.cons| && m.svrId != 0
    ensures var n := m.(cons := m.cons[i := m.cons[i].(isReg := true)]);
            View(SetRegResult(n, true)) == Answered(View(m), i, m.svrId)
  {
    OnePeer(m.cons, i, m.cons[i].(isReg := true));
    PublicResults(m.calls);
    PublicSnoc(m.calls, RegResult(m.svrId));
  }

  lemma QuietView(m: Mgr, i: nat, r: Reaction)
    requires i < |m.cons| && Lawful(m.cons[i], m.svrId, r) && r.news.NoNews?
    ensures View(Reacted(m, i, r)) == View(m)
  {
    SamePeer(m.cons, i, r.con);
    if r.call.Some? {
      PublicSnoc(m.calls, r.call.value);
      AppendNil(Public(m.calls));
    }
  }

  lemma RegisteredBy(c: DCon, svrId: U16, mem: seq<byte>, len: U16)
    requires Received(mem, len) && OnRecv(c, svrId, mem, len).news.RegOk?
    ensures OnRecv(c, svrId, mem, len) == Reaction(c.(isReg := true), None, RegOk)
    ensures !c.isReg && svrId != 0
  {
  }

  lemma RefusedBy(c: DCon, svrId: U16, mem: seq<byte>, len: U16)
    requires Received(mem, len) && OnRecv(c, svrId, mem, len).news.RegBad?
    ensures OnRecv(c, svrId, mem, len) == Reaction(c, None, RegBad)
  {
  }

  lemma RecvView(m: Mgr, i: nat, mem: seq<byte>, len: U16)
    requires Inv(m) && Possible(m, Recv(i, mem, len))
    ensures View(Step(m, Recv(i, mem, len))) == Next(View(m), Recv(i, mem, len))
  {
    var c := m.cons[i];
    var r := OnRecv(c, m.svrId, mem, len);
    assert ConOk(m, c, i);
    NewsMeans(c, m.svrId, mem, len);
    OnRecvLawful(c, m.svrId, mem, len);
    match r.news {
      case NoNews => QuietView(m, i, r);
      case RegOk =>
        RegisteredBy(c, m.svrId, mem, len);
        RegisteredView(m, i);
      case RegBad =>
        RefusedBy(c, m.svrId, mem, len);
        RefusedView(m, i, c);
    }
  }

  lemma InitView(m: Mgr, addrs: seq<Addr>, svrId: U16, isVerify: bool, oks: seq<bool>)
    requires |oks| == |addrs|
    ensures View(Init(m, addrs, svrId, isVerify, oks).0) == Next(View(m), InitReq(addrs, svrId, isVerify, oks))
  {
  }

  lemma AddView(m: Mgr, addr: Addr, ok: bool)
    ensures View(AddAcc(m, addr, ok).0) == Next(View(m), AddReq(addr, ok))
  {
    forall i | 0 <= i < |m.cons| ensures View(m).peers[i].addr == m.cons[i].addr {
    }
    if AddAllowed(m, addr) && ok {
      assert Peers(m.cons + [NewCon(|m.cons|, addr)]) == Peers(m.cons) + [Peer(addr, false, false)];
    }
  }

  lemma SetingView(m: Mgr, s: AccSeting)
    ensures View(SetAccSeting(m, s)) == Next(View(m), SetingReq(s))
  {
    assert Peers(SetAccSeting(m, s).cons) == Peers(m.cons);
  }

  lemma UpView(m: Mgr, i: nat)
    requires i < |m.cons| && !m.cons[i].connected
    ensures View(Step(m, Up(i))) == Next(View(m), Up(i))
  {
    OnePeer(m.cons, i, Connected(m, m.cons[i]));
  }

  lemma DownView(m: Mgr, i: nat)
    requires i < |m.cons|
    ensures View(Step(m, Down(i))) == Next(View(m), Down(i))
  {
    OnePeer(m.cons, i, Disconnected(m.cons[i]));
    PublicSnoc(m.calls, AccDiscon(m.cons[i].addr));
  }

  lemma NextView(m: Mgr, e: Event)
    requires Inv(m)
    ensures View(Step(m, e)) == Next(View(m), e)
  {
    if Possible(m, e) {
      match e {
        case InitReq(addrs, svrId, isVerify, oks) => InitView(m, addrs, svrId, isVerify, oks);
        case AddReq(addr, ok) => AddView(m, addr, ok);
        case SetingReq(s) => SetingView(m, s);
        case FatalReq =>
        case Up(i) => UpView(m, i);
        case Down(i) => DownView(m, i);
        case Recv(i, mem, len) => RecvView(m, i, mem, len);
      }
    }
  }

  // ---- main results ------------------------------------------------------------------------------

  /** In every run the manager is as the book says: which connections it has, in which order, which
      of them are established and which registered; its id; whether it ended; the settings; and all
      that the user was told about registration and lost servers, in order. */
  lemma {:induction false} BookInEveryRun(es: seq<Event>)
    ensures View(Run(EMPTY, es)) == BookOf(es)
    decreases |es|
  {
    if es == [] {
      assert Peers([]) == [];
    } else {
      BookInEveryRun(es[..|es| - 1]);
      RunInv(EMPTY, es[..|es| - 1]);
      NextView(Run(EMPTY, es[..|es| - 1]), es[|es| - 1]);
    }
  }

  /** A registration as an access server reads it: four bytes of id, one byte that says if this is
      a verify server. */
  lemma RegistrationReads(svrId: U16, isVerify: bool)
    ensures var pack := RegPack(svrId, isVerify);
            && |pack| == 7 && LeVal(pack[..2]) == CMD_REQ_REG
            && LeVal(pack[2..6]) == svrId && (pack[6] != 0 <==> isVerify)
  {
    var pack := RegPack(svrId, isVerify);
    Widths();
    LeValOfLe(CMD_REQ_REG, 2);
    LeValOfLe(svrId, 4);
    assert pack[..2] == Le(CMD_REQ_REG, 2) && pack[2..6] == Le(svrId, 4);
  }

  lemma AnswerReads(id: seq<byte>, t: seq<byte>)
    requires |id| == 4 && |t| >= 16
    ensures var mem := AsWire(CMD_RSP_REG, id) + t;
            Received(mem, 6) && Answer(mem, 6) == Some(LeVal(id))
  {
    var mem := AsWire(CMD_RSP_REG, id) + t;
    Widths();
    LeValOfLe(CMD_RSP_REG, 2);
    assert mem[..2] == Le(CMD_RSP_REG, 2) && mem[2..6] == id;
  }

  lemma AnsweredResults(b: Book, i: nat, id: nat)
    requires i < |b.peers| && (id == 0 || id == b.svrId)
    ensures var told := Answered(b, i, id).told;
            Results(told) == if id == 0 then Results(b.told) + [0]
                             else if Results(b.told) == [] then [b.svrId] else Results(b.told)
  {
    ResultsSnoc(b.told, RegResult(0));
    ResultsSnoc(b.told, RegResult(b.svrId));
  }

  /** An answer that reaches a connection which waits for it. */
  lemma AnswerTaken(m: Mgr, i: nat, id: U16, mem: seq<byte>, n: Mgr)
    requires Inv(m) && i < |m.cons| && m.cons[i].connected && !m.cons[i].isReg && (id == 0 || id == m.svrId)
    requires Received(mem, 6) && Answer(mem, 6) == Some(id as nat) && n == Step(m, Recv(i, mem, 6))
    ensures Inv(n) && View(n) == Answered(View(m), i, id)
    ensures Results(n.calls) == if id == 0 then Results(m.calls) + [0]
                                else if Results(m.calls) == [] then [m.svrId] else Results(m.calls)
  {
    RecvView(m, i, mem, 6);
    StepInv(m, Recv(i, mem, 6));
    AnsweredResults(View(m), i, id);
    PublicResults(m.calls);
    PublicResults(n.calls);
  }

  /** The handshake. In every run of a driver with an id, what was sent first on an established
      connection is read as the registration of that id. If the access server answers with it, the
      connection is registered, and the user has been told so exactly once; if it answers 0, all
      connections end and the user is told 0. */
  lemma Handshake(es: seq<Event>, m: Mgr, i: nat, accepted: bool, t: seq<byte>, mem: seq<byte>, n: Mgr)
    requires m == Run(EMPTY, es) && i < |m.cons| && m.cons[i].connected && !m.cons[i].isReg && m.svrId != 0
    requires |t| >= 16 && mem == AsWire(CMD_RSP_REG, Le(if accepted then m.svrId else 0, 4)) + t
    requires n == Step(m, Recv(i, mem, 6))
    ensures var sent := m.cons[i].sent;
            sent != [] && |sent[0]| == 7 && LeVal(sent[0][2..6]) == m.svrId && (sent[0][6] != 0 <==> m.isVerify)
    ensures if accepted then Peers(n.cons) == Peers(m.cons)[i := Peer(m.cons[i].addr, true, true)] && Results(n.calls) == [m.svrId]
            else n.fatal && n.cons == [] && Results(n.calls) == Results(m.calls) + [0]
  {
    var id := if accepted then m.svrId else 0;
    Widths();
    LeValOfLe(id, 4);
    RegistersFirst(es, m, i);
    RegistrationReads(m.svrId, m.isVerify);
    AnswerReads(Le(id, 4), t);
    RunInv(EMPTY, es);
    AnswerTaken(m, i, id, mem, n);
  }

  // ---- what every server is sent -----------------------------------------------------------------

  /** The packs that an event makes the driver send to server i: when the connection is established
      its registration and the settings, if there are any, unless it has no id; settings when they are
      given. */
  function EventSends(b: Book, e: Event, i: nat): seq<seq<byte>> {
    if i >= |b.peers| then []
    else if e == Up(i) && !b.peers[i].up && b.svrId != 0 then
      [RegPack(b.svrId, b.isVerify)] + (if b.seting.Some? then [SetingPack(b.seting.value)] else [])
    else if e.SetingReq? && b.peers[i].up then [SetingPack(e.seting)]
    else []
  }

  /** ... since the connection was last established. */
  function SentSince(es: seq<Event>, i: nat): seq<seq<byte>>
    decreases |es|
  {
    if es == [] then []
    else
      var before, e := es[..|es| - 1], es[|es| - 1];
      var b := BookOf(before);
      (if e == Up(i) && i < |b.peers| && !b.peers[i].up then [] else SentSince(before, i)) + EventSends(b, e, i)
  }

  /** A connection that a step leaves where it was. */
  lemma StaysSent(m: Mgr, e: Event, i: nat)
    requires Inv(m) && i < |m.cons| && i < |Step(m, e).cons|
    ensures var sent := Step(m, e).cons[i].sent;
            if e == Up(i) && !m.cons[i].connected then sent == EventSends(View(m), e, i)
            else sent == m.cons[i].sent + EventSends(View(m), e, i)
  {
    AppendNil(m.cons[i].sent);
    match e {
      case Recv(j, mem, len) =>
        if Possible(m, e) {
          assert ConOk(m, m.cons[j], j);
          OnRecvLawful(m.cons[j], m.svrId, mem, len);
        }
      case _ =>
    }
  }

  lemma NewUnsent(m: Mgr, e: Event, i: nat)
    requires Inv(m) && |m.cons| <= i < |Step(m, e).cons|
    ensures Step(m, e).cons[i].sent == [] && EventSends(View(m), e, i) == []
  {
  }

  lemma {:induction false} UnmadeUnsent(es: seq<Event>, i: nat)
    requires i >= |Run(EMPTY, es).cons| && !Run(EMPTY, es).fatal
    ensures SentSince(es, i) == []
    decreases |es|
  {
    if es != [] {
      var before, e := es[..|es| - 1], es[|es| - 1];
      RunInv(EMPTY, before);
      BookInEveryRun(before);
      StillUnmade(Run(EMPTY, before), e, i);
      UnmadeUnsent(before, i);
    }
  }

  lemma StillUnmade(m: Mgr, e: Event, i: nat)
    requires Inv(m) && i >= |Step(m, e).cons| && !Step(m, e).fatal
    ensures i >= |m.cons| && !m.fatal
  {
  }

  /** One more event. */
  lemma SentNext(es: seq<Event>, m: Mgr, i: nat)
    requires es != [] && m == Run(EMPTY, es[..|es| - 1]) && Inv(m) && View(m) == BookOf(es[..|es| - 1])
    requires i < |m.cons| && i < |Run(EMPTY, es).cons| && m.cons[i].sent == SentSince(es[..|es| - 1], i)
    ensures Run(EMPTY, es).cons[i].sent == SentSince(es, i)
  {
    StaysSent(m, es[|es| - 1], i);
  }

  lemma SentFirst(es: seq<Event>, m: Mgr, i: nat)
    requires es != [] && m == Run(EMPTY, es[..|es| - 1]) && Inv(m) && View(m) == BookOf(es[..|es| - 1])
    requires |m.cons| <= i < |Run(EMPTY, es).cons|
    ensures Run(EMPTY, es).cons[i].sent == SentSince(es, i)
  {
    FatalStays(m, es[|es| - 1]);
    UnmadeUnsent(es[..|es| - 1], i);
    NewUnsent(m, es[|es| - 1], i);
  }

  /** In every run each server was sent, since its connection was last established, exactly what the
      events say, pack by pack. */
  lemma {:induction false} SentInEveryRun(es: seq<Event>, i: nat)
    requires i < |Run(EMPTY, es).cons|
    ensures Run(EMPTY, es).cons[i].sent == SentSince(es, i)
    decreases |es|
  {
    var before := es[..|es| - 1];
    var m := Run(EMPTY, before);
    RunInv(EMPTY, before);
    BookInEveryRun(before);
    if i < |m.cons| {
      SentInEveryRun(before, i);
      SentNext(es, m, i);
    } else {
      SentFirst(es, m, i);
    }
  }

  lemma FatalStays(m: Mgr, e: Event)
    requires Inv(m) && Step(m, e).cons != []
    ensures !m.fatal
  {
    if m.fatal {
      FatalStep(m, e);
    }
  }
}
