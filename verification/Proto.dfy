/** Wire grammar of the acc/svr protocol (acc_proto): the value each message carries, the
    bytes it is written as, and what each parser makes of the memory it is handed. */
module Proto {
  import opened Bytes

  const ASMSG_MAX_LEN: U16 := 4096
  const MAX_NAME_LEN: nat := 20

  const CMD_NONE: U16 := 0
  const CMD_RSP_REG: U16 := 2
  const CMD_REQ_REG: U16 := 1
  const CMD_REQ_ACC_SETING: U16 := 3
  const CMD_REQ_VERIFY_RET: U16 := 4
  const CMD_NTF_CREATE_SESSION: U16 := 5
  const CMD_RSP_BROADCAST_UIN: U16 := 7
  const CMD_NTF_VERIFY_REQ: U16 := 8
  const CMD_NTF_FORWARD: U16 := 9
  const CMD_REQ_BROADCAST: U16 := 11
  const CMD_RSP_SET_ACTIVE_SVR: U16 := 14
  const CMD_RSP_CACHE_MSG: U16 := 16
  const CMD_NTF_DISCON: U16 := 19

  /** An address: null, or the memory that can be read from it onwards. */
  datatype Ptr = Null | At(mem: seq<byte>)

  predicate Readable(p: Ptr, n: nat) {
    n == 0 || (p.At? && n <= |p.mem|)
  }

  function Span(p: Ptr, n: nat): (s: seq<byte>)
    requires Readable(p, n)
    ensures |s| == n
  {
    if n == 0 then [] else p.mem[..n]
  }

  /** What a parser does: it fills a value, returns false, or reads past the readable memory. */
  datatype Parsed<+T> = Ok(value: T) | Reject | Fault {
    predicate IsFailure() {
      !Ok?
    }

    function PropagateFailure<U>(): Parsed<U>
      requires IsFailure()
    {
      if Reject? then Reject else Fault
    }

    function Extract(): T
      requires Ok?
    {
      value
    }
  }

  datatype AsMsg = AsMsg(cmd: U16, len: U16, msg: Ptr)
  datatype ClientMsg = ClientMsg(cmd: U32, len: U16, msg: Ptr)
  datatype Forward = Forward(cid: U64, cmd: U32, len: U16, msg: Ptr)
  datatype VerifyRet = VerifyRet(cid: U64, success: bool, uin: U64, accName: seq<byte>, rsp: ClientMsg)
  datatype BroadCast = BroadCast(cids: seq<U64>, msg: ClientMsg)
  datatype HeartBeat = HeartBeat(reqCmd: U32, rspCmd: U32, intervalSec: U32)
  datatype ClientLimit = ClientLimit(maxNum: U32, rspCmd: U32, rspMsg: seq<byte>)
  datatype AccSeting = AccSeting(hbi: HeartBeat, cli: ClientLimit, noMsgSec: U32, defaultGrp: U16)
  datatype Cmd2Grp = Cmd2Grp(grp: U16, cmds: seq<U16>)

  const NO_CLIENT_MSG := ClientMsg(0, 0, Null)

  // ---- cursor reads -------------------------------------------------------------------

  function Take(s: seq<byte>, n: nat): (r: Parsed<(nat, seq<byte>)>)
    ensures r.Ok? <==> n <= |s|
    ensures !r.Reject?
    ensures r.Ok? ==> r.value.0 < Pow256(n) && r.value.1 == s[n..]
  {
    if n <= |s| then Ok((LeVal(s[..n]), s[n..])) else Fault
  }

  function TakeU16(s: seq<byte>): (r: Parsed<(U16, seq<byte>)>)
    ensures !r.Reject?
  {
    Widths();
    var (v, t) :- Take(s, 2); Ok((v, t))
  }

  function TakeU32(s: seq<byte>): (r: Parsed<(U32, seq<byte>)>)
    ensures !r.Reject?
  {
    Widths();
    var (v, t) :- Take(s, 4); Ok((v, t))
  }

  function TakeU64(s: seq<byte>): (r: Parsed<(U64, seq<byte>)>)
    ensures !r.Reject?
  {
    Widths();
    var (v, t) :- Take(s, 8); Ok((v, t))
  }

  function TakeBytes(s: seq<byte>, n: nat): (r: Parsed<(seq<byte>, seq<byte>)>) {
    if n <= |s| then Ok((s[..n], s[n..])) else Fault
  }

  /** A length-prefixed string; the text read is appended to what the destination held. */
  function TakeString(dst: seq<byte>, s: seq<byte>): (r: Parsed<(seq<byte>, seq<byte>)>) {
    var (n, s1) :- TakeU64(s);
    var (text, s2) :- TakeBytes(s1, n);
    Ok((dst + text, s2))
  }

  /** n consecutive w-byte integers. */
  function TakeLes(s: seq<byte>, n: nat, w: nat): (r: Parsed<(seq<nat>, seq<byte>)>)
    ensures !r.Reject?
    ensures r.Ok? ==> |r.value.0| == n && forall i :: 0 <= i < n ==> r.value.0[i] < Pow256(w)
    decreases n
  {
    if n == 0 then Ok(([], s)) else
    var (x, s1) :- Take(s, w);
    var (xs, s2) :- TakeLes(s1, n - 1, w);
    Ok(([x] + xs, s2))
  }

  // ---- parsers ------------------------------------------------------------------------

  function ParseAs(p: Ptr, len: U16): (r: Parsed<AsMsg>) {
    if len == 0 || p.Null? || len < 2 then Reject else
    var (cmd, rest) :- TakeU16(p.mem);
    var n := len - 2;
    if n >= ASMSG_MAX_LEN then Reject
    else Ok(AsMsg(cmd, n, if n == 0 then Null else At(rest)))
  }

  function TakeForward(s: seq<byte>): (r: Parsed<Forward>) {
    var (cid, s1) :- TakeU64(s);
    var (cmd, s2) :- TakeU32(s1);
    var (n, s3) :- TakeU16(s2);
    if n >= ASMSG_MAX_LEN then Reject
    else Ok(Forward(cid, cmd, n, if n == 0 then Null else At(s3)))
  }

  function ParseForward(p: Ptr, len: U16): (r: Parsed<Forward>) {
    if len == 0 || p.Null? || len < 4 then Reject else TakeForward(p.mem)
  }

  function TakeClientMsg(s: seq<byte>): (r: Parsed<ClientMsg>) {
    var (cmd, s1) :- TakeU32(s);
    var (n, s2) :- TakeU16(s1);
    if n >= ASMSG_MAX_LEN then Reject
    else Ok(ClientMsg(cmd, n, if n == 0 then Null else At(s2)))
  }

  function ParseClientMsg(p: Ptr, len: U16): (r: Parsed<ClientMsg>) {
    if len == 0 || p.Null? then Reject else TakeClientMsg(p.mem)
  }

  /** The fields in front of the embedded message. */
  function TakeVerifyHead(name: seq<byte>, s: seq<byte>): (r: Parsed<(VerifyRet, seq<byte>)>)
  {
    var (cid, s1) :- TakeU64(s);
    var (ok, s2) :- Take(s1, 1);
    var (uin, s3) :- TakeU64(s2);
    var (accName, s4) :- TakeString(name, s3);
    Ok((VerifyRet(cid, ok != 0, uin, accName, NO_CLIENT_MSG), s4))
  }

  /** The verdict of the embedded parser is dropped; a rejected message leaves it empty. */
  function TakeVerifyRet(name: seq<byte>, s: seq<byte>): (r: Parsed<VerifyRet>) {
    var (head, s1) :- TakeVerifyHead(name, s);
    match TakeClientMsg(s1)
    case Ok(rsp) => Ok(head.(rsp := rsp))
    case Reject => Ok(head)
    case Fault => Fault
  }

  function ParseVerifyRet(name: seq<byte>, p: Ptr, len: U16): (r: Parsed<VerifyRet>) {
    if len == 0 || p.Null? || len <= 9 then Reject else TakeVerifyRet(name, p.mem)
  }

  /** The length left behind a list of n ids, modulo 2^16. */
  function Left(len: U16, n: U16): (r: U16)
    ensures len >= 2 + 8 * n ==> r == len - (2 + 8 * n)
  {
    (len - (2 + 8 * n)) % 0x1_0000
  }

  /** The list of n ids and the embedded message. */
  function TakeIds(s: seq<byte>, n: U16): (r: Parsed<BroadCast>) {
    Widths();
    var (cids, s1) :- TakeLes(s, n, 8);
    var msg :- TakeClientMsg(s1);
    Ok(BroadCast(cids, msg))
  }

  /** The embedded parser is told what is left of the length; if that is nothing it reads
      nothing, and neither is the list looked at, which is only pointed to. */
  function TakeBroadCast(s: seq<byte>, len: U16): (r: Parsed<BroadCast>) {
    var (n, s1) :- TakeU16(s);
    if Left(len, n) == 0 then Reject else TakeIds(s1, n)
  }

  function ParseBroadCast(p: Ptr, len: U16): (r: Parsed<BroadCast>) {
    if len == 0 || p.Null? then Reject else TakeBroadCast(p.mem, len)
  }

  function TakeHeartBeat(s: seq<byte>): (r: Parsed<(HeartBeat, seq<byte>)>) {
    var (reqCmd, s1) :- TakeU32(s);
    var (rspCmd, s2) :- TakeU32(s1);
    var (interval, s3) :- TakeU32(s2);
    Ok((HeartBeat(reqCmd, rspCmd, interval), s3))
  }

  /** A text behind its 16-bit length, which must stay below the limit. */
  function TakeText(s: seq<byte>): (r: Parsed<(seq<byte>, seq<byte>)>) {
    var (n, s1) :- TakeU16(s);
    if n >= ASMSG_MAX_LEN then Reject else TakeBytes(s1, n)
  }

  function TakeLimit(s: seq<byte>): (r: Parsed<(ClientLimit, seq<byte>)>) {
    var (maxNum, s1) :- TakeU32(s);
    var (rspCmd, s2) :- TakeU32(s1);
    var (text, s3) :- TakeText(s2);
    Ok((ClientLimit(maxNum, rspCmd, text), s3))
  }

  function TakeSeting(s: seq<byte>): (r: Parsed<(AccSeting, seq<byte>)>) {
    var (hbi, s1) :- TakeHeartBeat(s);
    var (cli, s2) :- TakeLimit(s1);
    var (noMsg, s3) :- TakeU32(s2);
    var (grp, s4) :- TakeU16(s3);
    Ok((AccSeting(hbi, cli, noMsg, grp), s4))
  }

  function ParseSeting(p: Ptr, len: U16): (r: Parsed<AccSeting>) {
    if len == 0 || p.Null? then Reject else
    var (m, rest) :- TakeSeting(p.mem);
    Ok(m)
  }

  /** The commands read are pushed behind those the object already held. */
  function TakeCmd2Grp(held: seq<U16>, s: seq<byte>): (r: Parsed<(Cmd2Grp, seq<byte>)>) {
    var (grp, s1) :- TakeU16(s);
    var (n, s2) :- TakeU64(s1);
    Widths();
    var (cmds, s3) :- TakeLes(s2, n, 2);
    Ok((Cmd2Grp(grp, held + cmds), s3))
  }

  function ParseCmd2Grp(held: seq<U16>, p: Ptr, len: U16): (r: Parsed<Cmd2Grp>) {
    if len == 0 || p.Null? then Reject else
    var (m, rest) :- TakeCmd2Grp(held, p.mem);
    if len != |p.mem| - |rest| then Reject else Ok(m)
  }

  // ---- serializers --------------------------------------------------------------------

  function AsWire(cmd: U16, body: seq<byte>): seq<byte> {
    Le(cmd, 2) + body
  }

  predicate ForwardOk(m: Forward) {
    m.cmd != 0 && m.len < ASMSG_MAX_LEN
  }

  function ForwardWire(m: Forward): (s: seq<byte>)
    requires Readable(m.msg, m.len)
    ensures |s| == 14 + m.len
  {
    Le(m.cid, 8) + (Le(m.cmd, 4) + (Le(m.len, 2) + Span(m.msg, m.len)))
  }

  predicate ClientMsgOk(m: ClientMsg) {
    m.cmd != 0 && m.len < ASMSG_MAX_LEN
  }

  function ClientMsgWire(m: ClientMsg): (s: seq<byte>)
    requires Readable(m.msg, m.len)
    ensures |s| == 6 + m.len
  {
    Le(m.cmd, 4) + (Le(m.len, 2) + Span(m.msg, m.len))
  }

  function BoolByte(b: bool): byte {
    if b then 1 else 0
  }

  function VerifyRetHead(m: VerifyRet): (s: seq<byte>)
    ensures |s| == 25 + |m.accName|
  {
    Le(m.cid, 8) + ([BoolByte(m.success)] + (Le(m.uin, 8) + (Le(|m.accName|, 8) + m.accName)))
  }

  function VerifyRetWire(m: VerifyRet): (s: seq<byte>)
    requires Readable(m.rsp.msg, m.rsp.len)
    ensures |s| == 31 + |m.accName| + m.rsp.len
  {
    VerifyRetHead(m) + ClientMsgWire(m.rsp)
  }

  function BroadCastHead(m: BroadCast): seq<byte> {
    Le(|m.cids|, 2) + Les(m.cids, 8)
  }

  function BroadCastWire(m: BroadCast): seq<byte>
    requires Readable(m.msg.msg, m.msg.len)
  {
    BroadCastHead(m) + ClientMsgWire(m.msg)
  }

  function HeartBeatWire(m: HeartBeat): (s: seq<byte>)
    ensures |s| == 12
  {
    Le(m.reqCmd, 4) + (Le(m.rspCmd, 4) + Le(m.intervalSec, 4))
  }

  /** The text length is stored modulo 2^16 while the whole text is appended. */
  function LimitWire(m: ClientLimit): (s: seq<byte>)
    ensures |s| == 10 + |m.rspMsg|
  {
    Le(m.maxNum, 4) + (Le(m.rspCmd, 4) + (Le(|m.rspMsg| % 0x1_0000, 2) + m.rspMsg))
  }

  function SetingWire(m: AccSeting): (s: seq<byte>)
    ensures |s| == 28 + |m.cli.rspMsg|
  {
    HeartBeatWire(m.hbi) + (LimitWire(m.cli) + (Le(m.noMsgSec, 4) + Le(m.defaultGrp, 2)))
  }

  function Cmd2GrpWire(m: Cmd2Grp): seq<byte> {
    Le(m.grp, 2) + (Le(|m.cmds|, 8) + Les(m.cmds, 2))
  }

  // ---- reading back what was written ---------------------------------------------------

  lemma TakeOfLe(x: nat, n: nat, t: seq<byte>)
    requires x < Pow256(n)
    ensures Take(Le(x, n) + t, n) == Ok((x, t))
  {
    LeValOfLe(x, n);
    assert (Le(x, n) + t)[..n] == Le(x, n) && (Le(x, n) + t)[n..] == t;
  }

  lemma TakeU16Of(x: U16, t: seq<byte>)
    ensures TakeU16(Le(x, 2) + t) == Ok((x, t))
  {
    Widths();
    TakeOfLe(x, 2, t);
  }

  lemma TakeU32Of(x: U32, t: seq<byte>)
    ensures TakeU32(Le(x, 4) + t) == Ok((x, t))
  {
    Widths();
    TakeOfLe(x, 4, t);
  }

  lemma TakeU64Of(x: U64, t: seq<byte>)
    ensures TakeU64(Le(x, 8) + t) == Ok((x, t))
  {
    Widths();
    TakeOfLe(x, 8, t);
  }

  lemma TakeByte(b: byte, t: seq<byte>)
    ensures Take([b] + t, 1) == Ok((b, t))
  {
    assert ([b] + t)[..1] == [b] && ([b] + t)[1..] == t;
    assert LeVal([b]) == b;
  }

  lemma TakeBytesOf(a: seq<byte>, t: seq<byte>)
    ensures TakeBytes(a + t, |a|) == Ok((a, t))
  {
    assert (a + t)[..|a|] == a && (a + t)[|a|..] == t;
  }

  lemma {:induction false} TakeLesOf(xs: seq<nat>, w: nat, t: seq<byte>)
    requires forall i :: 0 <= i < |xs| ==> xs[i] < Pow256(w)
    ensures TakeLes(Les(xs, w) + t, |xs|, w) == Ok((xs, t))
  {
    if xs == [] {
      assert Les(xs, w) + t == t;
    } else {
      var rest := Les(xs[1..], w) + t;
      assert Les(xs, w) + t == Le(xs[0], w) + rest;
      TakeOfLe(xs[0], w, rest);
      TakeLesOf(xs[1..], w, t);
      assert [xs[0]] + xs[1..] == xs;
    }
  }

  lemma LeOfTake(s: seq<byte>, n: nat)
    requires Take(s, n).Ok?
    ensures s == Le(Take(s, n).value.0, n) + Take(s, n).value.1
  {
    LeOfLeVal(s[..n]);
    Cut(s, n);
  }

  lemma LesCons(x: nat, xs: seq<nat>, w: nat)
    ensures Les([x] + xs, w) == Le(x, w) + Les(xs, w)
  {
    ConsParts(x, xs);
  }

  lemma {:induction false} LesOfTake(s: seq<byte>, n: nat, w: nat)
    requires TakeLes(s, n, w).Ok?
    ensures var (xs, t) := TakeLes(s, n, w).value; s == Les(xs, w) + t
    decreases n
  {
    if n == 0 {
      AppendNil(s);
    } else {
      var (x, s1) := Take(s, w).value;
      var (xs, t) := TakeLes(s1, n - 1, w).value;
      LesOfTake(s1, n - 1, w);
      LeOfTake(s, w);
      LesCons(x, xs, w);
      Assoc(Le(x, w), Les(xs, w), t);
    }
  }

  lemma {:induction false} LesLength(xs: seq<nat>, w: nat)
    ensures |Les(xs, w)| == |xs| * w
  {
    if xs != [] {
      LesLength(xs[1..], w);
      assert |xs| * w == w + (|xs| - 1) * w;
    }
  }

  lemma {:induction false} TakePairs(s: seq<byte>, n: nat)
    ensures TakeLes(s, n, 2).Ok? <==> 2 * n <= |s|
    ensures TakeLes(s, n, 2).Ok? ==> |TakeLes(s, n, 2).value.1| == |s| - 2 * n
    decreases n
  {
    if n > 0 && 2 <= |s| {
      TakePairs(s[2..], n - 1);
    }
  }

  /** The outer layer: what arrives is what was sent, unless the body reaches the limit. */
  lemma AsRoundTrip(cmd: U16, body: seq<byte>, t: seq<byte>)
    requires 2 + |body| < 0x1_0000
    ensures ParseAs(At(AsWire(cmd, body) + t), 2 + |body|) ==
            if |body| >= ASMSG_MAX_LEN then Reject
            else Ok(AsMsg(cmd, |body|, if |body| == 0 then Null else At(body + t)))
  {
    assert AsWire(cmd, body) + t == Le(cmd, 2) + (body + t);
    TakeU16Of(cmd, body + t);
  }

  lemma TakeForwardParts(m: Forward, rest: seq<byte>)
    requires m.len < ASMSG_MAX_LEN
    ensures TakeForward(Le(m.cid, 8) + (Le(m.cmd, 4) + (Le(m.len, 2) + rest))) ==
            Ok(Forward(m.cid, m.cmd, m.len, if m.len == 0 then Null else At(rest)))
  {
    TakeU64Of(m.cid, Le(m.cmd, 4) + (Le(m.len, 2) + rest));
    TakeU32Of(m.cmd, Le(m.len, 2) + rest);
    TakeU16Of(m.len, rest);
  }

  lemma SpanOf(p: Ptr, n: nat, t: seq<byte>)
    requires Readable(p, n)
    ensures var q := if n == 0 then Null else At(Span(p, n) + t); Readable(q, n) && Span(q, n) == Span(p, n)
  {
  }

  lemma ForwardRoundTrip(m: Forward, t: seq<byte>)
    requires ForwardOk(m) && Readable(m.msg, m.len)
    ensures var r := ParseForward(At(ForwardWire(m) + t), |ForwardWire(m)|);
            && r.Ok? && r.value.cid == m.cid && r.value.cmd == m.cmd && r.value.len == m.len
            && Readable(r.value.msg, m.len) && Span(r.value.msg, m.len) == Span(m.msg, m.len)
  {
    var text := Span(m.msg, m.len);
    Assoc(Le(m.len, 2), text, t);
    Assoc(Le(m.cmd, 4), Le(m.len, 2) + text, t);
    Assoc(Le(m.cid, 8), Le(m.cmd, 4) + (Le(m.len, 2) + text), t);
    TakeForwardParts(m, text + t);
    SpanOf(m.msg, m.len, t);
  }

  /** Reading a client message from any memory that begins with its bytes. */
  lemma ClientMsgRoundTrip(m: ClientMsg, t: seq<byte>, len: U16)
    requires ClientMsgOk(m) && Readable(m.msg, m.len) && len != 0
    ensures var r := ParseClientMsg(At(ClientMsgWire(m) + t), len);
            && r.Ok? && r.value.cmd == m.cmd && r.value.len == m.len
            && Readable(r.value.msg, m.len) && Span(r.value.msg, m.len) == Span(m.msg, m.len)
  {
    var s2 := Span(m.msg, m.len) + t;
    var s1 := Le(m.len, 2) + s2;
    assert ClientMsgWire(m) + t == Le(m.cmd, 4) + s1;
    TakeU32Of(m.cmd, s1);
    TakeU16Of(m.len, s2);
  }

  lemma TakeStringOf(dst: seq<byte>, text: seq<byte>, t: seq<byte>)
    requires |text| < 0x1_0000
    ensures TakeString(dst, Le(|text|, 8) + (text + t)) == Ok((dst + text, t))
  {
    TakeU64Of(|text|, text + t);
    TakeBytesOf(text, t);
  }

  lemma TakeVerifyHeadOf(m: VerifyRet, t: seq<byte>)
    requires |m.accName| < 0x1_0000
    ensures TakeVerifyHead([], VerifyRetHead(m) + t) == Ok((m.(rsp := NO_CLIENT_MSG), t))
  {
    var c1, c2, c3, c4 := [BoolByte(m.success)], Le(m.uin, 8), Le(|m.accName|, 8), m.accName;
    Assoc(c3, c4, t);
    Assoc(c2, c3 + c4, t);
    Assoc(c1, c2 + (c3 + c4), t);
    Assoc(Le(m.cid, 8), c1 + (c2 + (c3 + c4)), t);
    TakeU64Of(m.cid, c1 + (c2 + (c3 + (c4 + t))));
    TakeByte(BoolByte(m.success), c2 + (c3 + (c4 + t)));
    TakeU64Of(m.uin, c3 + (c4 + t));
    TakeStringOf([], m.accName, t);
    assert [] + m.accName == m.accName;
  }

  /** Nested self-delimiting round trip. With t empty nothing behind the message is readable,
      so a parse that is not a Fault read only serialized bytes. */
  lemma VerifyRetRoundTrip(m: VerifyRet, t: seq<byte>)
    requires m.cid != 0 && ClientMsgOk(m.rsp) && Readable(m.rsp.msg, m.rsp.len)
    requires |VerifyRetWire(m)| < 0x1_0000
    ensures var r := ParseVerifyRet([], At(VerifyRetWire(m) + t), |VerifyRetWire(m)|);
            && r.Ok? && r.value.cid == m.cid && r.value.success == m.success && r.value.uin == m.uin
            && r.value.accName == m.accName
            && r.value.rsp.cmd == m.rsp.cmd && r.value.rsp.len == m.rsp.len
            && Readable(r.value.rsp.msg, m.rsp.len)
            && Span(r.value.rsp.msg, m.rsp.len) == Span(m.rsp.msg, m.rsp.len)
  {
    Assoc(VerifyRetHead(m), ClientMsgWire(m.rsp), t);
    TakeVerifyHeadOf(m, ClientMsgWire(m.rsp) + t);
    ClientMsgRoundTrip(m.rsp, t, (|VerifyRetWire(m)| - 9) as U16);
  }

  /** Wrapped in the outer message a verdict arrives exactly when name and answer together
      leave room for the 31 other bytes. */
  lemma VerifyRetDelivered(m: VerifyRet, t: seq<byte>)
    requires m.cid != 0 && ClientMsgOk(m.rsp) && Readable(m.rsp.msg, m.rsp.len)
    requires 2 + |VerifyRetWire(m)| < 0x1_0000
    ensures var outer := ParseAs(At(AsWire(CMD_REQ_VERIFY_RET, VerifyRetWire(m)) + t), 2 + |VerifyRetWire(m)|);
            && (outer.Ok? <==> |m.accName| + m.rsp.len <= 4064)
            && (outer.Ok? ==>
                var r := ParseVerifyRet([], outer.value.msg, outer.value.len);
                && outer.value.cmd == CMD_REQ_VERIFY_RET && r.Ok?
                && r.value.cid == m.cid && r.value.success == m.success && r.value.uin == m.uin
                && r.value.accName == m.accName && r.value.rsp.cmd == m.rsp.cmd && r.value.rsp.len == m.rsp.len
                && Readable(r.value.rsp.msg, m.rsp.len)
                && Span(r.value.rsp.msg, m.rsp.len) == Span(m.rsp.msg, m.rsp.len))
  {
    AsRoundTrip(CMD_REQ_VERIFY_RET, VerifyRetWire(m), t);
    VerifyRetRoundTrip(m, t);
  }

  lemma BroadCastLength(m: BroadCast)
    requires Readable(m.msg.msg, m.msg.len)
    ensures |BroadCastWire(m)| == 8 + 8 * |m.cids| + m.msg.len
  {
    LesLength(m.cids, 8);
  }

  lemma BroadCastParts(m: BroadCast, t: seq<byte>)
    requires Readable(m.msg.msg, m.msg.len)
    ensures BroadCastWire(m) + t == Le(|m.cids|, 2) + (Les(m.cids, 8) + (ClientMsgWire(m.msg) + t))
  {
    var s2 := ClientMsgWire(m.msg) + t;
    Assoc(BroadCastHead(m), ClientMsgWire(m.msg), t);
    Assoc(Le(|m.cids|, 2), Les(m.cids, 8), s2);
  }

  lemma CidsOf(cids: seq<U64>, t: seq<byte>)
    ensures TakeLes(Les(cids, 8) + t, |cids|, 8) == Ok((cids, t))
  {
    Widths();
    TakeLesOf(cids, 8, t);
  }

  lemma TakeIdsOf(cids: seq<U64>, s: seq<byte>, msg: ClientMsg)
    requires |cids| < 512 && TakeClientMsg(s) == Ok(msg)
    ensures TakeIds(Les(cids, 8) + s, |cids|) == Ok(BroadCast(cids, msg))
  {
    CidsOf(cids, s);
  }

  lemma TakeBroadCastParts(cids: seq<U64>, s: seq<byte>, len: U16, msg: ClientMsg)
    requires |cids| < 512 && len > 2 + 8 * |cids| && TakeClientMsg(s) == Ok(msg)
    ensures TakeBroadCast(Le(|cids|, 2) + (Les(cids, 8) + s), len) == Ok(BroadCast(cids, msg))
  {
    TakeU16Of(|cids|, Les(cids, 8) + s);
    TakeIdsOf(cids, s, msg);
  }

  lemma BroadCastRoundTrip(m: BroadCast, t: seq<byte>)
    requires |m.cids| < 512 && ClientMsgOk(m.msg) && Readable(m.msg.msg, m.msg.len)
    ensures |BroadCastWire(m)| < 0x1_0000
    ensures var r := ParseBroadCast(At(BroadCastWire(m) + t), |BroadCastWire(m)|);
            && r.Ok? && r.value.cids == m.cids
            && r.value.msg.cmd == m.msg.cmd && r.value.msg.len == m.msg.len
            && Readable(r.value.msg.msg, m.msg.len)
            && Span(r.value.msg.msg, m.msg.len) == Span(m.msg.msg, m.msg.len)
  {
    var s := ClientMsgWire(m.msg) + t;
    BroadCastLength(m);
    BroadCastParts(m, t);
    ClientMsgRoundTrip(m.msg, t, 1);
    TakeBroadCastParts(m.cids, s, |BroadCastWire(m)|, TakeClientMsg(s).value);
  }

  /** A serialized broadcast wrapped in the outer message comes back, cid for cid, exactly
      when it stays below the outer limit; its own checks allow more than twice that. */
  lemma BroadCastDelivered(m: BroadCast, t: seq<byte>)
    requires |m.cids| < 512 && ClientMsgOk(m.msg) && Readable(m.msg.msg, m.msg.len)
    ensures 2 + |BroadCastWire(m)| < 0x1_0000
    ensures var outer := ParseAs(At(AsWire(CMD_REQ_BROADCAST, BroadCastWire(m)) + t), 2 + |BroadCastWire(m)|);
            && (outer.Ok? <==> 8 + 8 * |m.cids| + m.msg.len <= 4095)
            && !outer.Fault?
            && (outer.Ok? ==>
                var r := ParseBroadCast(outer.value.msg, outer.value.len);
                && outer.value.cmd == CMD_REQ_BROADCAST && r.Ok? && r.value.cids == m.cids
                && r.value.msg.cmd == m.msg.cmd && r.value.msg.len == m.msg.len
                && Readable(r.value.msg.msg, m.msg.len)
                && Span(r.value.msg.msg, m.msg.len) == Span(m.msg.msg, m.msg.len))
  {
    BroadCastLength(m);
    AsRoundTrip(CMD_REQ_BROADCAST, BroadCastWire(m), t);
    BroadCastRoundTrip(m, t);
  }

  lemma TakeHeartBeatOf(m: HeartBeat, t: seq<byte>)
    ensures TakeHeartBeat(HeartBeatWire(m) + t) == Ok((m, t))
  {
    var c1, c2 := Le(m.rspCmd, 4), Le(m.intervalSec, 4);
    Assoc(c1, c2, t);
    Assoc(Le(m.reqCmd, 4), c1 + c2, t);
    TakeU32Of(m.reqCmd, c1 + (c2 + t));
    TakeU32Of(m.rspCmd, c2 + t);
    TakeU32Of(m.intervalSec, t);
  }

  lemma TakeTextOf(text: seq<byte>, t: seq<byte>)
    requires |text| < ASMSG_MAX_LEN
    ensures TakeText(Le(|text|, 2) + (text + t)) == Ok((text, t))
  {
    TakeU16Of(|text|, text + t);
    TakeBytesOf(text, t);
  }

  lemma TakeLimitParts(m: ClientLimit, t: seq<byte>)
    requires |m.rspMsg| < ASMSG_MAX_LEN
    ensures TakeLimit(Le(m.maxNum, 4) + (Le(m.rspCmd, 4) + (Le(|m.rspMsg|, 2) + (m.rspMsg + t)))) == Ok((m, t))
  {
    var s2 := Le(|m.rspMsg|, 2) + (m.rspMsg + t);
    TakeU32Of(m.maxNum, Le(m.rspCmd, 4) + s2);
    TakeU32Of(m.rspCmd, s2);
    TakeTextOf(m.rspMsg, t);
  }

  lemma FourThenMore(a: seq<byte>, b: seq<byte>, c: seq<byte>, d: seq<byte>, t: seq<byte>)
    ensures (a + (b + (c + d))) + t == a + (b + (c + (d + t)))
  {
    Assoc(c, d, t);
    Assoc(b, c + d, t);
    Assoc(a, b + (c + d), t);
  }

  lemma TakeLimitOf(m: ClientLimit, t: seq<byte>)
    requires |m.rspMsg| < ASMSG_MAX_LEN
    ensures TakeLimit(LimitWire(m) + t) == Ok((m, t))
  {
    var c1, c2 := Le(m.rspCmd, 4), Le(|m.rspMsg|, 2);
    FourThenMore(Le(m.maxNum, 4), c1, c2, m.rspMsg, t);
    assert LimitWire(m) + t == Le(m.maxNum, 4) + (c1 + (c2 + (m.rspMsg + t)));
    TakeLimitParts(m, t);
  }

  /** The settings come back whole whenever the text is shorter than the limit. */
  lemma SetingRoundTrip(m: AccSeting, t: seq<byte>)
    requires |m.cli.rspMsg| < ASMSG_MAX_LEN
    ensures ParseSeting(At(SetingWire(m) + t), |SetingWire(m)|) == Ok(m)
  {
    var c1, c2, c3 := LimitWire(m.cli), Le(m.noMsgSec, 4), Le(m.defaultGrp, 2);
    Assoc(c2, c3, t);
    Assoc(c1, c2 + c3, t);
    Assoc(HeartBeatWire(m.hbi), c1 + (c2 + c3), t);
    TakeHeartBeatOf(m.hbi, c1 + (c2 + (c3 + t)));
    TakeLimitOf(m.cli, c2 + (c3 + t));
    TakeU32Of(m.noMsgSec, c3 + t);
    TakeU16Of(m.defaultGrp, t);
  }

  /** Through the outer layer the settings arrive exactly when the text is at most 4067 bytes:
      28 fixed bytes count against the limit that the text alone is checked against. */
  lemma SetingDelivered(m: AccSeting, t: seq<byte>)
    requires 2 + |SetingWire(m)| < 0x1_0000
    ensures var outer := ParseAs(At(AsWire(CMD_REQ_ACC_SETING, SetingWire(m)) + t), 2 + |SetingWire(m)|);
            && (outer.Ok? <==> |m.cli.rspMsg| <= 4067)
            && (outer.Ok? ==> outer.value.cmd == CMD_REQ_ACC_SETING
                              && ParseSeting(outer.value.msg, outer.value.len) == Ok(m))
  {
    AsRoundTrip(CMD_REQ_ACC_SETING, SetingWire(m), t);
    if |m.cli.rspMsg| <= 4067 {
      SetingRoundTrip(m, t);
    }
  }

  // ---- writing back what was read -----------------------------------------------------

  lemma U32Tail(s: seq<byte>)
    requires TakeU32(s).Ok?
    ensures s == Le(TakeU32(s).value.0, 4) + TakeU32(s).value.1
  {
    LeOfTake(s, 4);
  }

  /** A forward is accepted exactly if its header can be read and its length is below the
      limit, and what is accepted is the serialization of what was read, as far as it reaches. */
  lemma ForwardCanonical(s: seq<byte>, len: U16)
    requires len >= 4
    ensures var r := ParseForward(At(s), len);
            && (r.Fault? <==> |s| < 14)
            && (r.Reject? <==> |s| >= 14 && LeVal(s[12..14]) >= ASMSG_MAX_LEN)
            && (r.Ok? && Readable(r.value.msg, r.value.len) ==> ForwardWire(r.value) <= s)
  {
    if |s| >= 14 {
      var s1, s2, s3 := s[8..], s[12..], s[14..];
      assert s1[..4] == s[8..12] && s1[4..] == s2 && s2[..2] == s[12..14] && s2[2..] == s3;
      LeOfTake(s, 8);
      LeOfTake(s1, 4);
      LeOfTake(s2, 2);
      var r := ParseForward(At(s), len);
      if r.Ok? && Readable(r.value.msg, r.value.len) {
        WireIsPrefix(r.value, s, s1, s2, s3);
      }
    }
  }

  lemma WireIsPrefix(m: Forward, s: seq<byte>, s1: seq<byte>, s2: seq<byte>, s3: seq<byte>)
    requires s == Le(m.cid, 8) + s1 && s1 == Le(m.cmd, 4) + s2 && s2 == Le(m.len, 2) + s3
    requires m.msg == (if m.len == 0 then Null else At(s3)) && Readable(m.msg, m.len)
    ensures ForwardWire(m) <= s
  {
    var text := Span(m.msg, m.len);
    assert text <= s3;
    PrefixAppend(Le(m.len, 2), text, s3);
    PrefixAppend(Le(m.cmd, 4), Le(m.len, 2) + text, s2);
    PrefixAppend(Le(m.cid, 8), Le(m.cmd, 4) + (Le(m.len, 2) + text), s1);
  }

  lemma PrefixAppend(a: seq<byte>, b: seq<byte>, c: seq<byte>)
    requires b <= c
    ensures a + b <= a + c
  {
  }

  lemma TextTail(s: seq<byte>)
    requires TakeText(s).Ok?
    ensures var (text, t) := TakeText(s).value;
            |text| < ASMSG_MAX_LEN && s == (Le(|text|, 2) + text) + t
  {
    var (n, s1) := TakeU16(s).value;
    LeOfTake(s, 2);
    Cut(s1, n);
    Assoc(Le(n, 2), s1[..n], s1[n..]);
  }

  lemma LimitParts(m: ClientLimit, s: seq<byte>, s1: seq<byte>, s2: seq<byte>, t: seq<byte>)
    requires |m.rspMsg| < ASMSG_MAX_LEN
    requires s == Le(m.maxNum, 4) + s1 && s1 == Le(m.rspCmd, 4) + s2 && s2 == (Le(|m.rspMsg|, 2) + m.rspMsg) + t
    ensures s == LimitWire(m) + t
  {
    var text := Le(|m.rspMsg|, 2) + m.rspMsg;
    Assoc(Le(m.rspCmd, 4), text, t);
    Assoc(Le(m.maxNum, 4), Le(m.rspCmd, 4) + text, t);
  }

  lemma SetingTail(s: seq<byte>)
    requires TakeLimit(s).Ok?
    ensures s == LimitWire(TakeLimit(s).value.0) + TakeLimit(s).value.1
  {
    var (maxNum, s1) := TakeU32(s).value;
    var (rspCmd, s2) := TakeU32(s1).value;
    var (text, t) := TakeText(s2).value;
    U32Tail(s);
    U32Tail(s1);
    TextTail(s2);
    LimitParts(ClientLimit(maxNum, rspCmd, text), s, s1, s2, t);
  }

  lemma SetingHead(s: seq<byte>)
    requires TakeHeartBeat(s).Ok?
    ensures s == HeartBeatWire(TakeHeartBeat(s).value.0) + TakeHeartBeat(s).value.1
  {
    var (reqCmd, s1) := TakeU32(s).value;
    var (rspCmd, s2) := TakeU32(s1).value;
    var (interval, t) := TakeU32(s2).value;
    U32Tail(s);
    U32Tail(s1);
    U32Tail(s2);
    Assoc(Le(rspCmd, 4), Le(interval, 4), t);
    Assoc(Le(reqCmd, 4), Le(rspCmd, 4) + Le(interval, 4), t);
  }

  /** Settings that are accepted are the serialization of what was read, whatever follows. */
  lemma SetingCanonical(s: seq<byte>, len: U16)
    requires ParseSeting(At(s), len).Ok?
    ensures SetingWire(ParseSeting(At(s), len).value) <= s
  {
    var (hbi, s1) := TakeHeartBeat(s).value;
    var (cli, s2) := TakeLimit(s1).value;
    var (noMsg, s3) := TakeU32(s2).value;
    var (grp, t) := TakeU16(s3).value;
    SetingHead(s);
    SetingTail(s1);
    LeOfTake(s2, 4);
    LeOfTake(s3, 2);
    Assoc(Le(noMsg, 4), Le(grp, 2), t);
    PrefixAppend(LimitWire(cli), Le(noMsg, 4) + Le(grp, 2), s2);
    PrefixAppend(HeartBeatWire(hbi), LimitWire(cli) + (Le(noMsg, 4) + Le(grp, 2)), s1);
  }

  /** The 64-bit count stored behind the group id. */
  function StoredCount(b: seq<byte>): nat
    requires |b| >= 10
  {
    LeVal(b[2..10])
  }

  lemma Cmd2GrpReads(b: seq<byte>, t: seq<byte>)
    requires |b| >= 10
    ensures TakeU16(b + t) == Ok((LeVal(b[..2]), b[2..] + t))
    ensures TakeU64(b[2..] + t) == Ok((StoredCount(b), b[10..] + t))
  {
    assert (b + t)[..2] == b[..2] && (b + t)[2..] == b[2..] + t;
    assert (b[2..] + t)[..8] == b[2..10] && (b[2..] + t)[8..] == b[10..] + t;
  }

  lemma Cmd2GrpNeeds(s: seq<byte>, len: U16)
    requires ParseCmd2Grp([], At(s), len).Ok?
    ensures len >= 10
  {
    var (grp, s1) := TakeU16(s).value;
    var (n, s2) := TakeU64(s1).value;
    TakePairs(s2, n);
  }

  /** Whatever follows in memory, a buffer is accepted exactly when its length matches its
      stored count. */
  lemma Cmd2GrpAccepts(b: seq<byte>, t: seq<byte>)
    requires |b| < 0x1_0000
    ensures ParseCmd2Grp([], At(b + t), |b|).Ok? <==> |b| >= 10 && |b| == 10 + 2 * StoredCount(b)
  {
    if |b| >= 10 {
      Cmd2GrpReads(b, t);
      TakePairs(b[10..] + t, StoredCount(b));
    } else if ParseCmd2Grp([], At(b + t), |b|).Ok? {
      Cmd2GrpNeeds(b + t, |b|);
    }
  }

  lemma Cmd2GrpRewrites(b: seq<byte>, m: Cmd2Grp)
    requires |b| >= 10 && m.grp == LeVal(b[..2]) && |m.cmds| == StoredCount(b)
    requires b[10..] == Les(m.cmds, 2)
    ensures Cmd2GrpWire(m) == b
  {
    LeOfLeVal(b[..2]);
    LeOfLeVal(b[2..10]);
    var c0, c1, c2 := b[..2], b[2..10], b[10..];
    assert b == c0 + (c1 + c2);
  }

  /** An accepted buffer is the serialization of what was read from it, whatever follows it. */
  lemma Cmd2GrpCanonical(b: seq<byte>, t: seq<byte>)
    requires |b| < 0x1_0000 && ParseCmd2Grp([], At(b + t), |b|).Ok?
    ensures Cmd2GrpWire(ParseCmd2Grp([], At(b + t), |b|).value) == b
  {
    Cmd2GrpAccepts(b, t);
    Cmd2GrpReads(b, t);
    var (cmds, rest) := TakeLes(b[10..] + t, StoredCount(b), 2).value;
    TakePairs(b[10..] + t, StoredCount(b));
    LesOfTake(b[10..] + t, StoredCount(b), 2);
    LesLength(cmds, 2);
    SameFront(b[10..], t, Les(cmds, 2), rest);
    AppendNil(cmds);
    Cmd2GrpRewrites(b, ParseCmd2Grp([], At(b + t), |b|).value);
  }

  lemma SameFront(a: seq<byte>, t: seq<byte>, b: seq<byte>, u: seq<byte>)
    requires a + t == b + u && |a| == |b|
    ensures a == b
  {
    assert (a + t)[..|a|] == a && (b + u)[..|b|] == b;
  }

  /** ... and every value that fits a length parameter parses back from its bytes. */
  lemma Cmd2GrpRoundTrip(m: Cmd2Grp, t: seq<byte>)
    requires |Cmd2GrpWire(m)| < 0x1_0000
    ensures ParseCmd2Grp([], At(Cmd2GrpWire(m) + t), |Cmd2GrpWire(m)|) == Ok(m)
  {
    LesLength(m.cmds, 2);
    var c1, c2 := Le(|m.cmds|, 8), Les(m.cmds, 2);
    Assoc(c1, c2, t);
    Assoc(Le(m.grp, 2), c1 + c2, t);
    TakeU16Of(m.grp, c1 + (c2 + t));
    TakeU64Of(|m.cmds|, c2 + t);
    Widths();
    TakeLesOf(m.cmds, 2, t);
    assert [] + m.cmds == m.cmds;
  }
}
