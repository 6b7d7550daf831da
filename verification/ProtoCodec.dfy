/** The parsers and serializers of acc_proto/src/proto.cpp as they work: a cursor that is
    advanced through memory, a string buffer that is appended to. Each is proved against the
    grammar of Proto. */
module ProtoCodec {
  import opened Bytes
  import opened Proto

  /** A read pointer into memory; reading past the end is a Fault. */
  class Cursor {
    const mem: seq<byte>
    var pos: nat

    ghost predicate Valid()
      reads this
    {
      pos <= |mem|
    }

    function Rest(): seq<byte>
      requires Valid()
      reads this
    {
      mem[pos..]
    }

    constructor (mem: seq<byte>)
      ensures Valid() && Rest() == mem && this.mem == mem
    {
      this.mem, pos := mem, 0;
    }

    /** Reads an n-byte integer and advances. */
    method ParseCp(n: nat) returns (r: Parsed<nat>)
      requires Valid()
      modifies this
      ensures Valid()
      ensures match Take(old(Rest()), n)
              case Ok(v) => r == Ok(v.0) && Rest() == v.1 && v.0 < Pow256(n)
              case _ => r == Fault && Rest() == old(Rest())
    {
      if |mem| - pos < n {
        return Fault;
      }
      r := Ok(LeVal(mem[pos..pos + n]));
      assert mem[pos..][..n] == mem[pos..pos + n];
      pos := pos + n;
    }

    method ParseU16() returns (r: Parsed<U16>)
      requires Valid()
      modifies this
      ensures Valid() && !r.Reject?
      ensures TakeU16(old(Rest())) == if r.Ok? then Ok((r.value, Rest())) else Fault
    {
      Widths();
      var v :- ParseCp(2);
      r := Ok(v);
    }

    method ParseU32() returns (r: Parsed<U32>)
      requires Valid()
      modifies this
      ensures Valid() && !r.Reject?
      ensures TakeU32(old(Rest())) == if r.Ok? then Ok((r.value, Rest())) else Fault
    {
      Widths();
      var v :- ParseCp(4);
      r := Ok(v);
    }

    method ParseU64() returns (r: Parsed<U64>)
      requires Valid()
      modifies this
      ensures Valid() && !r.Reject?
      ensures TakeU64(old(Rest())) == if r.Ok? then Ok((r.value, Rest())) else Fault
    {
      Widths();
      var v :- ParseCp(8);
      r := Ok(v);
    }

    method ParseBytes(n: nat) returns (r: Parsed<seq<byte>>)
      requires Valid()
      modifies this
      ensures Valid() && !r.Reject?
      ensures TakeBytes(old(Rest()), n) == if r.Ok? then Ok((r.value, Rest())) else Fault
    {
      if |mem| - pos < n {
        return Fault;
      }
      r := Ok(mem[pos..pos + n]);
      assert mem[pos..][..n] == mem[pos..pos + n];
      pos := pos + n;
    }

    /** Appends a length-prefixed text to dst. */
    method ParseString(dst: seq<byte>) returns (r: Parsed<seq<byte>>)
      requires Valid()
      modifies this
      ensures Valid() && !r.Reject?
      ensures TakeString(dst, old(Rest())) == if r.Ok? then Ok((r.value, Rest())) else Fault
    {
      var n :- ParseU64();
      var text :- ParseBytes(n);
      r := Ok(dst + text);
    }

    /** Reads n integers of w bytes each, one push_back per round. */
    method ParseMany(n: nat, w: nat) returns (r: Parsed<seq<nat>>)
      requires Valid()
      modifies this
      ensures Valid() && !r.Reject?
      ensures TakeLes(old(Rest()), n, w) == if r.Ok? then Ok((r.value, Rest())) else Fault
      ensures r.Ok? ==> |r.value| == n && forall i :: 0 <= i < n ==> r.value[i] < Pow256(w)
    {
      var xs: seq<nat> := [];
      ghost var start := Rest();
      PrefixedNil(TakeLes(start, n, w));
      var i := 0;
      while i < n
        invariant Valid() && 0 <= i <= n && |xs| == i
        invariant Prefixed(xs, TakeLes(Rest(), n - i, w)) == TakeLes(start, n, w)
      {
        ghost var rest := Rest();
        var x := ParseCp(w);
        if !x.Ok? {
          return Fault;
        }
        PrefixedSnoc(xs, rest, n - i, w);
        xs := xs + [x.value];
        i := i + 1;
      }
      AppendNil(xs);
      r := Ok(xs);
    }
  }

  /** A read that continues after xs has been read. */
  function Prefixed(xs: seq<nat>, r: Parsed<(seq<nat>, seq<byte>)>): Parsed<(seq<nat>, seq<byte>)> {
    match r
    case Ok(v) => Ok((xs + v.0, v.1))
    case _ => r
  }

  lemma PrefixedNil(r: Parsed<(seq<nat>, seq<byte>)>)
    ensures Prefixed([], r) == r
  {
    if r.Ok? {
      AppendNil(r.value.0);
    }
  }

  lemma PrefixedSnoc(xs: seq<nat>, rest: seq<byte>, n: nat, w: nat)
    requires n > 0 && w <= |rest|
    ensures var (x, t) := Take(rest, w).value;
            Prefixed(xs + [x], TakeLes(t, n - 1, w)) == Prefixed(xs, TakeLes(rest, n, w))
  {
    var (x, t) := Take(rest, w).value;
    if TakeLes(t, n - 1, w).Ok? {
      Assoc(xs, [x], TakeLes(t, n - 1, w).value.0);
    }
  }

  // ---- parsers ------------------------------------------------------------------------

  method ParseAsMsg(p: Ptr, len: U16) returns (r: Parsed<AsMsg>)
    ensures r == ParseAs(p, len)
  {
    if len == 0 || p.Null? || len < 2 {
      return Reject;
    }
    var cur := new Cursor(p.mem);
    var n: U16 := len - 2;
    var cmd :- cur.ParseU16();
    if n >= ASMSG_MAX_LEN {
      return Reject;
    }
    r := Ok(AsMsg(cmd, n, if n == 0 then Null else At(cur.Rest())));
  }

  method ParseForwardFields(cur: Cursor) returns (r: Parsed<Forward>)
    requires cur.Valid()
    modifies cur
    ensures r == TakeForward(old(cur.Rest()))
  {
    var cid :- cur.ParseU64();
    var cmd :- cur.ParseU32();
    var n :- cur.ParseU16();
    if n >= ASMSG_MAX_LEN {
      return Reject;
    }
    r := Ok(Forward(cid, cmd, n, if n == 0 then Null else At(cur.Rest())));
  }

  method ParseForwardMsg(p: Ptr, len: U16) returns (r: Parsed<Forward>)
    ensures r == ParseForward(p, len)
  {
    if len == 0 || p.Null? || len < 4 {
      return Reject;
    }
    var cur := new Cursor(p.mem);
    r := ParseForwardFields(cur);
  }

  method ParseClientMsgFields(cur: Cursor) returns (r: Parsed<ClientMsg>)
    requires cur.Valid()
    modifies cur
    ensures r == TakeClientMsg(old(cur.Rest()))
  {
    var cmd :- cur.ParseU32();
    var n :- cur.ParseU16();
    if n >= ASMSG_MAX_LEN {
      return Reject;
    }
    r := Ok(ClientMsg(cmd, n, if n == 0 then Null else At(cur.Rest())));
  }

  method ParseClientSvrMsg(p: Ptr, len: U16) returns (r: Parsed<ClientMsg>)
    ensures r == ParseClientMsg(p, len)
  {
    if len == 0 || p.Null? {
      return Reject;
    }
    var cur := new Cursor(p.mem);
    r := ParseClientMsgFields(cur);
  }

  method ParseVerifyHead(name: seq<byte>, cur: Cursor) returns (r: Parsed<VerifyRet>)
    requires cur.Valid()
    modifies cur
    ensures cur.Valid() && !r.Reject?
    ensures TakeVerifyHead(name, old(cur.Rest())) == if r.Ok? then Ok((r.value, cur.Rest())) else Fault
  {
    var cid :- cur.ParseU64();
    var ok :- cur.ParseCp(1);
    var uin :- cur.ParseU64();
    var accName :- cur.ParseString(name);
    r := Ok(VerifyRet(cid, ok != 0, uin, accName, NO_CLIENT_MSG));
  }

  method ParseVerifyRetFields(name: seq<byte>, cur: Cursor) returns (r: Parsed<VerifyRet>)
    requires cur.Valid()
    modifies cur
    ensures r == TakeVerifyRet(name, old(cur.Rest()))
  {
    var head :- ParseVerifyHead(name, cur);
    var rsp := ParseClientMsgFields(cur);
    match rsp {
      case Ok(m) => r := Ok(head.(rsp := m));
      case Reject => r := Ok(head);
      case Fault => r := Fault;
    }
  }

  /** name: the account name the object already holds. */
  method ParseVerifyRetMsg(name: seq<byte>, p: Ptr, len: U16) returns (r: Parsed<VerifyRet>)
    ensures r == ParseVerifyRet(name, p, len)
  {
    if len == 0 || p.Null? || len <= 9 {
      return Reject;
    }
    var cur := new Cursor(p.mem);
    r := ParseVerifyRetFields(name, cur);
  }

  method ParseIds(cur: Cursor, n: U16, left: U16) returns (r: Parsed<BroadCast>)
    requires cur.Valid() && left != 0
    modifies cur
    ensures r == TakeIds(old(cur.Rest()), n)
  {
    Widths();
    var cids :- cur.ParseMany(n, 8);
    var msg := ParseClientSvrMsg(At(cur.Rest()), left);
    if !msg.Ok? {
      return msg.PropagateFailure();
    }
    r := Ok(BroadCast(cids, msg.value));
  }

  method ParseBroadCastFields(cur: Cursor, len: U16) returns (r: Parsed<BroadCast>)
    requires cur.Valid()
    modifies cur
    ensures r == TakeBroadCast(old(cur.Rest()), len)
  {
    var n :- cur.ParseU16();
    var left := Left(len, n);
    if left == 0 {
      return Reject;
    }
    r := ParseIds(cur, n, left);
  }

  method ParseBroadCastMsg(p: Ptr, len: U16) returns (r: Parsed<BroadCast>)
    ensures r == ParseBroadCast(p, len)
  {
    if len == 0 || p.Null? {
      return Reject;
    }
    var cur := new Cursor(p.mem);
    r := ParseBroadCastFields(cur, len);
  }

  method ParseHeartBeat(cur: Cursor) returns (r: Parsed<HeartBeat>)
    requires cur.Valid()
    modifies cur
    ensures cur.Valid() && !r.Reject?
    ensures TakeHeartBeat(old(cur.Rest())) == if r.Ok? then Ok((r.value, cur.Rest())) else Fault
  {
    var reqCmd :- cur.ParseU32();
    var rspCmd :- cur.ParseU32();
    var interval :- cur.ParseU32();
    r := Ok(HeartBeat(reqCmd, rspCmd, interval));
  }

  method ParseText(cur: Cursor) returns (r: Parsed<seq<byte>>)
    requires cur.Valid()
    modifies cur
    ensures cur.Valid()
    ensures match r
            case Ok(v) => TakeText(old(cur.Rest())) == Ok((v, cur.Rest()))
            case Reject => TakeText(old(cur.Rest())) == Reject
            case Fault => TakeText(old(cur.Rest())) == Fault
  {
    var n :- cur.ParseU16();
    if n >= ASMSG_MAX_LEN {
      return Reject;
    }
    r := cur.ParseBytes(n);
  }

  method ParseLimit(cur: Cursor) returns (r: Parsed<ClientLimit>)
    requires cur.Valid()
    modifies cur
    ensures cur.Valid()
    ensures match r
            case Ok(v) => TakeLimit(old(cur.Rest())) == Ok((v, cur.Rest()))
            case Reject => TakeLimit(old(cur.Rest())) == Reject
            case Fault => TakeLimit(old(cur.Rest())) == Fault
  {
    var maxNum :- cur.ParseU32();
    var rspCmd :- cur.ParseU32();
    var text :- ParseText(cur);
    r := Ok(ClientLimit(maxNum, rspCmd, text));
  }

  method ParseSetingFields(cur: Cursor) returns (r: Parsed<AccSeting>)
    requires cur.Valid()
    modifies cur
    ensures cur.Valid()
    ensures match r
            case Ok(v) => TakeSeting(old(cur.Rest())) == Ok((v, cur.Rest()))
            case Reject => TakeSeting(old(cur.Rest())) == Reject
            case Fault => TakeSeting(old(cur.Rest())) == Fault
  {
    var hbi :- ParseHeartBeat(cur);
    var cli :- ParseLimit(cur);
    var noMsg :- cur.ParseU32();
    var grp :- cur.ParseU16();
    r := Ok(AccSeting(hbi, cli, noMsg, grp));
  }

  method ParseAccSeting(p: Ptr, len: U16) returns (r: Parsed<AccSeting>)
    ensures r == ParseSeting(p, len)
  {
    if len == 0 || p.Null? {
      return Reject;
    }
    var cur := new Cursor(p.mem);
    r := ParseSetingFields(cur);
  }

  method ParseCmd2GrpFields(held: seq<U16>, cur: Cursor) returns (r: Parsed<Cmd2Grp>)
    requires cur.Valid()
    modifies cur
    ensures cur.Valid() && !r.Reject?
    ensures TakeCmd2Grp(held, old(cur.Rest())) == if r.Ok? then Ok((r.value, cur.Rest())) else Fault
  {
    var grp :- cur.ParseU16();
    var n :- cur.ParseU64();
    Widths();
    var cmds :- cur.ParseMany(n, 2);
    r := Ok(Cmd2Grp(grp, held + cmds));
  }

  /** held: the commands the object already holds. */
  method ParseSetCmd2GrpId(held: seq<U16>, p: Ptr, len: U16) returns (r: Parsed<Cmd2Grp>)
    ensures r == ParseCmd2Grp(held, p, len)
  {
    if len == 0 || p.Null? {
      return Reject;
    }
    var cur := new Cursor(p.mem);
    r := ParseCmd2GrpFields(held, cur);
    if r.Ok? && len as int != cur.pos {
      r := Reject;
    }
  }

  // ---- serializers --------------------------------------------------------------------

  /** A string buffer. */
  class TcpPack {
    var s: seq<byte>

    constructor ()
      ensures s == []
    {
      s := [];
    }

    method Append(b: seq<byte>)
      modifies this
      ensures s == old(s) + b
    {
      s := s + b;
    }

    method Clear()
      modifies this
      ensures s == []
    {
      s := [];
    }
  }

  /** A vector: its size in eight bytes, then its elements. */
  method SerialVector(out: TcpPack, xs: seq<U16>)
    modifies out
    ensures out.s == old(out.s) + (Le(|xs|, 8) + Les(xs, 2))
  {
    ghost var start := out.s;
    out.Append(Le(|xs|, 8));
    var i := 0;
    assert xs[0..] == xs;
    while i < |xs|
      invariant 0 <= i <= |xs|
      invariant out.s + Les(xs[i..], 2) == start + (Le(|xs|, 8) + Les(xs, 2))
    {
      ghost var sofar := out.s;
      out.Append(Le(xs[i], 2));
      assert xs[i..][1..] == xs[i + 1..];
      Assoc(sofar, Le(xs[i], 2), Les(xs[i + 1..], 2));
      i := i + 1;
    }
    AppendNil(out.s);
  }

  method SerializeForward(m: Forward, out: TcpPack) returns (ok: bool)
    requires Readable(m.msg, m.len)
    modifies out
    ensures ok <==> m.cmd != 0 && m.len < 4096
    ensures out.s == old(out.s) + (if ok then ForwardWire(m) else [])
  {
    if m.cmd == 0 || m.len >= ASMSG_MAX_LEN {
      AppendNil(out.s);
      return false;
    }
    out.Append(Le(m.cid, 8));
    out.Append(Le(m.cmd, 4));
    out.Append(Le(m.len, 2));
    out.Append(Span(m.msg, m.len));
    Appended4(old(out.s), Le(m.cid, 8), Le(m.cmd, 4), Le(m.len, 2), Span(m.msg, m.len));
    return true;
  }

  lemma Appended4(s: seq<byte>, a: seq<byte>, b: seq<byte>, c: seq<byte>, d: seq<byte>)
    ensures s + a + b + c + d == s + (a + (b + (c + d)))
  {
  }

  method SerializeClientMsg(m: ClientMsg, out: TcpPack) returns (ok: bool)
    requires Readable(m.msg, m.len)
    modifies out
    ensures ok <==> m.cmd != 0 && m.len < 4096
    ensures out.s == old(out.s) + (if ok then ClientMsgWire(m) else [])
  {
    if m.cmd == 0 || m.len >= ASMSG_MAX_LEN {
      AppendNil(out.s);
      return false;
    }
    out.Append(Le(m.cmd, 4));
    out.Append(Le(m.len, 2));
    out.Append(Span(m.msg, m.len));
    Appended4(old(out.s), [], Le(m.cmd, 4), Le(m.len, 2), Span(m.msg, m.len));
    AppendNil(old(out.s));
    AppendNil(ClientMsgWire(m));
    return true;
  }

  /** A message refused late leaves its head in the buffer. */
  method SerializeVerifyRet(m: VerifyRet, out: TcpPack) returns (ok: bool)
    requires Readable(m.rsp.msg, m.rsp.len)
    modifies out
    ensures ok <==> m.cid != 0 && m.rsp.cmd != 0 && m.rsp.len < 4096
    ensures ok ==> out.s == old(out.s) + VerifyRetWire(m)
    ensures !ok ==> out.s == old(out.s) + (if m.cid == 0 then [] else VerifyRetHead(m))
  {
    if m.cid == 0 {
      AppendNil(out.s);
      return false;
    }
    out.Append(Le(m.cid, 8));
    out.Append([BoolByte(m.success)]);
    out.Append(Le(m.uin, 8));
    out.Append(Le(|m.accName|, 8) + m.accName);
    Appended4(old(out.s), Le(m.cid, 8), [BoolByte(m.success)], Le(m.uin, 8), Le(|m.accName|, 8) + m.accName);
    assert out.s == old(out.s) + VerifyRetHead(m);
    ok := SerializeClientMsg(m.rsp, out);
    AppendNil(old(out.s) + VerifyRetHead(m));
    Assoc(old(out.s), VerifyRetHead(m), ClientMsgWire(m.rsp));
  }

  method SerializeBroadCast(m: BroadCast, out: TcpPack) returns (ok: bool)
    requires Readable(m.msg.msg, m.msg.len)
    modifies out
    ensures ok <==> |m.cids| < 512 && m.msg.cmd != 0 && m.msg.len < 4096
    ensures ok ==> out.s == old(out.s) + BroadCastWire(m)
    ensures !ok ==> out.s == old(out.s) + (if |m.cids| >= 512 then [] else BroadCastHead(m))
  {
    if |m.cids| >= 512 {
      AppendNil(out.s);
      return false;
    }
    out.Append(Le(|m.cids|, 2));
    out.Append(Les(m.cids, 8));
    Assoc(old(out.s), Le(|m.cids|, 2), Les(m.cids, 8));
    ok := SerializeClientMsg(m.msg, out);
    AppendNil(old(out.s) + BroadCastHead(m));
    Assoc(old(out.s), BroadCastHead(m), ClientMsgWire(m.msg));
  }

  method SerializeAccSeting(m: AccSeting, out: TcpPack)
    modifies out
    ensures out.s == old(out.s) + SetingWire(m)
  {
    out.Append(Le(m.hbi.reqCmd, 4));
    out.Append(Le(m.hbi.rspCmd, 4));
    out.Append(Le(m.hbi.intervalSec, 4));
    Appended4(old(out.s), [], Le(m.hbi.reqCmd, 4), Le(m.hbi.rspCmd, 4), Le(m.hbi.intervalSec, 4));
    AppendNil(old(out.s));
    AppendNil(HeartBeatWire(m.hbi));
    assert out.s == old(out.s) + HeartBeatWire(m.hbi);
    ghost var s1 := out.s;
    var n: U16 := |m.cli.rspMsg| % 0x1_0000;
    out.Append(Le(m.cli.maxNum, 4));
    out.Append(Le(m.cli.rspCmd, 4));
    out.Append(Le(n, 2));
    out.Append(m.cli.rspMsg);
    Appended4(s1, Le(m.cli.maxNum, 4), Le(m.cli.rspCmd, 4), Le(n, 2), m.cli.rspMsg);
    assert out.s == s1 + LimitWire(m.cli);
    out.Append(Le(m.noMsgSec, 4));
    out.Append(Le(m.defaultGrp, 2));
    Appended4(old(out.s), HeartBeatWire(m.hbi), LimitWire(m.cli), Le(m.noMsgSec, 4), Le(m.defaultGrp, 2));
  }

  method SerializeSetCmd2GrpId(m: Cmd2Grp, out: TcpPack)
    modifies out
    ensures out.s == old(out.s) + Cmd2GrpWire(m)
  {
    out.Append(Le(m.grp, 2));
    SerialVector(out, m.cmds);
    Assoc(old(out.s), Le(m.grp, 2), Le(|m.cmds|, 8) + Les(m.cmds, 2));
  }

  // ---- the outer message --------------------------------------------------------------

  /** A null message is left out whatever its length says. */
  method SerializeAs(m: AsMsg, out: TcpPack) returns (ok: bool)
    requires m.msg.At? ==> m.len as int <= |m.msg.mem|
    modifies out
    ensures ok == (m.cmd != CMD_NONE && m.len < ASMSG_MAX_LEN)
    ensures out.s == if !ok then old(out.s) else AsWire(m.cmd, if m.msg.At? then Span(m.msg, m.len) else [])
  {
    if m.cmd == CMD_NONE || m.len >= ASMSG_MAX_LEN {
      return false;
    }
    out.Clear();
    out.Append(Le(m.cmd, 2));
    if m.msg.At? {
      out.Append(Span(m.msg, m.len));
    }
    AppendNil(Le(m.cmd, 2));
    return true;
  }

  /** A serialized body is wrapped whatever its length. */
  method SerializeAsBody(cmd: U16, body: seq<byte>, out: TcpPack) returns (ok: bool)
    modifies out
    ensures ok == (cmd != CMD_NONE)
    ensures out.s == if ok then AsWire(cmd, body) else old(out.s)
  {
    if cmd == CMD_NONE {
      return false;
    }
    out.Clear();
    out.Append(Le(cmd, 2));
    out.Append(body);
    return true;
  }

  method SerializeAsForward(cmd: U16, f: Forward, out: TcpPack) returns (ok: bool)
    requires Readable(f.msg, f.len)
    modifies out
    ensures ok <==> cmd != CMD_NONE && f.cmd != 0 && f.len < 4096
    ensures out.s == if cmd == CMD_NONE then old(out.s) else AsWire(cmd, if ok then ForwardWire(f) else [])
  {
    if cmd == CMD_NONE {
      return false;
    }
    out.Clear();
    out.Append(Le(cmd, 2));
    ok := SerializeForward(f, out);
  }
}
