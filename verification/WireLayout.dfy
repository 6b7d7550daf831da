/** Where the parts of each message lie on the wire, byte by byte, told without the parsers; and what
    each parser refuses without looking at a single byte. */
module WireLayout {
  import opened Bytes
  import opened Proto

  /** The integer stored in the n bytes from i on. */
  function IntAt(s: seq<byte>, i: nat, n: nat): nat
    requires i + n <= |s|
  {
    LeVal(s[i..i + n])
  }

  lemma Spread(d: nat, x: nat, p: nat, y: nat)
    ensures d + 256 * (x + p * y) == (d + 256 * x) + 256 * p * y
  {
  }

  /** The bytes in front are the low ones: the bytes behind n others count 256 to the n times. */
  lemma {:induction false} LowBytesFirst(a: seq<byte>, b: seq<byte>)
    ensures LeVal(a + b) == LeVal(a) + Pow256(|a|) * LeVal(b)
  {
    if a == [] {
      AppendNil(b);
    } else {
      var x, p, y := LeVal(a[1..]), Pow256(|a| - 1), LeVal(b);
      ConsAppend(a, b);
      LowBytesFirst(a[1..], b);
      assert LeVal(a + b) == a[0] + 256 * (x + p * y);
      Spread(a[0], x, p, y);
      assert Pow256(|a|) == 256 * p;
    }
  }

  lemma Middle(a: seq<byte>, b: seq<byte>, c: seq<byte>)
    ensures var s := a + (b + c); s[..|a|] == a && s[|a|..|a| + |b|] == b && s[|a|..] == b + c && s == (a + b) + c
  {
  }

  lemma FourParts(a: seq<byte>, b: seq<byte>, c: seq<byte>, d: seq<byte>)
    ensures var s := a + (b + (c + d));
            var i := |a|; var j := i + |b|; var k := j + |c|;
            && |s| == k + |d| && s[..i] == a && s[i..j] == b && s[j..k] == c && s[k..] == d
  {
    Middle(a, b, c + d);
    Middle(a + b, c, d);
    Middle((a + b) + c, d, []);
    AppendNil(d);
  }

  lemma SixParts(a: seq<byte>, b: seq<byte>, c: seq<byte>, d: seq<byte>, e: seq<byte>, f: seq<byte>)
    ensures var s := a + (b + (c + (d + (e + f))));
            var i := |a|; var j := i + |b|; var k := j + |c|; var l := k + |d|; var m := l + |e|;
            && |s| == m + |f| && s[..i] == a && s[i..j] == b && s[j..k] == c && s[k..l] == d && s[l..m] == e && s[m..] == f
  {
    Middle(a, b, c + (d + (e + f)));
    Middle(a + b, c, d + (e + f));
    Middle((a + b) + c, d, e + f);
    Middle(((a + b) + c) + d, e, f);
    Middle((((a + b) + c) + d) + e, f, []);
    AppendNil(f);
  }

  lemma IntOf(s: seq<byte>, i: nat, x: nat, n: nat)
    requires i + n <= |s| && s[i..i + n] == Le(x, n) && x < Pow256(n)
    ensures IntAt(s, i, n) == x
  {
    LeValOfLe(x, n);
  }

  lemma AsLayout(cmd: U16, body: seq<byte>)
    ensures var s := AsWire(cmd, body);
            |s| == 2 + |body| && IntAt(s, 0, 2) == cmd && s[2..] == body
  {
    Widths();
    IntOf(AsWire(cmd, body), 0, cmd, 2);
  }

  lemma ForwardLayout(m: Forward)
    requires Readable(m.msg, m.len)
    ensures var s := ForwardWire(m);
            && |s| == 14 + m.len && IntAt(s, 0, 8) == m.cid && IntAt(s, 8, 4) == m.cmd && IntAt(s, 12, 2) == m.len
            && s[14..] == Span(m.msg, m.len)
  {
    var s, text := ForwardWire(m), Span(m.msg, m.len);
    FourParts(Le(m.cid, 8), Le(m.cmd, 4), Le(m.len, 2), text);
    Widths();
    IntOf(s, 0, m.cid, 8);
    IntOf(s, 8, m.cmd, 4);
    IntOf(s, 12, m.len, 2);
  }

  lemma ClientMsgLayout(m: ClientMsg)
    requires Readable(m.msg, m.len)
    ensures var s := ClientMsgWire(m);
            && |s| == 6 + m.len && IntAt(s, 0, 4) == m.cmd && IntAt(s, 4, 2) == m.len && s[6..] == Span(m.msg, m.len)
  {
    var s, text := ClientMsgWire(m), Span(m.msg, m.len);
    Middle(Le(m.cmd, 4), Le(m.len, 2), text);
    SliceBehind(Le(m.cmd, 4) + Le(m.len, 2), text, 6, m.len);
    Widths();
    IntOf(s, 0, m.cmd, 4);
    IntOf(s, 4, m.len, 2);
  }

  lemma VerifyRetLayout(m: VerifyRet)
    requires Readable(m.rsp.msg, m.rsp.len) && |m.accName| < 0x1_0000
    ensures var s := VerifyRetWire(m);
            var n := 25 + |m.accName|;
            && |s| == n + 6 + m.rsp.len
            && IntAt(s, 0, 8) == m.cid && (s[8] != 0 <==> m.success) && IntAt(s, 9, 8) == m.uin
            && IntAt(s, 17, 8) == |m.accName| && s[25..n] == m.accName && s[n..] == ClientMsgWire(m.rsp)
  {
    var s, rsp := VerifyRetWire(m), ClientMsgWire(m.rsp);
    SixParts(Le(m.cid, 8), [BoolByte(m.success)], Le(m.uin, 8), Le(|m.accName|, 8), m.accName, rsp);
    HeadThenRest(Le(m.cid, 8), [BoolByte(m.success)], Le(m.uin, 8), Le(|m.accName|, 8), m.accName, rsp);
    Widths();
    assert s[8] == s[8..9][0];
    IntOf(s, 0, m.cid, 8);
    IntOf(s, 9, m.uin, 8);
    IntOf(s, 17, |m.accName|, 8);
  }

  lemma HeadThenRest(a: seq<byte>, b: seq<byte>, c: seq<byte>, d: seq<byte>, e: seq<byte>, f: seq<byte>)
    ensures (a + (b + (c + (d + e)))) + f == a + (b + (c + (d + (e + f))))
  {
  }

  lemma SliceBehind(a: seq<byte>, b: seq<byte>, i: nat, n: nat)
    requires |a| <= i && i + n <= |a| + |b|
    ensures (a + b)[i..i + n] == b[i - |a|..i - |a| + n]
  {
  }

  lemma SliceBefore(a: seq<byte>, b: seq<byte>, i: nat, n: nat)
    requires i + n <= |a|
    ensures (a + b)[i..i + n] == a[i..i + n]
  {
  }

  /** What lies before and behind element i of a vector. */
  lemma {:induction false} LesSplit(xs: seq<nat>, w: nat, i: nat)
    requires i < |xs|
    ensures Les(xs, w) == Les(xs[..i], w) + (Le(xs[i], w) + Les(xs[i + 1..], w))
  {
    if i == 0 {
      AppendNil(Les(xs, w));
    } else {
      LesSplit(xs[1..], w, i - 1);
      LesCons(xs[0], xs[1..i], w);
      assert xs[1..][..i - 1] == xs[1..i] && xs[..i] == [xs[0]] + xs[1..i] && xs[1..][i - 1 + 1..] == xs[i + 1..];
      Assoc(Le(xs[0], w), Les(xs[1..i], w), Le(xs[i], w) + Les(xs[i + 1..], w));
    }
  }

  lemma LesAt(xs: seq<nat>, w: nat, i: nat, at: nat)
    requires i < |xs| && at == i * w
    ensures at + w <= |Les(xs, w)| && Les(xs, w)[at..at + w] == Le(xs[i], w)
  {
    LesLength(xs[..i], w);
    LesSplit(xs, w, i);
    Middle(Les(xs[..i], w), Le(xs[i], w), Les(xs[i + 1..], w));
  }

  lemma BroadCastLayout(m: BroadCast, i: nat)
    requires Readable(m.msg.msg, m.msg.len) && |m.cids| < 0x1_0000
    ensures var s, n := BroadCastWire(m), |m.cids|;
            && |s| == 2 + 8 * n + 6 + m.msg.len
            && IntAt(s, 0, 2) == n && s[2 + 8 * n..] == ClientMsgWire(m.msg)
            && (i < n ==> IntAt(s, 2 + 8 * i, 8) == m.cids[i])
  {
    var s, ids, msg := BroadCastWire(m), Les(m.cids, 8), ClientMsgWire(m.msg);
    LesLength(m.cids, 8);
    Middle(Le(|m.cids|, 2), ids, msg);
    Assoc(Le(|m.cids|, 2), ids, msg);
    Widths();
    IntOf(s, 0, |m.cids|, 2);
    if i < |m.cids| {
      LesAt(m.cids, 8, i, i * 8);
      SliceBehind(Le(|m.cids|, 2), ids + msg, 2 + 8 * i, 8);
      SliceBefore(ids, msg, 8 * i, 8);
      IntOf(s, 2 + 8 * i, m.cids[i], 8);
    }
  }

  lemma SetingLayout(m: AccSeting)
    ensures var s, n := SetingWire(m), 22 + |m.cli.rspMsg|;
            && |s| == n + 6
            && IntAt(s, 0, 4) == m.hbi.reqCmd && IntAt(s, 4, 4) == m.hbi.rspCmd && IntAt(s, 8, 4) == m.hbi.intervalSec
            && IntAt(s, 12, 4) == m.cli.maxNum && IntAt(s, 16, 4) == m.cli.rspCmd
            && IntAt(s, 20, 2) == |m.cli.rspMsg| % 0x1_0000 && s[22..n] == m.cli.rspMsg
            && IntAt(s, n, 4) == m.noMsgSec && IntAt(s, n + 4, 2) == m.defaultGrp
  {
    var s, text, n := SetingWire(m), m.cli.rspMsg, 22 + |m.cli.rspMsg|;
    var hbi, size := HeartBeatWire(m.hbi), Le(|text| % 0x1_0000, 2);
    var tail := Le(m.noMsgSec, 4) + Le(m.defaultGrp, 2);
    FourThenMore(Le(m.cli.maxNum, 4), Le(m.cli.rspCmd, 4), size, text, tail);
    SixParts(hbi, Le(m.cli.maxNum, 4), Le(m.cli.rspCmd, 4), size, text, tail);
    assert s[0..4] == hbi[0..4] && s[4..8] == hbi[4..8] && s[8..12] == hbi[8..12];
    assert s[n..n + 4] == tail[0..4] && s[n + 4..n + 6] == tail[4..6];
    Widths();
    IntOf(s, 0, m.hbi.reqCmd, 4);
    IntOf(s, 4, m.hbi.rspCmd, 4);
    IntOf(s, 8, m.hbi.intervalSec, 4);
    IntOf(s, 12, m.cli.maxNum, 4);
    IntOf(s, 16, m.cli.rspCmd, 4);
    IntOf(s, 20, |text| % 0x1_0000, 2);
    IntOf(s, n, m.noMsgSec, 4);
    IntOf(s, n + 4, m.defaultGrp, 2);
  }

  lemma ThreeParts(a: seq<byte>, b: seq<byte>, c: seq<byte>)
    ensures var s := a + (b + c);
            s == (a + b) + c && s[0..|a|] == a && s[|a|..|a| + |b|] == b
  {
  }

  lemma Cmd2GrpLayout(m: Cmd2Grp, i: nat)
    requires |m.cmds| < 0x1_0000
    ensures var s, n := Cmd2GrpWire(m), |m.cmds|;
            && |s| == 10 + 2 * n && IntAt(s, 0, 2) == m.grp && IntAt(s, 2, 8) == n
            && (i < n ==> IntAt(s, 10 + 2 * i, 2) == m.cmds[i])
  {
    var s, cmds := Cmd2GrpWire(m), Les(m.cmds, 2);
    LesLength(m.cmds, 2);
    ThreeParts(Le(m.grp, 2), Le(|m.cmds|, 8), cmds);
    Widths();
    IntOf(s, 0, m.grp, 2);
    IntOf(s, 2, |m.cmds|, 8);
    if i < |m.cmds| {
      LesAt(m.cmds, 2, i, i * 2);
      SliceBehind(Le(m.grp, 2) + Le(|m.cmds|, 8), cmds, 10 + 2 * i, 2);
      IntOf(s, 10 + 2 * i, m.cmds[i], 2);
    }
  }

  /** Told a length and given nothing to read, a parser refuses exactly what is too short for it;
      anything else it would read. A null pointer is always refused. */
  lemma RefusedUnread(len: U16)
    ensures ParseAs(At([]), len) == (if len < 2 then Reject else Fault)
    ensures ParseForward(At([]), len) == (if len < 4 then Reject else Fault)
    ensures ParseClientMsg(At([]), len) == (if len == 0 then Reject else Fault)
    ensures ParseVerifyRet([], At([]), len) == (if len < 10 then Reject else Fault)
    ensures ParseBroadCast(At([]), len) == (if len == 0 then Reject else Fault)
    ensures ParseSeting(At([]), len) == (if len == 0 then Reject else Fault)
    ensures ParseCmd2Grp([], At([]), len) == (if len == 0 then Reject else Fault)
    ensures ParseAs(Null, len) == Reject && ParseForward(Null, len) == Reject && ParseClientMsg(Null, len) == Reject
    ensures ParseVerifyRet([], Null, len) == Reject && ParseBroadCast(Null, len) == Reject
    ensures ParseSeting(Null, len) == Reject && ParseCmd2Grp([], Null, len) == Reject
  {
  }
}
