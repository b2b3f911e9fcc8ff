/** Transport parameters (section 18 of RFC 9000): s_quic_put_params and s_quic_take_params. */
module TransportParams {
  import opened Bytes
  import opened Varints

  const FLOW: nat := 8 * 1024 * 1024
  const CID_LEN: nat := 8

  datatype Item = Item(id: nat, val: nat)

  datatype Cid = NoCid | Cid(bytes: seq<byte>)

  const ITEMS: seq<Item> := [Item(0x04, FLOW), Item(0x05, FLOW), Item(0x06, FLOW), Item(0x08, 4), Item(0x01, 30000)]

  // ---------------------------------------------------------------- what is written

  /** One integer parameter: id, length of the value, value. */
  function IntBytes(x: Item): seq<byte> {
    Encode(x.id) + Encode(Size(x.val)) + Encode(x.val)
  }

  function CidBytes(id: nat, cid: seq<byte>): seq<byte> {
    Encode(id) + Encode(CID_LEN) + cid
  }

  function ItemsBytes(l: seq<Item>): seq<byte> {
    if l == [] then [] else ItemsBytes(l[..|l| - 1]) + IntBytes(l[|l| - 1])
  }

  function ParamsBytes(cid: seq<byte>, odcid: Cid): seq<byte> {
    ItemsBytes(ITEMS) + CidBytes(0x0f, cid) + if odcid.Cid? then CidBytes(0x00, odcid.bytes) else []
  }

  method PutInt(p: array<byte>, at: nat, x: Item) returns (ok: bool, n: nat)
    requires at <= p.Length && x.id < TWO_62 && x.val < TWO_62
    modifies p
    ensures ok <==> at + |IntBytes(x)| <= p.Length
    ensures ok ==> n == at + |IntBytes(x)| && p[..n] == old(p[..at]) + IntBytes(x)
  {
    ok, n := AppendVarint(p, at, x.id);
    if ok {
      ok, n := AppendVarint(p, n, Size(x.val));
    }
    if ok {
      ok, n := AppendVarint(p, n, x.val);
    }
  }

  method PutCid(p: array<byte>, at: nat, id: nat, cid: seq<byte>) returns (ok: bool, n: nat)
    requires at <= p.Length && id < TWO_62 && |cid| == CID_LEN
    modifies p
    ensures ok <==> at + |CidBytes(id, cid)| <= p.Length
    ensures ok ==> n == at + |CidBytes(id, cid)| && p[..n] == old(p[..at]) + CidBytes(id, cid)
  {
    ok, n := AppendVarint(p, at, id);
    if ok {
      ok, n := AppendVarint(p, n, CID_LEN);
    }
    if ok {
      if n + CID_LEN > p.Length {
        return false, n;
      }
      n := AppendBytes(p, n, cid);
    }
  }

  lemma {:induction false} ItemsPrefix(l: seq<Item>, k: nat)
    requires k <= |l|
    ensures ItemsBytes(l[..k]) <= ItemsBytes(l)
  {
    if k == |l| {
      assert l[..k] == l;
    } else {
      ItemsPrefix(l[..|l| - 1], k);
      assert l[..|l| - 1][..k] == l[..k];
    }
  }

  method PutInts(p: array<byte>, l: seq<Item>) returns (ok: bool, n: nat)
    requires forall x :: x in l ==> x.id < TWO_62 && x.val < TWO_62
    modifies p
    ensures ok <==> |ItemsBytes(l)| <= p.Length
    ensures ok ==> n == |ItemsBytes(l)| && p[..n] == ItemsBytes(l)
  {
    n := 0;
    for k := 0 to |l|
      invariant n <= p.Length && p[..n] == ItemsBytes(l[..k])
    {
      assert l[..k + 1][..k] == l[..k];
      ItemsPrefix(l, k + 1);
      ok, n := PutInt(p, n, l[k]);
      if !ok {
        return;
      }
    }
    assert l[..|l|] == l;
    ok := true;
  }

  /** Writes the parameters at the front of p; succeeds exactly when there is room. */
  method PutParams(p: array<byte>, cid: seq<byte>, odcid: Cid) returns (ok: bool, n: nat)
    requires |cid| == CID_LEN && (odcid.Cid? ==> |odcid.bytes| == CID_LEN)
    modifies p
    ensures ok <==> |ParamsBytes(cid, odcid)| <= p.Length
    ensures ok ==> n == |ParamsBytes(cid, odcid)| && p[..n] == ParamsBytes(cid, odcid)
  {
    ok, n := PutInts(p, ITEMS);
    if ok {
      ok, n := PutCid(p, n, 0x0f, cid);
    }
    if ok && odcid.Cid? {
      ok, n := PutCid(p, n, 0x00, odcid.bytes);
    }
  }

  // ---------------------------------------------------------------- what is read

  /** What the connection knows of its peer. */
  datatype Peer = Peer(cid: seq<byte>, odcid: seq<byte>, bidiLocal: nat, bidiRemote: nat, sawParams: bool)

  datatype Taken = Taken(ok: bool, c: Peer)

  /** The effect of one parameter with value bytes val. */
  function TakeOne(c: Peer, id: nat, val: seq<byte>, fromServer: bool): Taken {
    if id == 0x05 || id == 0x06 || id == 0x04 || id == 0x01 then
      match Decode(val)
      case Short => Taken(false, c)
      case Value(v, _) =>
        Taken(true, if id == 0x05 then c.(bidiLocal := v) else if id == 0x06 then c.(bidiRemote := v) else c)
    else if id == 0x0f then Taken(|val| == CID_LEN && val == c.cid, c)
    else if id == 0x00 && fromServer then Taken(|val| == CID_LEN && val == c.odcid, c)
    else Taken(true, c)
  }

  datatype Param = Malformed | Param(id: nat, val: seq<byte>, n: nat)

  /** The parameter at the front of s and the bytes it takes. */
  function Head(s: seq<byte>): (r: Param)
    ensures r.Param? ==> 0 < r.n <= |s|
  {
    match Decode(s)
    case Short => Malformed
    case Value(id, n) =>
      match Decode(s[n..])
      case Short => Malformed
      case Value(len, m) =>
        if |s| - n - m < len then Malformed else Param(id, s[n + m..n + m + len], n + m + len)
  }

  function Take(c: Peer, s: seq<byte>, fromServer: bool): Taken
    decreases |s|
  {
    if s == [] then Taken(true, c.(sawParams := true)) else
      match Head(s)
      case Malformed => Taken(false, c)
      case Param(id, val, n) =>
        var t := TakeOne(c, id, val, fromServer);
        if t.ok then Take(t.c, s[n..], fromServer) else t
  }

  method GetParam(p: seq<byte>, pos: nat, ghost s: seq<byte>) returns (ok: bool, id: nat, val: seq<byte>, next: nat)
    requires pos <= |p| && s == p[pos..]
    ensures ok <==> Head(s).Param?
    ensures ok ==> pos < next <= |p| && Head(s) == Param(id, val, next - pos) && s[next - pos..] == p[next..]
  {
    assert p[pos..|p|] == s;
    var at, len;
    val := [];
    ok, id, at := GetVarint(p, pos, |p|);
    if !ok {
      return false, 0, [], pos;
    }
    DropDrop(p, pos, at - pos);
    assert p[at..|p|] == s[at - pos..];
    ok, len, next := GetVarint(p, at, |p|);
    if !ok || |p| - next < len {
      return false, 0, [], pos;
    }
    DropSlice(p, pos, next - pos, next - pos + len);
    val := p[next..next + len];
    next := next + len;
    DropDrop(p, pos, next - pos);
  }

  method TakeNext(c: Peer, p: seq<byte>, pos: nat, ghost s: seq<byte>, fromServer: bool) returns (got: bool, t: Taken, next: nat)
    requires pos < |p| && s == p[pos..]
    ensures got ==> pos < next <= |p| && s[next - pos..] == p[next..]
    ensures Take(c, s, fromServer) == if got && t.ok then Take(t.c, s[next - pos..], fromServer) else Taken(false, t.c)
  {
    var id, val;
    got, id, val, next := GetParam(p, pos, s);
    t := if got then TakeOne(c, id, val, fromServer) else Taken(false, c);
    TakeRound(c, s, got, id, val, if got then next - pos else 0, t, fromServer);
  }

  method TakeParams(c: Peer, p: seq<byte>, fromServer: bool) returns (ok: bool, c': Peer)
    ensures Taken(ok, c') == Take(c, p, fromServer)
  {
    var pos := 0;
    c' := c;
    ghost var whole, s := Take(c, p, fromServer), p;
    while pos < |p|
      invariant pos <= |p| && s == p[pos..] && Take(c', s, fromServer) == whole
      decreases |p| - pos
    {
      var got, t, next := TakeNext(c', p, pos, s, fromServer);
      c' := t.c;
      if !got || !t.ok {
        return false, c';
      }
      s := s[next - pos..];
      pos := next;
    }
    return true, c'.(sawParams := true);
  }

  // ---------------------------------------------------------------- the round trip

  /** A parameter at the front is taken or refused. */
  lemma {:induction false} TakeHead(c: Peer, s: seq<byte>, id: nat, val: seq<byte>, n: nat, fromServer: bool)
    requires s != [] && Head(s) == Param(id, val, n)
    ensures var t := TakeOne(c, id, val, fromServer);
      Take(c, s, fromServer) == if t.ok then Take(t.c, s[n..], fromServer) else Taken(false, t.c)
  {
  }

  /** One round of the parsing loop. */
  lemma {:induction false} TakeRound(c: Peer, s: seq<byte>, got: bool, id: nat, val: seq<byte>, n: nat, t: Taken, fromServer: bool)
    requires s != [] && n <= |s| && (got <==> Head(s).Param?) && (got ==> Head(s) == Param(id, val, n))
    requires t == if got then TakeOne(c, id, val, fromServer) else Taken(false, c)
    ensures Take(c, s, fromServer) == if got && t.ok then Take(t.c, s[n..], fromServer) else Taken(false, t.c)
  {
    if got {
      TakeHead(c, s, id, val, n, fromServer);
    }
  }

  lemma {:induction false} HeadBy(s: seq<byte>, id: nat, n: nat, len: nat, m: nat)
    requires Decode(s) == Value(id, n) && Decode(s[n..]) == Value(len, m) && n + m + len <= |s|
    ensures Head(s) == Param(id, s[n + m..n + m + len], n + m + len)
  {
  }

  /** The parameter at the front of a well-formed string. */
  lemma {:induction false} HeadOf(id: nat, val: seq<byte>, rest: seq<byte>)
    requires id < TWO_62 && |val| < TWO_62
    ensures Head(Encode(id) + (Encode(|val|) + (val + rest))) == Param(id, val, Size(id) + Size(|val|) + |val|)
  {
    var e, l := Encode(id), Encode(|val|);
    var u := val + rest;
    DecodeEncode(id, l + u);
    FrontBack(e, l + u);
    DecodeEncode(|val|, u);
    HeadBy(e + (l + u), id, |e|, |val|, |l|);
    MiddleOf(e, l, val, rest);
  }

  lemma {:induction false} MiddleOf(e: seq<byte>, l: seq<byte>, val: seq<byte>, rest: seq<byte>)
    ensures (e + (l + (val + rest)))[|e| + |l|..|e| + |l| + |val|] == val
  {
  }

  lemma {:induction false} Regroup(e: seq<byte>, l: seq<byte>, val: seq<byte>, rest: seq<byte>)
    ensures e + l + val + rest == e + (l + (val + rest))
    ensures (e + (l + (val + rest)))[|e| + |l| + |val|..] == rest
  {
  }

  /** A parameter at the front of a well-formed string is taken, and the rest follows. */
  lemma {:induction false} TakeStep(c: Peer, id: nat, val: seq<byte>, rest: seq<byte>, fromServer: bool)
    requires id < TWO_62 && |val| < TWO_62
    ensures var t := TakeOne(c, id, val, fromServer);
      Take(c, Encode(id) + Encode(|val|) + val + rest, fromServer) == if t.ok then Take(t.c, rest, fromServer) else t
  {
    var e, l := Encode(id), Encode(|val|);
    Regroup(e, l, val, rest);
    HeadOf(id, val, rest);
    TakeHead(c, e + (l + (val + rest)), id, val, |e| + |l| + |val|, fromServer);
  }

  function WithInt(c: Peer, x: Item): Peer {
    if x.id == 0x05 then c.(bidiLocal := x.val) else if x.id == 0x06 then c.(bidiRemote := x.val) else c
  }

  lemma {:induction false} TakeInt(c: Peer, x: Item, rest: seq<byte>, fromServer: bool)
    requires x.id < TWO_62 && x.val < TWO_62 && x.id != 0x0f && x.id != 0x00
    ensures Take(c, IntBytes(x) + rest, fromServer) == Take(WithInt(c, x), rest, fromServer)
  {
    var v := Encode(x.val);
    DecodeEncode(x.val, []);
    assert v + [] == v;
    assert TakeOne(c, x.id, v, fromServer) == Taken(true, WithInt(c, x));
    TakeStep(c, x.id, v, rest, fromServer);
  }

  function WithInts(c: Peer, l: seq<Item>): Peer {
    if l == [] then c else WithInt(WithInts(c, l[..|l| - 1]), l[|l| - 1])
  }

  lemma {:induction false} TakeInts(c: Peer, l: seq<Item>, rest: seq<byte>, fromServer: bool)
    requires forall x :: x in l ==> x.id < TWO_62 && x.val < TWO_62 && x.id != 0x0f && x.id != 0x00
    ensures Take(c, ItemsBytes(l) + rest, fromServer) == Take(WithInts(c, l), rest, fromServer)
  {
    if l == [] {
      assert ItemsBytes(l) + rest == rest;
    } else {
      var x, init := l[|l| - 1], l[..|l| - 1];
      assert ItemsBytes(l) + rest == ItemsBytes(init) + (IntBytes(x) + rest);
      TakeInts(c, init, IntBytes(x) + rest, fromServer);
      TakeInt(WithInts(c, init), x, rest, fromServer);
    }
  }

  lemma {:induction false} TakeItems(c: Peer, rest: seq<byte>, fromServer: bool)
    ensures Take(c, ItemsBytes(ITEMS) + rest, fromServer) == Take(c.(bidiLocal := FLOW, bidiRemote := FLOW), rest, fromServer)
  {
    TakeInts(c, ITEMS, rest, fromServer);
    assert ITEMS[..4][..3] == ITEMS[..3] && ITEMS[..3][..2] == ITEMS[..2] && ITEMS[..2][..1] == ITEMS[..1] && ITEMS[..1][..0] == [];
    assert WithInts(c, ITEMS[..1]) == c;
    assert WithInts(c, ITEMS[..2]) == c.(bidiLocal := FLOW);
    assert WithInts(c, ITEMS[..3]) == c.(bidiLocal := FLOW, bidiRemote := FLOW);
  }

  /**
   Parsing the parameters a peer wrote succeeds if and only if the connection ids match,
   and then recovers both stream limits.
   */
  lemma {:induction false} ParamsRoundTrip(c: Peer, cid: seq<byte>, odcid: Cid, fromServer: bool)
    requires |cid| == CID_LEN && (odcid.Cid? ==> |odcid.bytes| == CID_LEN)
    ensures var t := Take(c, ParamsBytes(cid, odcid), fromServer);
      && (t.ok <==> c.cid == cid && (odcid.Cid? && fromServer ==> c.odcid == odcid.bytes))
      && (t.ok ==> t.c == c.(bidiLocal := FLOW, bidiRemote := FLOW, sawParams := true))
  {
    var tail := if odcid.Cid? then CidBytes(0x00, odcid.bytes) else [];
    var c1 := c.(bidiLocal := FLOW, bidiRemote := FLOW);
    assert ParamsBytes(cid, odcid) == ItemsBytes(ITEMS) + (CidBytes(0x0f, cid) + tail);
    TakeItems(c, CidBytes(0x0f, cid) + tail, fromServer);
    TakeStep(c1, 0x0f, cid, tail, fromServer);
    if odcid.Cid? {
      TakeStep(c1, 0x00, odcid.bytes, [], fromServer);
      assert tail + [] == tail;
    }
  }
}
